/**
 * The escalation tracker: a per-conversation accumulator that turns the
 * stream of per-turn risk scores into a smoothed level (an exponentially
 * weighted moving average, EWMA) and a short-term direction (the
 * least-squares slope of the most recent scores against their position).
 * Scores, the smoothing factor and the floor are mathematical reals.
 */
module Escalation {
  import opened Wrappers

  /** What `update` returns: the new EWMA, the slope of the window and a copy of the window. */
  datatype Metrics = Metrics(ewma: real, slope: real, history: seq<real>)

  /** The keyword arguments of the tracker's constructor; a missing one takes its default. */
  datatype TrackerConfig = TrackerConfig(ewmaAlpha: Option<real>, slopeWindow: Option<nat>, riskFloor: Option<real>)

  const DefaultAlpha: real := 0.3
  const DefaultWindow: nat := 5
  const DefaultFloor: real := 0.05

  /** `max(risk_score, risk_floor)`: scores are raised to the floor, never lowered. */
  function Clamp(risk: real, floor: real): (r: real)
    ensures r >= floor && r >= risk
    ensures r == risk || r == floor
  {
    if risk >= floor then risk else floor
  }

  /** The clamped value of each score of a stream, in arrival order. */
  function ClampAll(risks: seq<real>, floor: real): (rs: seq<real>)
    ensures |rs| == |risks|
    ensures forall i :: 0 <= i < |risks| ==> rs[i] == Clamp(risks[i], floor)
  {
    seq(|risks|, i requires 0 <= i < |risks| => Clamp(risks[i], floor))
  }

  /**
   * The EWMA of a tracker that has been fed `risks`: it starts at 0.0 and each
   * score r moves it to alpha * max(r, floor) + (1 - alpha) * (previous EWMA).
   */
  function EwmaOf(alpha: real, floor: real, risks: seq<real>): real
  {
    if risks == [] then 0.0
    else
      EwmaStep(alpha, Clamp(risks[|risks| - 1], floor), EwmaOf(alpha, floor, risks[..|risks| - 1]))
  }

  /** `self.ewma = self.alpha * r + (1 - self.alpha) * self.ewma` */
  function EwmaStep(alpha: real, r: real, prev: real): real
  {
    alpha * r + (1.0 - alpha) * prev
  }

  /**
   * What a deque with `maxlen = window` holds after `s` has been appended to
   * it one value at a time: the last `window` values of `s`, oldest first.
   */
  function LastN(s: seq<real>, window: nat): seq<real>
  {
    if |s| <= window then s else s[|s| - window..]
  }

  /**
   * The history after k updates holds min(k, window) values, each at least the
   * floor: the last min(k, window) scores, each clamped, in arrival order.
   */
  lemma {:induction false} HistoryBounds(risks: seq<real>, floor: real, window: nat)
    ensures |LastN(ClampAll(risks, floor), window)| == if |risks| < window then |risks| else window
    ensures forall v :: v in LastN(ClampAll(risks, floor), window) ==> v >= floor
    ensures LastN(ClampAll(risks, floor), window) == ClampAll(LastN(risks, window), floor)
  {
    var c := ClampAll(risks, floor);
    var h := LastN(c, window);
    var t := LastN(risks, window);
    LastNLength(c, window);
    LastNLength(risks, window);
    forall i | 0 <= i < |h|
      ensures h[i] == ClampAll(t, floor)[i]
    {
      LastNAt(c, window, i);
      LastNAt(risks, window, i);
    }
    assert h == ClampAll(t, floor);
    forall v | v in h
      ensures v >= floor
    {
      var i :| 0 <= i < |h| && h[i] == v;
      assert v == Clamp(t[i], floor);
    }
  }

  /** The deque holds min(|s|, window) values. */
  lemma LastNLength(s: seq<real>, window: nat)
    ensures |LastN(s, window)| == if |s| < window then |s| else window
  {
  }

  /** The deque's i-th value is the i-th of the last |LastN(s, window)| values of `s`. */
  lemma LastNAt(s: seq<real>, window: nat, i: nat)
    requires i < |LastN(s, window)|
    ensures LastN(s, window)[i] == s[|s| - |LastN(s, window)| + i]
  {
  }

  /**
   * Appending one value to the deque: when it already holds `window` values the
   * oldest one is dropped (FIFO), and the new value is always the newest.
   */
  lemma {:induction false} LastNAppend(s: seq<real>, x: real, window: nat)
    ensures window == 0 ==> LastN(s + [x], window) == []
    ensures window > 0 && |LastN(s, window)| < window ==> LastN(s + [x], window) == LastN(s, window) + [x]
    ensures window > 0 && |LastN(s, window)| == window ==> LastN(s + [x], window) == LastN(s, window)[1..] + [x]
  {
    var t := s + [x];
    if window > 0 && |s| >= window {
      assert t[|t| - window..] == s[|s| - window..][1..] + [x];
    }
  }

  lemma ClampAllSnoc(risks: seq<real>, risk: real, floor: real)
    ensures ClampAll(risks + [risk], floor) == ClampAll(risks, floor) + [Clamp(risk, floor)]
  {
  }

  lemma EwmaSnoc(alpha: real, floor: real, risks: seq<real>, risk: real)
    ensures EwmaOf(alpha, floor, risks + [risk])
      == EwmaStep(alpha, Clamp(risk, floor), EwmaOf(alpha, floor, risks))
  {
    assert (risks + [risk])[..|risks|] == risks;
  }

  /** `sum(arr)` */
  function Sum(s: seq<real>): real
  {
    if s == [] then 0.0 else Sum(s[..|s| - 1]) + s[|s| - 1]
  }

  /** The numerator of the slope over the first k entries: the sum of (i - xMean) * (arr[i] - yMean). */
  function CrossDeviation(arr: seq<real>, xMean: real, yMean: real, k: nat): real
    requires k <= |arr|
  {
    if k == 0 then 0.0
    else CrossDeviation(arr, xMean, yMean, k - 1) + ((k - 1) as real - xMean) * (arr[k - 1] - yMean)
  }

  /** The denominator of the slope over the first k positions: the sum of (i - xMean) ** 2. */
  function SquaredDeviation(xMean: real, k: nat): real
  {
    if k == 0 then 0.0
    else SquaredDeviation(xMean, k - 1) + ((k - 1) as real - xMean) * ((k - 1) as real - xMean)
  }

  /**
   * `_slope`: the ordinary-least-squares slope of the values against their
   * positions 0..n-1, or 0.0 when there are fewer than two values. A zero
   * denominator is replaced by 1.0 (`or 1.0`).
   */
  function Slope(arr: seq<real>): real
  {
    var n := |arr|;
    if n < 2 then 0.0
    else
      var xMean := (n - 1) as real / 2.0;
      var yMean := Sum(arr) / n as real;
      var num := CrossDeviation(arr, xMean, yMean, n);
      var den := SquaredDeviation(xMean, n);
      num / (if den == 0.0 then 1.0 else den)
  }

  /** For two or more values the denominator is positive, so the `or 1.0` fallback never applies. */
  lemma {:induction false} SquaredDeviationPositive(n: nat)
    requires n >= 2
    ensures SquaredDeviation((n - 1) as real / 2.0, n) > 0.0
  {
    var xMean := (n - 1) as real / 2.0;
    SquaredDeviationAtLeast(xMean, n);
  }

  lemma {:induction false} SquaredDeviationAtLeast(xMean: real, k: nat)
    requires k >= 1
    ensures SquaredDeviation(xMean, k) >= xMean * xMean
  {
    if k > 1 {
      SquaredDeviationAtLeast(xMean, k - 1);
      var d := (k - 1) as real - xMean;
      assert d * d >= 0.0;
    }
  }

  /** The values lie on the line a + b * i. */
  ghost predicate OnLine(arr: seq<real>, a: real, b: real) {
    forall i :: 0 <= i < |arr| ==> arr[i] == a + b * i as real
  }

  lemma {:induction false} SumOfLine(arr: seq<real>, a: real, b: real)
    requires OnLine(arr, a, b)
    ensures Sum(arr) == |arr| as real * a + b * (|arr| as real * (|arr| as real - 1.0) / 2.0)
  {
    if arr != [] {
      var k := |arr| as real;
      var init := arr[..|arr| - 1];
      SumOfLine(init, a, b);
      assert arr[|arr| - 1] == a + b * (k - 1.0);
      assert (k - 1.0) * (k - 2.0) / 2.0 + (k - 1.0) == k * (k - 1.0) / 2.0;
      assert b * ((k - 1.0) * (k - 2.0) / 2.0) + b * (k - 1.0) == b * (k * (k - 1.0) / 2.0);
    }
  }

  lemma {:induction false} CrossDeviationOfLine(arr: seq<real>, a: real, b: real, xMean: real, k: nat)
    requires OnLine(arr, a, b) && k <= |arr|
    ensures CrossDeviation(arr, xMean, a + b * xMean, k) == b * SquaredDeviation(xMean, k)
  {
    if k > 0 {
      CrossDeviationOfLine(arr, a, b, xMean, k - 1);
      var d := (k - 1) as real - xMean;
      assert arr[k - 1] - (a + b * xMean) == b * d;
      assert d * (b * d) == b * (d * d);
    }
  }

  /**
   * Values that grow by exactly b per turn have slope b: the slope measures
   * the per-turn trend of the window.
   */
  lemma SlopeOfLine(arr: seq<real>, a: real, b: real)
    requires |arr| >= 2 && OnLine(arr, a, b)
    ensures Slope(arr) == b
  {
    var n := |arr| as real;
    var xMean := (n - 1.0) / 2.0;
    SumOfLine(arr, a, b);
    assert Sum(arr) == n * (a + b * xMean);
    assert Sum(arr) / n == a + b * xMean;
    CrossDeviationOfLine(arr, a, b, xMean, |arr|);
    SquaredDeviationPositive(|arr|);
    var den := SquaredDeviation(xMean, |arr|);
    assert (b * den) / den == b;
  }

  /** A window of equal values has slope 0, whatever its length. */
  lemma SlopeOfConstant(arr: seq<real>, c: real)
    requires forall i :: 0 <= i < |arr| ==> arr[i] == c
    ensures Slope(arr) == 0.0
  {
    if |arr| >= 2 {
      assert OnLine(arr, c, 0.0);
      SlopeOfLine(arr, c, 0.0);
    }
  }

  /** With 0 <= alpha <= 1, a floor in [0, 1] and scores at most 1, the EWMA stays in [0, 1]. */
  lemma {:induction false} EwmaInUnitInterval(alpha: real, floor: real, risks: seq<real>)
    requires 0.0 <= alpha <= 1.0 && 0.0 <= floor <= 1.0
    requires forall i :: 0 <= i < |risks| ==> risks[i] <= 1.0
    ensures 0.0 <= EwmaOf(alpha, floor, risks) <= 1.0
  {
    if risks != [] {
      var init := risks[..|risks| - 1];
      EwmaInUnitInterval(alpha, floor, init);
      var r := Clamp(risks[|risks| - 1], floor);
      var e := EwmaOf(alpha, floor, init);
      assert r <= 1.0;
      ConvexStep(alpha, r, e);
    }
  }

  /** One EWMA step from [0, 1] with a score in [0, 1] stays in [0, 1]. */
  lemma ConvexStep(alpha: real, r: real, e: real)
    requires 0.0 <= alpha <= 1.0 && 0.0 <= r <= 1.0 && 0.0 <= e <= 1.0
    ensures 0.0 <= EwmaStep(alpha, r, e) <= 1.0
  {
    ScaledUnit(alpha, r);
    ScaledUnit(1.0 - alpha, e);
    SplitUnit(alpha * r, (1.0 - alpha) * e, alpha);
  }

  /** Parts of at most alpha and 1 - alpha add up to at most 1. */
  lemma SplitUnit(p: real, q: real, alpha: real)
    requires 0.0 <= p <= alpha && 0.0 <= q <= 1.0 - alpha
    ensures 0.0 <= p + q <= 1.0
  {
  }

  /** One EWMA step toward a score c from below moves up and stays at most c. */
  lemma StepTowards(alpha: real, c: real, e: real)
    requires 0.0 <= alpha <= 1.0 && e <= c
    ensures e <= EwmaStep(alpha, c, e) <= c
  {
    ProductNonnegative(alpha, c - e);
    ProductNonnegative(1.0 - alpha, c - e);
    assert EwmaStep(alpha, c, e) - e == alpha * (c - e);
    assert c - EwmaStep(alpha, c, e) == (1.0 - alpha) * (c - e);
  }

  lemma ProductNonnegative(x: real, y: real)
    requires x >= 0.0 && y >= 0.0
    ensures x * y >= 0.0
  {
  }

  lemma ScaledUnit(k: real, x: real)
    requires 0.0 <= k && 0.0 <= x <= 1.0
    ensures 0.0 <= k * x <= k
  {
    assert k - k * x == k * (1.0 - x);
  }

  /**
   * The EWMA is not clamped: it starts at 0.0, so after a first turn at or
   * below the floor it lies strictly below the floor when alpha < 1.
   */
  lemma EwmaStartsBelowFloor(alpha: real, floor: real, risk: real)
    requires 0.0 <= alpha < 1.0 && floor > 0.0 && risk <= floor
    ensures EwmaOf(alpha, floor, [risk]) == alpha * floor < floor
  {
    assert [risk][..0] == [];
  }

  /**
   * Fed a constant score c (at least the floor), the EWMA rises monotonically
   * toward c without passing it.
   */
  lemma {:induction false} EwmaRisesTowardConstant(alpha: real, floor: real, risks: seq<real>, c: real)
    requires 0.0 <= alpha <= 1.0 && 0.0 <= floor <= c
    requires forall i :: 0 <= i < |risks| ==> risks[i] == c
    ensures 0.0 <= EwmaOf(alpha, floor, risks) <= c
    ensures EwmaOf(alpha, floor, risks) <= EwmaOf(alpha, floor, risks + [c])
  {
    var e := EwmaOf(alpha, floor, risks);
    if risks != [] {
      var init := risks[..|risks| - 1];
      EwmaRisesTowardConstant(alpha, floor, init, c);
      StepTowards(alpha, c, EwmaOf(alpha, floor, init));
    }
    EwmaSnoc(alpha, floor, risks, c);
    StepTowards(alpha, c, e);
  }

  /**
   * The tracker of one conversation. `Inputs` is the stream of scores it has
   * been fed; the window and the EWMA are functions of that stream.
   */
  class EscalationTracker {
    const alpha: real
    const window: nat
    const riskFloor: real
    var history: seq<real>
    var ewma: real
    ghost var Inputs: seq<real>

    ghost predicate Valid()
      reads this
    {
      && history == LastN(ClampAll(Inputs, riskFloor), window)
      && ewma == EwmaOf(alpha, riskFloor, Inputs)
      && |history| <= window
      && (forall v :: v in history ==> v >= riskFloor)
    }

    /** A fresh tracker: empty window, EWMA 0.0, unset settings at their defaults. */
    constructor (cfg: TrackerConfig)
      ensures Valid()
      ensures alpha == cfg.ewmaAlpha.GetOr(DefaultAlpha)
      ensures window == cfg.slopeWindow.GetOr(DefaultWindow)
      ensures riskFloor == cfg.riskFloor.GetOr(DefaultFloor)
      ensures Inputs == [] && history == [] && ewma == 0.0
    {
      alpha := cfg.ewmaAlpha.GetOr(DefaultAlpha);
      window := cfg.slopeWindow.GetOr(DefaultWindow);
      riskFloor := cfg.riskFloor.GetOr(DefaultFloor);
      history := [];
      ewma := 0.0;
      Inputs := [];
    }

    /**
     * `update`: clamp the score to the floor, move the EWMA, push the clamped
     * score into the window (dropping the oldest when full) and report the
     * EWMA, the window's slope and a copy of the window.
     */
    method Update(risk: real) returns (m: Metrics)
      requires Valid()
      modifies this
      ensures Valid()
      ensures Inputs == old(Inputs) + [risk]
      ensures ewma == EwmaStep(alpha, Clamp(risk, riskFloor), old(ewma))
      ensures window == 0 ==> history == []
      ensures window > 0 && |old(history)| < window ==> history == old(history) + [Clamp(risk, riskFloor)]
      ensures window > 0 && |old(history)| == window ==> history == old(history)[1..] + [Clamp(risk, riskFloor)]
      ensures m == Metrics(ewma, Slope(history), history)
    {
      var r := Clamp(risk, riskFloor);
      ghost var clamped := ClampAll(Inputs, riskFloor);
      LastNAppend(clamped, r, window);
      ClampAllSnoc(Inputs, risk, riskFloor);
      EwmaSnoc(alpha, riskFloor, Inputs, risk);
      ewma := EwmaStep(alpha, r, ewma);
      if window > 0 {
        if |history| < window {
          history := history + [r];
        } else {
          history := history[1..] + [r];
        }
      }
      Inputs := Inputs + [risk];
      assert history == LastN(ClampAll(Inputs, riskFloor), window);
      HistoryBounds(Inputs, riskFloor, window);
      m := Metrics(ewma, Slope(history), history);
    }
  }

  /**
   * Five turns rising by 0.1 (alpha 0.3, floor 0.05, window 5): the EWMA goes
   * 0.03, 0.081, 0.1467, 0.22269, 0.305883 and the final slope is 0.1.
   */
  lemma RisingScenario()
    ensures EwmaOf(0.3, 0.05, [0.1]) == 0.03
    ensures EwmaOf(0.3, 0.05, [0.1, 0.2]) == 0.081
    ensures EwmaOf(0.3, 0.05, [0.1, 0.2, 0.3]) == 0.1467
    ensures EwmaOf(0.3, 0.05, [0.1, 0.2, 0.3, 0.4]) == 0.22269
    ensures EwmaOf(0.3, 0.05, [0.1, 0.2, 0.3, 0.4, 0.5]) == 0.305883
    ensures Slope(LastN(ClampAll([0.1, 0.2, 0.3, 0.4, 0.5], 0.05), 5)) == 0.1
  {
    var s: seq<real> := [0.1, 0.2, 0.3, 0.4, 0.5];
    assert s[..4] == [0.1, 0.2, 0.3, 0.4];
    assert s[..4][..3] == [0.1, 0.2, 0.3];
    assert s[..4][..3][..2] == [0.1, 0.2];
    assert s[..4][..3][..2][..1] == [0.1];
    assert [0.1][..0] == [];
    var h := LastN(ClampAll(s, 0.05), 5);
    assert h == s;
    assert OnLine(h, 0.1, 0.1);
    SlopeOfLine(h, 0.1, 0.1);
  }
}
