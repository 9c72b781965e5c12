/**
 * The multi-label abuse classifier: a learned scorer gives one probability
 * per configured label, and `predict` turns each row of probabilities into
 * a score map and the list of labels whose score reaches its threshold.
 */
module AbuseDetection {
  import opened Wrappers
  import opened Dicts

  /** The labels used when the configuration names none. */
  const DefaultLabels: seq<string> := ["toxic", "threat", "insult", "hate", "sexual"]

  /** The threshold of a label the thresholds map leaves out. */
  const DefaultThreshold: real := 0.5

  const NotFitted: string := "AbuseDetector not fitted"

  /** One entry of `predict`'s result: `{"scores": ..., "labels": ...}`. */
  datatype AbuseResult = AbuseResult(scores: Dict<real>, labels: seq<string>)

  /** How many labels get a score: the shorter of the label list and the row. */
  function Paired(labels: seq<string>, row: seq<real>): nat {
    if |labels| < |row| then |labels| else |row|
  }

  /** `zip(labels, row)`: pairs by position, stopping at the shorter list. */
  function Zip(labels: seq<string>, row: seq<real>): (ps: seq<(string, real)>)
    ensures |ps| == Paired(labels, row) <= |labels|
    ensures forall j :: 0 <= j < |ps| ==> ps[j] == (labels[j], row[j])
  {
    var n := Paired(labels, row);
    seq(n, j requires 0 <= j < n => (labels[j], row[j]))
  }

  /**
   * `{lbl: float(score) for lbl, score in pairs}`: a repeated label keeps the
   * position of its first occurrence and the score of its last.
   */
  function DictOf(ps: seq<(string, real)>): Dict<real> {
    if ps == [] then []
    else Put(DictOf(ps[..|ps| - 1]), ps[|ps| - 1].0, ps[|ps| - 1].1)
  }

  /** The score map of one row. */
  function LabelScores(labels: seq<string>, row: seq<real>): Dict<real> {
    DictOf(Zip(labels, row))
  }

  /** `thresholds.get(lbl, 0.5)` */
  function ThresholdOf(thresholds: Dict<real>, name: string): real {
    Get(thresholds, name, DefaultThreshold)
  }

  /** `{lbl: score >= thresholds.get(lbl, 0.5) for lbl, score in scores.items()}` */
  function LabelFlags(scores: Dict<real>, thresholds: Dict<real>): (flags: Dict<bool>)
    ensures KeyList(flags) == KeyList(scores)
    ensures forall i :: 0 <= i < |scores| ==> flags[i].1 == (scores[i].1 >= ThresholdOf(thresholds, scores[i].0))
  {
    var f := seq(|scores|, i requires 0 <= i < |scores| => (scores[i].0, scores[i].1 >= ThresholdOf(thresholds, scores[i].0)));
    assert forall i :: 0 <= i < |f| ==> f[i].0 == scores[i].0;
    f
  }

  /** The result for one row of probabilities. */
  function AbuseRow(labels: seq<string>, row: seq<real>, thresholds: Dict<real>): AbuseResult {
    var scores := LabelScores(labels, row);
    AbuseResult(scores, TrueKeys(LabelFlags(scores, thresholds)))
  }

  /** The keys of `DictOf(ps)` are the labels of `ps`. */
  lemma {:induction false} DictOfKeys(ps: seq<(string, real)>, k: string)
    ensures HasKey(DictOf(ps), k) <==> k in KeyList(ps)
  {
    if ps != [] {
      var init := ps[..|ps| - 1];
      var last := ps[|ps| - 1];
      DictOfKeys(init, k);
      PutKeys(DictOf(init), last.0, last.1);
      assert DictOf(ps) == Put(DictOf(init), last.0, last.1);
      assert KeyList(ps) == KeyList(init) + [last.0];
    }
  }

  /** The labels of `ks` in order, each one kept only where it first occurs. */
  function FirstOccurrences(ks: seq<string>): seq<string> {
    if ks == [] then []
    else
      var init := ks[..|ks| - 1];
      if ks[|ks| - 1] in init then FirstOccurrences(init)
      else FirstOccurrences(init) + [ks[|ks| - 1]]
  }

  /**
   * The keys of `DictOf(ps)` keep the order of the labels in `ps`: a repeated
   * label stays where it first occurred.
   */
  lemma {:induction false} DictOfKeyOrder(ps: seq<(string, real)>)
    ensures KeyList(DictOf(ps)) == FirstOccurrences(KeyList(ps))
    ensures IsSubseq(KeyList(DictOf(ps)), KeyList(ps))
  {
    if ps != [] {
      var init := ps[..|ps| - 1];
      var last := ps[|ps| - 1];
      var ks := KeyList(DictOf(init));
      var ls := KeyList(init) + [last.0];
      DictOfKeyOrder(init);
      DictOfKeys(init, last.0);
      PutKeys(DictOf(init), last.0, last.1);
      assert KeyList(ps) == ls;
      assert ls[..|ls| - 1] == KeyList(init);
      if !HasKey(DictOf(init), last.0) {
        assert (ks + [last.0])[..|ks|] == ks;
      }
    }
  }

  /** Every entry of `DictOf(ps)` is one of the pairs of `ps`. */
  lemma {:induction false} DictOfEntries(ps: seq<(string, real)>)
    ensures forall e :: e in DictOf(ps) ==> e in ps
  {
    if ps != [] {
      var init := ps[..|ps| - 1];
      DictOfEntries(init);
      PutEntries(DictOf(init), ps[|ps| - 1].0, ps[|ps| - 1].1);
      assert ps == init + [ps[|ps| - 1]];
    }
  }

  /** With distinct labels, the pairs are already a dict and the score map is exactly the zip. */
  lemma {:induction false} DictOfDistinct(ps: seq<(string, real)>)
    requires DistinctKeys(ps)
    ensures DictOf(ps) == ps
  {
    if ps != [] {
      var init := ps[..|ps| - 1];
      DictOfDistinct(init);
      assert !HasKey(init, ps[|ps| - 1].0);
      assert ps == init + [ps[|ps| - 1]];
    }
  }

  /**
   * The score map pairs the labels with the row's columns by position: a
   * label is scored iff it is among the first `min(|labels|, |row|)` labels,
   * and with distinct labels the map is exactly those pairs in label order.
   */
  lemma ScoresPairByPosition(labels: seq<string>, row: seq<real>)
    ensures forall k :: HasKey(LabelScores(labels, row), k) <==> k in labels[..Paired(labels, row)]
    ensures (forall i, j :: 0 <= i < j < |labels| ==> labels[i] != labels[j])
      ==> LabelScores(labels, row) == Zip(labels, row)
  {
    var ps := Zip(labels, row);
    assert KeyList(ps) == labels[..Paired(labels, row)];
    forall k
      ensures HasKey(DictOf(ps), k) <==> k in labels[..Paired(labels, row)]
    {
      DictOfKeys(ps, k);
    }
    if forall i, j :: 0 <= i < j < |labels| ==> labels[i] != labels[j] {
      DictOfDistinct(ps);
    }
  }

  /** A label is reported iff it is scored and its score reaches its threshold (0.5 by default). */
  lemma FlaggedIffAtThreshold(labels: seq<string>, row: seq<real>, thresholds: Dict<real>, k: string)
    ensures var r := AbuseRow(labels, row, thresholds);
      k in r.labels <==> HasKey(r.scores, k) && Lookup(r.scores, k).value >= ThresholdOf(thresholds, k)
  {
    var scores := LabelScores(labels, row);
    var flags := LabelFlags(scores, thresholds);
    if HasKey(scores, k) {
      var i := IndexOf(scores, k);
      LookupAt(scores, i);
      LookupAt(flags, i);
    } else {
      assert !HasKey(flags, k);
    }
  }

  /** The reported labels keep the configured order: they are a subsequence of the configured labels. */
  lemma LabelsInConfiguredOrder(labels: seq<string>, row: seq<real>, thresholds: Dict<real>)
    ensures IsSubseq(AbuseRow(labels, row, thresholds).labels, labels)
  {
    var ps := Zip(labels, row);
    var scores := DictOf(ps);
    var reported := TrueKeys(LabelFlags(scores, thresholds));
    assert KeyList(ps) == labels[..|ps|];
    DictOfKeyOrder(ps);
    IsSubseqTrans(reported, KeyList(scores), labels[..|ps|]);
    PrefixSubseq(reported, labels[..|ps|], labels);
  }

  /** A subsequence of a prefix is a subsequence of the whole. */
  lemma {:induction false} PrefixSubseq(xs: seq<string>, ys: seq<string>, zs: seq<string>)
    requires IsSubseq(xs, ys) && |ys| <= |zs| && ys == zs[..|ys|]
    ensures IsSubseq(xs, zs)
    decreases |zs|
  {
    if |ys| == |zs| {
      assert ys == zs;
    } else if xs != [] {
      assert zs[..|zs| - 1][..|ys|] == ys;
      PrefixSubseq(xs, ys, zs[..|zs| - 1]);
    }
  }

  /** A row whose every score is below its label's threshold flags nothing. */
  lemma NothingBelowThresholdIsFlagged(labels: seq<string>, row: seq<real>, thresholds: Dict<real>)
    requires forall j :: 0 <= j < |labels| && j < |row| ==> row[j] < ThresholdOf(thresholds, labels[j])
    ensures AbuseRow(labels, row, thresholds).labels == []
  {
    var ps := Zip(labels, row);
    var scores := DictOf(ps);
    DictOfEntries(ps);
    forall i | 0 <= i < |scores|
      ensures scores[i].1 < ThresholdOf(thresholds, scores[i].0)
    {
      assert scores[i] in ps;
      var j :| 0 <= j < |ps| && ps[j] == scores[i];
    }
    NoTrueKeys(LabelFlags(scores, thresholds));
  }

  class AbuseDetector {
    /** The configured labels, in the order of the scorer's columns. */
    const labels: seq<string>
    /** The fitted scorer: one probability per label for a text; `None` until fitted. */
    var pipeline: Option<string -> seq<real>>

    /** `AbuseDetector(config)`: `config.get("labels", DefaultLabels)`, not yet fitted. */
    constructor (configured: Option<seq<string>>)
      ensures labels == configured.GetOr(DefaultLabels)
      ensures pipeline == None
    {
      labels := configured.GetOr(DefaultLabels);
      pipeline := None;
    }

    /** `fit`: the learner, given the texts and their label lists, yields the scorer. */
    method Fit(texts: seq<string>, yLabels: seq<seq<string>>, learner: (seq<string>, seq<seq<string>>) -> (string -> seq<real>))
      modifies this
      ensures pipeline == Some(learner(texts, yLabels))
    {
      pipeline := Some(learner(texts, yLabels));
    }

    /** `predict_proba`: one row per text, or the not-fitted error. */
    method PredictProba(texts: seq<string>) returns (r: Result<seq<seq<real>>>)
      ensures pipeline.None? ==> r == Failure(NotFitted)
      ensures pipeline.Some? ==> (r.Success? && |r.value| == |texts|
        && forall i :: 0 <= i < |texts| ==> r.value[i] == pipeline.value(texts[i]))
    {
      if pipeline.None? {
        return Failure(NotFitted);
      }
      var score := pipeline.value;
      r := Success(seq(|texts|, i requires 0 <= i < |texts| => score(texts[i])));
    }

    /** `predict`: one result per text, each the thresholded row of that text. */
    method Predict(texts: seq<string>, thresholds: Dict<real>) returns (r: Result<seq<AbuseResult>>)
      ensures pipeline.None? ==> r == Failure(NotFitted)
      ensures pipeline.Some? ==> (r.Success? && |r.value| == |texts|
        && forall i :: 0 <= i < |texts| ==> r.value[i] == AbuseRow(labels, pipeline.value(texts[i]), thresholds))
    {
      var probs := PredictProba(texts);
      if probs.Failure? {
        return Failure(probs.error);
      }
      var rows := probs.value;
      var results: seq<AbuseResult> := [];
      for i := 0 to |rows|
        invariant |results| == i
        invariant forall j :: 0 <= j < i ==> results[j] == AbuseRow(labels, rows[j], thresholds)
      {
        var scores := LabelScores(labels, rows[i]);
        var flags := LabelFlags(scores, thresholds);
        var row := AbuseResult(scores, TrueKeys(flags));
        assert row == AbuseRow(labels, rows[i], thresholds);
        results := results + [row];
      }
      r := Success(results);
    }
  }
}
