/**
 * The policy engine: a stateless rule that fuses one turn's classifier
 * outputs and the escalation trend into an allow / warn / block decision,
 * an optional hand-off to a human moderator and the labels to redact.
 */
module Policy {
  import opened Wrappers
  import opened Dicts

  /** The decision's "action" entry: "allow", "warn" or "block". */
  datatype Action = Allow | Warn | Block

  /** How severe an action is: allow < warn < block. */
  function Severity(a: Action): nat {
    match a
    case Allow => 0
    case Warn => 1
    case Block => 2
  }

  /** `policy.age_rules[age]`; carried by the configuration, never read by `decide`. */
  datatype AgeRule = AgeRule(prohibit: seq<string>, caution: seq<string>)

  /** `policy.thresholds`: read by the orchestrator (abuse, crisis); the EWMA threshold is never read. */
  datatype Thresholds = Thresholds(abuse: Dict<real>, crisis: real, ewmaThreshold: real)

  /** `policy.actions`; `block_labels` is never read. */
  datatype Actions = Actions(allowMaxRisk: real, warnMaxRisk: real, redactLabels: seq<string>, blockLabels: seq<string>)

  /** `policy.routing`; a missing flag reads as false. */
  datatype Routing = Routing(routeToHumanIfCrisis: bool, routeIfBlocked: bool)

  /** The policy configuration; missing `fairness.identity_terms` is the empty list. */
  datatype PolicyConfig = PolicyConfig(
    thresholds: Thresholds,
    actions: Actions,
    routing: Routing,
    ageRules: Dict<AgeRule>,
    identityTerms: seq<string>)

  /** The escalation dict passed to `decide`: `{"ewma": ..., "slope": ...}`. */
  datatype EscalationSignal = EscalationSignal(ewma: real, slope: real)

  /** The arguments of one `decide` call; `crisisLabels` is `None` when not passed. */
  datatype Signals = Signals(
    age: string,
    abuse: Dict<real>,
    crisis: real,
    escalation: EscalationSignal,
    contentFlags: Dict<bool>,
    crisisLabels: Option<seq<string>>)

  datatype Decision = Decision(
    action: Action,
    routeToHuman: bool,
    maxRisk: real,
    rationale: seq<string>,
    redact: seq<string>)

  const HighRisk: string := "High risk"
  const ModerateRisk: string := "Moderate risk"

  /** Python's `max` over a non-empty list. */
  function MaxOf(xs: seq<real>): (m: real)
    requires |xs| > 0
    ensures m in xs
    ensures forall i :: 0 <= i < |xs| ==> xs[i] <= m
  {
    if |xs| == 1 then xs[0]
    else
      var m := MaxOf(xs[..|xs| - 1]);
      if xs[|xs| - 1] > m then xs[|xs| - 1] else m
  }

  /**
   * `compute_max_risk`: the largest of the crisis score and the abuse scores;
   * the crisis score itself when there are no abuse scores.
   */
  function ComputeMaxRisk(abuse: Dict<real>, crisis: real): (r: real)
    ensures r >= crisis
    ensures forall i :: 0 <= i < |abuse| ==> abuse[i].1 <= r
    ensures r == crisis || r in Values(abuse)
    ensures abuse == [] ==> r == crisis
  {
    var xs := [crisis] + Values(abuse);
    var m := MaxOf(xs);
    assert xs[0] == crisis && xs[1..] == Values(abuse);
    assert forall i :: 0 <= i < |abuse| ==> xs[i + 1] == abuse[i].1;
    m
  }

  /** `crisis_labels or []` */
  function CrisisLabelsOf(s: Signals): seq<string> {
    s.crisisLabels.GetOr([])
  }

  /** The tier rule: block from `warn_max_risk` up, warn from `allow_max_risk` up, both bounds inclusive. */
  function TierOf(maxRisk: real, a: Actions): (act: Action)
    ensures act == Block <==> maxRisk >= a.warnMaxRisk
    ensures act == Warn <==> a.allowMaxRisk <= maxRisk < a.warnMaxRisk
    ensures act == Allow <==> maxRisk < a.warnMaxRisk && maxRisk < a.allowMaxRisk
  {
    if maxRisk >= a.warnMaxRisk then Block
    else if maxRisk >= a.allowMaxRisk then Warn
    else Allow
  }

  /** The rationale entry of a tier: "High risk", "Moderate risk" or nothing for allow. */
  function TierRationale(act: Action): seq<string> {
    match act
    case Block => [HighRisk]
    case Warn => [ModerateRisk]
    case Allow => []
  }

  /** `repr` of one string, as an f-string prints it inside a list (quotes inside are not escaped here). */
  function QuoteRepr(t: string): string {
    "'" + t + "'"
  }

  /** `str` of a list of strings: `['a', 'b']`. */
  function ListRepr(ts: seq<string>): string {
    "[" + JoinReprs(ts) + "]"
  }

  function JoinReprs(ts: seq<string>): string {
    if ts == [] then ""
    else if |ts| == 1 then QuoteRepr(ts[0])
    else QuoteRepr(ts[0]) + ", " + JoinReprs(ts[1..])
  }

  /** The informational rationale entry naming the configured identity terms. */
  function FairnessNote(terms: seq<string>): string {
    "Fairness guardrails active on: " + ListRepr(terms)
  }

  /** A label is redacted when it is an abuse-score key, a crisis label, or a true content flag. */
  predicate Redactable(name: string, abuse: Dict<real>, crisisLabels: seq<string>, flags: Dict<bool>) {
    HasKey(abuse, name) || name in crisisLabels || Get(flags, name, false)
  }

  /**
   * The redaction list: the configured labels that are redactable, in
   * configured order, each kept as often as it is configured (no de-duplication).
   */
  function Redactions(labels: seq<string>, abuse: Dict<real>, crisisLabels: seq<string>, flags: Dict<bool>): seq<string> {
    if labels == [] then []
    else
      var rest := Redactions(labels[..|labels| - 1], abuse, crisisLabels, flags);
      if Redactable(labels[|labels| - 1], abuse, crisisLabels, flags) then rest + [labels[|labels| - 1]] else rest
  }

  /**
   * A label is redacted exactly when it is configured and redactable, the
   * redactions keep the configured order, and a label configured twice is
   * redacted twice.
   */
  lemma {:induction false} RedactionsSpec(labels: seq<string>, abuse: Dict<real>, crisisLabels: seq<string>, flags: Dict<bool>)
    ensures forall l :: l in Redactions(labels, abuse, crisisLabels, flags) <==> l in labels && Redactable(l, abuse, crisisLabels, flags)
    ensures IsSubseq(Redactions(labels, abuse, crisisLabels, flags), labels)
    ensures forall l ::
      multiset(Redactions(labels, abuse, crisisLabels, flags))[l]
      == if Redactable(l, abuse, crisisLabels, flags) then multiset(labels)[l] else 0
  {
    if labels != [] {
      var init := labels[..|labels| - 1];
      var l := labels[|labels| - 1];
      var rest := Redactions(init, abuse, crisisLabels, flags);
      RedactionsSpec(init, abuse, crisisLabels, flags);
      assert labels == init + [l];
      if Redactable(l, abuse, crisisLabels, flags) {
        assert (rest + [l])[..|rest|] == rest;
      }
    }
  }

  /** Routing: the crisis rule and the block rule are independent of each other. */
  function RouteToHuman(routing: Routing, crisisLabels: seq<string>, act: Action): bool {
    (routing.routeToHumanIfCrisis && "crisis" in crisisLabels)
    || (routing.routeIfBlocked && act == Block)
  }

  /** `max([crisis, *abuse.values(), escalation["ewma"]])` */
  function FusedRisk(abuse: Dict<real>, crisis: real, ewma: real): (r: real)
    ensures r >= crisis && r >= ewma
    ensures forall i :: 0 <= i < |abuse| ==> abuse[i].1 <= r
    ensures r == crisis || r == ewma || r in Values(abuse)
  {
    var vs := Values(abuse);
    var xs := [crisis] + vs + [ewma];
    var m := MaxOf(xs);
    Bracketed(crisis, vs, ewma, m);
    m
  }

  /** A bound of `[c] + vs + [e]` bounds `c`, `e` and every `vs[i]`; a member of it is one of them. */
  lemma Bracketed(c: real, vs: seq<real>, e: real, m: real)
    requires m in [c] + vs + [e]
    requires forall i :: 0 <= i < |[c] + vs + [e]| ==> ([c] + vs + [e])[i] <= m
    ensures m >= c && m >= e && forall i :: 0 <= i < |vs| ==> vs[i] <= m
    ensures m == c || m == e || m in vs
  {
    var xs := [c] + vs + [e];
    assert xs[0] == c && xs[|xs| - 1] == e;
    forall i | 0 <= i < |vs|
      ensures vs[i] <= m
    {
      assert xs[i + 1] == vs[i];
    }
  }

  /** The decision `decide` returns for the given configuration and signals. */
  function DecisionFor(cfg: PolicyConfig, s: Signals): Decision {
    var maxRisk := FusedRisk(s.abuse, s.crisis, s.escalation.ewma);
    var act := TierOf(maxRisk, cfg.actions);
    var crisisLabels := CrisisLabelsOf(s);
    Decision(
      act,
      RouteToHuman(cfg.routing, crisisLabels, act),
      maxRisk,
      TierRationale(act) + (if cfg.identityTerms != [] then [FairnessNote(cfg.identityTerms)] else []),
      Redactions(cfg.actions.redactLabels, s.abuse, crisisLabels, s.contentFlags))
  }

  /** The redaction loop of `decide`: visits the configured labels in order and keeps the redactable ones. */
  method RedactLabels(labels: seq<string>, abuse: Dict<real>, crisisLabels: seq<string>, flags: Dict<bool>)
    returns (redact: seq<string>)
    ensures redact == Redactions(labels, abuse, crisisLabels, flags)
  {
    redact := [];
    for i := 0 to |labels|
      invariant redact == Redactions(labels[..i], abuse, crisisLabels, flags)
    {
      var name := labels[i];
      assert labels[..i + 1][..i] == labels[..i];
      if HasKey(abuse, name) || name in crisisLabels || Get(flags, name, false) {
        redact := redact + [name];
      }
    }
    assert labels[..|labels|] == labels;
  }

  /**
   * `PolicyEngine.decide`: reads the configuration and the signals and
   * changes neither; its result is a function of them alone.
   */
  method Decide(cfg: PolicyConfig, s: Signals) returns (d: Decision)
    ensures d == DecisionFor(cfg, s)
  {
    var crisisLabels := if s.crisisLabels.Some? then s.crisisLabels.value else [];
    var maxRisk := FusedRisk(s.abuse, s.crisis, s.escalation.ewma);
    var action := Allow;
    var rationale: seq<string> := [];
    var route := false;

    if maxRisk >= cfg.actions.warnMaxRisk {
      action := Block;
      rationale := rationale + [HighRisk];
    } else if maxRisk >= cfg.actions.allowMaxRisk {
      action := Warn;
      rationale := rationale + [ModerateRisk];
    }

    if cfg.identityTerms != [] {
      rationale := rationale + [FairnessNote(cfg.identityTerms)];
    }

    var redact := RedactLabels(cfg.actions.redactLabels, s.abuse, crisisLabels, s.contentFlags);

    if cfg.routing.routeToHumanIfCrisis && "crisis" in crisisLabels {
      route := true;
    } else if cfg.routing.routeIfBlocked && action == Block {
      route := true;
    }

    assert action == TierOf(maxRisk, cfg.actions);
    assert rationale == TierRationale(action) + (if cfg.identityTerms != [] then [FairnessNote(cfg.identityTerms)] else []);
    assert crisisLabels == CrisisLabelsOf(s);
    assert route == RouteToHuman(cfg.routing, crisisLabels, action);
    d := Decision(action, route, maxRisk, rationale, redact);
  }

  /** A higher risk never yields a milder action. */
  lemma TierMonotone(m1: real, m2: real, a: Actions)
    requires m1 <= m2
    ensures Severity(TierOf(m1, a)) <= Severity(TierOf(m2, a))
  {
  }

  /** The decision's risk is the turn's own risk (`compute_max_risk`) or the EWMA, whichever is larger. */
  lemma {:induction false} MaxRiskOfTurnAndTrend(cfg: PolicyConfig, s: Signals)
    ensures DecisionFor(cfg, s).maxRisk
      == if s.escalation.ewma > ComputeMaxRisk(s.abuse, s.crisis) then s.escalation.ewma else ComputeMaxRisk(s.abuse, s.crisis)
  {
    var xs := [s.crisis] + Values(s.abuse);
    assert ([s.crisis] + Values(s.abuse) + [s.escalation.ewma])[..|xs|] == xs;
  }

  /** Leaving out `crisis_labels` and passing an empty list give the same decision. */
  lemma MissingCrisisLabelsAreEmpty(cfg: PolicyConfig, s: Signals)
    ensures DecisionFor(cfg, s.(crisisLabels := None)) == DecisionFor(cfg, s.(crisisLabels := Some([])))
  {
  }

  /**
   * The fairness terms only annotate: changing them changes neither the
   * action, the risk, the routing nor the redactions, and the tier entry
   * stays first.
   */
  lemma FairnessIsAnnotationOnly(cfg: PolicyConfig, s: Signals, terms: seq<string>)
    ensures var d, e := DecisionFor(cfg, s), DecisionFor(cfg.(identityTerms := terms), s);
      d.action == e.action && d.maxRisk == e.maxRisk && d.routeToHuman == e.routeToHuman
      && d.redact == e.redact
      && d.rationale[..|TierRationale(d.action)|] == e.rationale[..|TierRationale(e.action)|]
  {
  }

  /**
   * The rationale holds the tier entry first ("High risk" for block,
   * "Moderate risk" for warn, none for allow), then the fairness note
   * exactly when identity terms are configured, and nothing else.
   */
  lemma RationaleOrder(cfg: PolicyConfig, s: Signals)
    ensures var d := DecisionFor(cfg, s);
      && |d.rationale| == (if d.action == Allow then 0 else 1) + (if cfg.identityTerms != [] then 1 else 0)
      && (d.action == Block ==> d.rationale[0] == HighRisk)
      && (d.action == Warn ==> d.rationale[0] == ModerateRisk)
      && (cfg.identityTerms != [] ==> d.rationale[|d.rationale| - 1] == FairnessNote(cfg.identityTerms))
  {
  }

  /** A crisis label routes to a human whenever the crisis rule is on, whatever the tier. */
  lemma CrisisRoutesRegardlessOfTier(cfg: PolicyConfig, s: Signals)
    requires cfg.routing.routeToHumanIfCrisis && "crisis" in CrisisLabelsOf(s)
    ensures DecisionFor(cfg, s).routeToHuman
  {
  }

  /** The configuration of the repository's policy tests. */
  function TestConfig(): PolicyConfig {
    PolicyConfig(
      Thresholds([("toxic", 0.5), ("threat", 0.5)], 0.5, 0.5),
      Actions(0.4, 0.7, ["sexual"], ["threat", "crisis"]),
      Routing(true, true),
      [("13+", AgeRule(["sexual"], ["violence"]))],
      ["muslim", "dalit"])
  }

  /** Low scores everywhere: allowed and not routed. */
  lemma LowRiskIsAllowed()
    ensures var d := DecisionFor(TestConfig(), Signals("13+", [("toxic", 0.3), ("threat", 0.2)], 0.1,
        EscalationSignal(0.2, 0.01), [("sexual", false), ("violence", false)], None));
      d.action == Allow && !d.routeToHuman && d.maxRisk == 0.3
  {
    var abuse: Dict<real> := [("toxic", 0.3), ("threat", 0.2)];
    assert Values(abuse) == [0.3, 0.2];
    var xs := [0.1] + Values(abuse) + [0.2];
    assert xs == [0.1, 0.3, 0.2, 0.2];
    assert [0.1, 0.3][..1] == [0.1];
    assert MaxOf([0.1, 0.3]) == 0.3;
    assert [0.1, 0.3, 0.2][..2] == [0.1, 0.3];
    assert MaxOf([0.1, 0.3, 0.2]) == 0.3;
    assert [0.1, 0.3, 0.2, 0.2][..3] == [0.1, 0.3, 0.2];
    assert MaxOf(xs) == 0.3;
  }

  /** A crisis score of 0.8 blocks, routes to a human and records "High risk" first. */
  lemma HighCrisisIsBlocked()
    ensures var d := DecisionFor(TestConfig(), Signals("13+", [("toxic", 0.6), ("threat", 0.3)], 0.8,
        EscalationSignal(0.6, 0.05), [("sexual", false), ("violence", false)], None));
      d.action == Block && d.routeToHuman && d.rationale[0] == HighRisk
  {
  }

  /** A low-risk turn carrying the crisis label is allowed and still routed to a human. */
  lemma RoutedWhileAllowed()
    ensures var d := DecisionFor(TestConfig(), Signals("13+", [], 0.1,
        EscalationSignal(0.2, 0.0), [], Some(["crisis"])));
      d.action == Allow && d.routeToHuman && d.redact == []
  {
    assert [0.1, 0.2][..1] == [0.1];
    assert MaxOf([0.1, 0.2]) == 0.2;
    assert [0.1] + Values([]) + [0.2] == [0.1, 0.2];
  }

  /** A risk exactly at a tier boundary takes the higher tier. */
  lemma BoundariesAreInclusive(a: Actions)
    requires a.allowMaxRisk < a.warnMaxRisk
    ensures TierOf(a.allowMaxRisk, a) == Warn
    ensures TierOf(a.warnMaxRisk, a) == Block
  {
  }
}
