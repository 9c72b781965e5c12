/**
 * The inference orchestrator: it owns the two learned detectors, the content
 * filter, the escalation tracker and the policy configuration, loads or fits
 * the detectors on first use, and runs one turn of text through
 * preprocessing, the detectors, the tracker and the policy rule.
 */
module Orchestrator {
  import opened Wrappers
  import opened Dicts
  import Escalation
  import Policy
  import AbuseDetection
  import CrisisDetection
  import ContentFiltering

  /** The four texts of the fallback fit, with their abuse labels, crisis labels and age classes. */
  const FixtureTexts: seq<string> := ["hello friend", "i will hurt you", "need help i want to die", "let's watch a movie"]
  const FixtureAbuseLabels: seq<seq<string>> := [["toxic"], ["threat"], ["toxic"], []]
  const FixtureCrisisLabels: seq<int> := [0, 0, 1, 0]
  const FixtureAgeLabels: seq<string> := ["7+", "16+", "13+", "7+"]

  /**
   * The learning algorithms behind `fit` (TF-IDF features and a logistic
   * regression in the repository): each turns texts and their labels into a scorer.
   */
  datatype Learners = Learners(
    abuse: (seq<string>, seq<seq<string>>) -> (string -> seq<real>),
    crisis: (seq<string>, seq<int>) -> (string -> real),
    age: (seq<string>, seq<string>) -> (string -> string))

  /**
   * The preprocessing settings and collaborators: whether language detection
   * is on (unset reads as on), the language detector, and PII masking
   * followed by normalisation as one text-to-text function.
   */
  datatype Preprocessing = Preprocessing(
    languageDetection: Option<bool>,
    detectLanguage: string -> (string, real),
    clean: string -> string)

  /** `preprocess`'s result: `{"text", "lang", "lang_conf"}`. */
  datatype Preprocessed = Preprocessed(text: string, lang: string, langConf: real)

  /** The bundle's "input" entry: `{"raw", "preprocessed", "lang"}`. */
  datatype InputInfo = InputInfo(raw: string, preprocessed: string, lang: string)

  /** What `infer` returns for one turn. */
  datatype Bundle = Bundle(
    input: InputInfo,
    abuse: AbuseDetection.AbuseResult,
    crisis: CrisisDetection.CrisisResult,
    escalation: Escalation.Metrics,
    content: ContentFiltering.ContentResult,
    decision: Policy.Decision)

  /**
   * What `joblib.load` gives for the two saved detectors: the detector, or
   * `None` when loading that file raises.
   */
  datatype DiskModels = DiskModels(abuse: Option<AbuseDetection.AbuseDetector>, crisis: Option<CrisisDetection.CrisisDetector>)

  /** The scalar a turn feeds to the tracker: the largest of the crisis score and the abuse scores. */
  function TurnRisk(b: Bundle): real {
    Policy.ComputeMaxRisk(b.abuse.scores, b.crisis.score)
  }

  /** The signals `infer` hands to the policy rule, built from the bundle's parts. */
  function SignalsOf(age: string, b: Bundle): Policy.Signals {
    Policy.Signals(
      age,
      b.abuse.scores,
      b.crisis.score,
      Policy.EscalationSignal(b.escalation.ewma, b.escalation.slope),
      b.content.ruleFlags,
      Some(b.crisis.labels))
  }

  /**
   * The decision's risk covers the turn: it is the larger of the turn's own
   * risk and the EWMA, so it is at least each abuse score and the crisis score.
   */
  lemma {:induction false} DecisionCoversTurn(policy: Policy.PolicyConfig, age: string, b: Bundle)
    ensures var d := Policy.DecisionFor(policy, SignalsOf(age, b));
      && d.maxRisk == (if b.escalation.ewma > TurnRisk(b) then b.escalation.ewma else TurnRisk(b))
      && d.maxRisk >= b.crisis.score
      && (forall i :: 0 <= i < |b.abuse.scores| ==> b.abuse.scores[i].1 <= d.maxRisk)
  {
    Policy.MaxRiskOfTurnAndTrend(policy, SignalsOf(age, b));
  }

  /**
   * A turn whose own risk reaches the block bound is blocked, whatever the
   * trend, and is routed to a human when the block rule is on.
   */
  lemma TurnRiskAtBlockBoundBlocks(policy: Policy.PolicyConfig, age: string, b: Bundle)
    requires TurnRisk(b) >= policy.actions.warnMaxRisk
    ensures Policy.DecisionFor(policy, SignalsOf(age, b)).action == Policy.Block
    ensures policy.routing.routeIfBlocked ==> Policy.DecisionFor(policy, SignalsOf(age, b)).routeToHuman
  {
    DecisionCoversTurn(policy, age, b);
  }

  class InferenceOrchestrator {
    /** `configs["policy"]`, read by both `infer` and the policy engine. */
    const policy: Policy.PolicyConfig
    const preprocessing: Preprocessing
    /** `models.abuse.labels`, given to every abuse detector the fallback fit builds. */
    const abuseLabels: Option<seq<string>>
    const learners: Learners
    var abuse: AbuseDetection.AbuseDetector?
    var crisis: CrisisDetection.CrisisDetector?
    const escalation: Escalation.EscalationTracker
    const contentFilter: ContentFiltering.ContentFilter
    /** `_trained`: the detectors have been loaded or fitted. */
    var trained: bool

    ghost predicate Valid()
      reads this, escalation
    {
      && escalation.Valid()
      && (trained ==> abuse != null && crisis != null)
    }

    /** The detectors and the content filter hold what the fallback fit gives them. */
    ghost predicate FittedOnFixture()
      reads this, abuse, crisis, contentFilter
    {
      && abuse != null && crisis != null
      && abuse.labels == abuseLabels.GetOr(AbuseDetection.DefaultLabels)
      && abuse.pipeline == Some(learners.abuse(FixtureTexts, FixtureAbuseLabels))
      && crisis.pipeline == Some(learners.crisis(FixtureTexts, FixtureCrisisLabels))
      && contentFilter.pipeline == Some(learners.age(FixtureTexts, FixtureAgeLabels))
    }

    /** A new orchestrator: no detectors yet, a fresh tracker and an unfitted content filter. */
    constructor (
      policy: Policy.PolicyConfig,
      preprocessing: Preprocessing,
      abuseLabels: Option<seq<string>>,
      tracker: Escalation.TrackerConfig,
      contentRules: Option<Dict<seq<string>>>,
      learners: Learners)
      ensures Valid() && !trained && abuse == null && crisis == null
      ensures this.policy == policy && this.preprocessing == preprocessing
      ensures this.abuseLabels == abuseLabels && this.learners == learners
      ensures fresh(escalation) && escalation.Inputs == []
      ensures escalation.alpha == tracker.ewmaAlpha.GetOr(Escalation.DefaultAlpha)
      ensures escalation.window == tracker.slopeWindow.GetOr(Escalation.DefaultWindow)
      ensures escalation.riskFloor == tracker.riskFloor.GetOr(Escalation.DefaultFloor)
      ensures fresh(contentFilter) && contentFilter.rules == contentRules.GetOr([]) && contentFilter.pipeline == None
    {
      this.policy := policy;
      this.preprocessing := preprocessing;
      this.abuseLabels := abuseLabels;
      this.learners := learners;
      abuse := null;
      crisis := null;
      escalation := new Escalation.EscalationTracker(tracker);
      contentFilter := new ContentFiltering.ContentFilter(contentRules);
      trained := false;
    }

    /**
     * `load_or_fit_minimal`: when not yet trained, builds and fits fresh
     * detectors and fits the content filter on the fixture; otherwise changes nothing.
     */
    method LoadOrFitMinimal()
      requires Valid()
      modifies this, contentFilter
      ensures Valid() && trained
      ensures old(trained) ==> abuse == old(abuse) && crisis == old(crisis) && unchanged(contentFilter)
      ensures !old(trained) ==> fresh(abuse) && fresh(crisis) && FittedOnFixture()
    {
      if trained {
        return;
      }
      var a := new AbuseDetection.AbuseDetector(abuseLabels);
      a.Fit(FixtureTexts, FixtureAbuseLabels, learners.abuse);
      var c := new CrisisDetection.CrisisDetector();
      c.Fit(FixtureTexts, FixtureCrisisLabels, learners.crisis);
      abuse := a;
      crisis := c;
      contentFilter.Fit(FixtureTexts, FixtureAgeLabels, learners.age);
      trained := true;
    }

    /**
     * `load_models_from_disk`: takes both saved detectors when both load;
     * when either fails, falls back to `load_or_fit_minimal`. A saved abuse
     * detector that loaded before the crisis one failed stays in place when
     * the orchestrator was already trained, since the fallback then does nothing.
     */
    method LoadModelsFromDisk(disk: DiskModels)
      requires Valid()
      modifies this, contentFilter
      ensures Valid() && trained
      ensures disk.abuse.Some? && disk.crisis.Some? ==>
        abuse == disk.abuse.value && crisis == disk.crisis.value && unchanged(contentFilter)
      ensures !(disk.abuse.Some? && disk.crisis.Some?) && old(trained) ==>
        && abuse == (if disk.abuse.Some? then disk.abuse.value else old(abuse))
        && crisis == old(crisis)
        && unchanged(contentFilter)
      ensures !(disk.abuse.Some? && disk.crisis.Some?) && !old(trained) ==>
        fresh(abuse) && fresh(crisis) && FittedOnFixture()
    {
      if disk.abuse.Some? {
        abuse := disk.abuse.value;
        if disk.crisis.Some? {
          crisis := disk.crisis.value;
          trained := true;
          return;
        }
      }
      LoadOrFitMinimal();
    }

    /** `preprocess`: the cleaned text and its language, "en" with confidence 1.0 when detection is off. */
    function Preprocess(text: string): Preprocessed {
      var (lang, conf) := if preprocessing.languageDetection.GetOr(true) then preprocessing.detectLanguage(text) else ("en", 1.0);
      Preprocessed(preprocessing.clean(text), lang, conf)
    }

    /** With language detection switched off, every text is reported as English with full confidence. */
    lemma DetectionOffReportsEnglish(text: string)
      requires preprocessing.languageDetection == Some(false)
      ensures Preprocess(text).lang == "en" && Preprocess(text).langConf == 1.0
      ensures Preprocess(text).text == preprocessing.clean(text)
    {
    }

    /**
     * The bundle is what the current detectors, filter and tracker give for
     * the preprocessed text: each scorer's row for it, the tracker's new
     * metrics, and the policy's decision on exactly those outputs.
     */
    ghost predicate Answers(text: string, age: string, b: Bundle)
      reads this, abuse, crisis, contentFilter, escalation
    {
      var pre := Preprocess(text);
      && abuse != null && crisis != null
      && abuse.pipeline.Some? && crisis.pipeline.Some?
      && b.input == InputInfo(text, pre.text, pre.lang)
      && b.abuse == AbuseDetection.AbuseRow(abuse.labels, abuse.pipeline.value(pre.text), policy.thresholds.abuse)
      && b.crisis == CrisisDetection.CrisisRow(pre.text, crisis.pipeline.value(pre.text), policy.thresholds.crisis)
      && b.content == ContentFiltering.ContentResult(contentFilter.SuggestedAge(pre.text), contentFilter.RuleFlags(pre.text))
      && b.escalation == Escalation.Metrics(escalation.ewma, Escalation.Slope(escalation.history), escalation.history)
      && b.decision == Policy.DecisionFor(policy, SignalsOf(age, b))
    }

    /**
     * `infer`: loads the detectors first when not yet trained, then scores
     * the preprocessed text, feeds the turn's risk to the tracker exactly
     * once, and asks the policy for a decision on those outputs. A detector
     * that is not fitted stops the turn before the tracker sees it.
     */
    method Infer(text: string, age: string, disk: DiskModels) returns (r: Result<Bundle>)
      requires Valid()
      modifies this, escalation, contentFilter
      ensures Valid() && trained && abuse != null && crisis != null
      ensures old(trained) ==> abuse == old(abuse) && crisis == old(crisis)
      ensures !old(trained) && disk.abuse.Some? && disk.crisis.Some? ==>
        abuse == disk.abuse.value && crisis == disk.crisis.value
      ensures !old(trained) && !(disk.abuse.Some? && disk.crisis.Some?) ==>
        fresh(abuse) && fresh(crisis) && FittedOnFixture()
      ensures old(trained) || (disk.abuse.Some? && disk.crisis.Some?) ==> unchanged(contentFilter)
      ensures abuse.pipeline.None? ==> r == Failure(AbuseDetection.NotFitted)
      ensures abuse.pipeline.Some? && crisis.pipeline.None? ==> r == Failure(CrisisDetection.NotFitted)
      ensures r.Failure? ==> unchanged(escalation)
      ensures abuse.pipeline.Some? && crisis.pipeline.Some? ==>
        && r.Success?
        && Answers(text, age, r.value)
        && escalation.Inputs == old(escalation.Inputs) + [TurnRisk(r.value)]
    {
      if !trained {
        LoadModelsFromDisk(disk);
      }
      r := ScoreTurn(text, age);
    }

    /**
     * The part of `infer` after loading: scores the preprocessed text with
     * both detectors and the filter, updates the tracker once and decides.
     */
    method ScoreTurn(text: string, age: string) returns (r: Result<Bundle>)
      requires Valid() && trained
      modifies escalation
      ensures Valid()
      ensures abuse.pipeline.None? ==> r == Failure(AbuseDetection.NotFitted)
      ensures abuse.pipeline.Some? && crisis.pipeline.None? ==> r == Failure(CrisisDetection.NotFitted)
      ensures r.Failure? ==> unchanged(escalation)
      ensures abuse.pipeline.Some? && crisis.pipeline.Some? ==>
        && r.Success?
        && Answers(text, age, r.value)
        && escalation.Inputs == old(escalation.Inputs) + [TurnRisk(r.value)]
    {
      var pre := Preprocess(text);
      var texts := [pre.text];
      var abuseOut := abuse.Predict(texts, policy.thresholds.abuse);
      if abuseOut.Failure? {
        return Failure(abuseOut.error);
      }
      var crisisOut := crisis.Predict(texts, policy.thresholds.crisis);
      if crisisOut.Failure? {
        return Failure(crisisOut.error);
      }
      var contentOut := contentFilter.Predict(texts);
      var abuseRow := abuseOut.value[0];
      var crisisRow := crisisOut.value[0];
      var content := contentOut[0];
      var maxRisk := Policy.ComputeMaxRisk(abuseRow.scores, crisisRow.score);
      var esc := escalation.Update(maxRisk);
      var decision := Policy.Decide(policy, Policy.Signals(
        age,
        abuseRow.scores,
        crisisRow.score,
        Policy.EscalationSignal(esc.ewma, esc.slope),
        content.ruleFlags,
        Some(crisisRow.labels)));
      r := Success(Bundle(InputInfo(text, pre.text, pre.lang), abuseRow, crisisRow, esc, content, decision));
    }
  }
}
