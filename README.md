# AI safety monitoring: the moderation decision path in Dafny

This project models the core of a conversational safety monitor. Each turn
of text passes through the following steps:

- Three classifiers score it:
  - a multi-label abuse detector;
  - a binary crisis detector with fixed keyword flags;
  - an age-appropriateness filter with configurable keyword rules.
- A per-conversation escalation tracker keeps an EWMA and the least-squares
  slope of the recent, floor-clamped risk scores.
- A stateless policy rule fuses all of this into an allow / warn / block
  action. It also decides on routing to a human moderator and lists the
  labels to redact.
- An orchestrator loads the detectors from disk or fits them on a built-in
  fixture the first time it is used, then runs every turn through that
  chain.
- The configuration the system runs on is the left fold of a recursive
  dictionary merge over the configuration files.

Modules and files:

| file | module | what it holds |
|---|---|---|
| `wrappers.dfy` | `Wrappers` | `Option` and `Result` (`Failure` carries the error a Python `raise` would carry) |
| `dicts.dfy` | `Dicts` | Python's insertion-ordered `dict` with string keys: `Dict<V>` is an association list with distinct keys; `Put` is `d[k] = v` |
| `text.dfy` | `Text` | `str.lower()` on ASCII letters, `sub in s`, `any(...)` over keyword lists |
| `escalation_tracker.dfy` | `Escalation` | the tracker class, the EWMA and slope as functions of the input stream, and their properties |
| `policy_decision.dfy` | `Policy` | `compute_max_risk`, the decision as a function (`DecisionFor`), the `decide` method with its redaction loop, and the policy properties |
| `abuse_detector.dfy` | `AbuseDetection` | score pairing, per-label thresholds, ordered label lists, the detector class |
| `crisis_detector.dfy` | `CrisisDetection` | crisis and keyword flags, ordered label list, the detector class |
| `content_filter.dfy` | `ContentFiltering` | the keyword rule flags and the filter class |
| `config_loader.dfy` | `ConfigLoader` | the JSON-like `Value`, `deep_merge` as a function and as a method, `load_config` |
| `inference_pipeline.dfy` | `Orchestrator` | the orchestrator class: load/fit lifecycle and `infer` |

How the model is built:
- Objects whose fields the source reassigns are classes, with `modifies`
  clauses on their methods:
  - the tracker (`history`, `ewma`);
  - the detectors and the filter (`pipeline`);
  - the orchestrator (`abuse`, `crisis`, `_trained`).
- Each such method is proved against functions of the inputs or the old
  state:
  - `Update` against `EwmaOf`, `LastN`, `ClampAll` and `Slope` of the
    stream of scores the tracker has been fed;
  - `Decide` against `DecisionFor`;
  - `DeepMerge` against `Merge`;
  - `LoadConfig` against `Loaded`;
  - each `Predict` against the per-row function (`AbuseRow`, `CrisisRow`,
    `RuleFlags`).
- The learned scorers are function values. `fit` receives the learning
  algorithm as a parameter and stores the scorer it yields, so the
  probabilities reach the post-processing as given inputs.
- The "not fitted" exceptions are `Failure` results. A `joblib.load`
  that raises is `None` in `DiskModels`, which `LoadModelsFromDisk`
  reads as a load that failed.

## Model

| member | source | states |
|---|---|---|
| Escalation.Clamp | src/models/escalation_tracker.py:28 | the clamped score is at least both the score and the floor, and is one of the two |
| Escalation.ClampAll | src/models/escalation_tracker.py:28-30 | every score of a stream is clamped on its own, in arrival order |
| Escalation.EscalationTracker.constructor | src/models/escalation_tracker.py:11-16 | unset settings default to alpha 0.3, window 5 and floor 0.05; the window starts empty and the EWMA at 0.0 |
| Escalation.EscalationTracker.Update | src/models/escalation_tracker.py:18-36 | see the bullets after this table |
| Escalation.HistoryBounds | src/models/escalation_tracker.py:15-31 | after k updates the window holds min(k, window) values, each at least the floor; it equals the last min(k, window) inputs, each clamped, in arrival order |
| Escalation.LastNAppend | src/models/escalation_tracker.py:30 | the deque append: with room the value is added last; when full the oldest value is dropped (FIFO); a zero-length deque stays empty |
| Escalation.SquaredDeviationPositive | src/models/escalation_tracker.py:51-54 | with two or more values the slope's denominator is positive, so the `or 1.0` fallback never applies |
| Escalation.Slope | src/models/escalation_tracker.py:38-55 | the least-squares slope of the window against the turn index, 0.0 for fewer than two values; its properties are the contracts of `SlopeOfLine`, `SlopeOfConstant` and `SquaredDeviationPositive` |
| Escalation.SlopeOfLine | src/models/escalation_tracker.py:48-55 | values growing by exactly b per turn have slope b |
| Escalation.SlopeOfConstant | src/models/escalation_tracker.py:48-55 | a window of equal values has slope 0, so does any window shorter than two |
| Escalation.EwmaInUnitInterval | src/models/escalation_tracker.py:16-29 | with 0 <= alpha <= 1, a floor in [0, 1] and scores at most 1, the EWMA stays in [0, 1] |
| Escalation.EwmaStartsBelowFloor | src/models/escalation_tracker.py:16-29 | after a first turn at or below the floor, the EWMA is alpha times the floor, strictly below the floor when alpha < 1 |
| Escalation.EwmaRisesTowardConstant | src/models/escalation_tracker.py:29 | fed a constant score c at or above the floor, the EWMA rises monotonically and never passes c |
| Escalation.RisingScenario | src/models/escalation_tracker.py:28-55 | inputs 0.1 to 0.5 (alpha 0.3, floor 0.05, window 5) give EWMAs 0.03, 0.081, 0.1467, 0.22269, 0.305883 and a final slope of 0.1 |
| Policy.ComputeMaxRisk | src/policy_engine/policy_decision.py:4-5 | see the bullets after this table |
| Policy.FusedRisk | src/policy_engine/policy_decision.py:27 | the decision risk is at least the crisis score, the EWMA and every abuse score, and is one of them |
| Policy.TierOf | src/policy_engine/policy_decision.py:33-38 | block iff risk >= warn bound; warn iff allow bound <= risk < warn bound; allow iff below both |
| Policy.RedactionsSpec | src/policy_engine/policy_decision.py:45-48 | see the bullets after this table |
| Policy.RedactLabels | src/policy_engine/policy_decision.py:45-48 | the redaction loop computes exactly `Redactions` of the configured labels |
| Policy.DecisionFor | src/policy_engine/policy_decision.py:16-62 | the decision as a function of configuration and signals: `FusedRisk`, `TierOf`, the routing rule, the rationale and `Redactions`; its properties are the contracts of the `Policy` lemmas below |
| Policy.Decide | src/policy_engine/policy_decision.py:16-62 | `decide` returns `DecisionFor(cfg, signals)`, a function of the configuration and the signals alone, which it does not change |
| Policy.TierMonotone | src/policy_engine/policy_decision.py:33-38 | a higher risk never gives a milder action |
| Policy.BoundariesAreInclusive | src/policy_engine/policy_decision.py:33-38 | a risk exactly at the allow bound warns and one exactly at the warn bound blocks |
| Policy.MaxRiskOfTurnAndTrend | src/policy_engine/policy_decision.py:27 | the decision risk is the larger of `compute_max_risk` of the turn and the EWMA |
| Policy.MissingCrisisLabelsAreEmpty | src/policy_engine/policy_decision.py:23-25 | omitting `crisis_labels` gives the same decision as passing an empty list |
| Policy.RationaleOrder | src/policy_engine/policy_decision.py:28-42 | the rationale is the tier entry ("High risk" for block, "Moderate risk" for warn, none for allow) followed by the fairness note exactly when identity terms are configured |
| Policy.FairnessIsAnnotationOnly | src/policy_engine/policy_decision.py:40-42 | the identity terms change neither action, risk, routing, redactions nor the leading tier entry |
| Policy.CrisisRoutesRegardlessOfTier | src/policy_engine/policy_decision.py:50-54 | with the crisis rule on, a "crisis" label routes to a human whatever the tier |
| Policy.RoutedWhileAllowed | src/policy_engine/policy_decision.py:50-54 | a low-risk turn with the "crisis" label is allowed and still routed |
| Policy.LowRiskIsAllowed | tests/test_policy_engine.py:3-38 | the low-risk test scenario is allowed, not routed, with risk 0.3 |
| Policy.HighCrisisIsBlocked | tests/test_policy_engine.py:40-76 | the crisis-0.8 test scenario is blocked and routed, with "High risk" as first rationale |
| AbuseDetection.Zip | src/models/abuse_detector.py:45 | pairs labels with columns by position, stopping at the shorter list |
| AbuseDetection.LabelFlags | src/models/abuse_detector.py:46 | one flag per scored label, in score order, true iff the score reaches the label's threshold (0.5 when unset) |
| AbuseDetection.DictOfKeys | src/models/abuse_detector.py:45 | the score dict built from the pairs has exactly the pairs' labels as keys |
| AbuseDetection.DictOfDistinct | src/models/abuse_detector.py:45 | with distinct labels the score dict is the list of pairs itself |
| AbuseDetection.DictOfKeyOrder | src/models/abuse_detector.py:45 | the score dict's keys are exactly the labels' first occurrences, in the labels' order (`FirstOccurrences`): a repeated label stays where it first occurred; hence they are a subsequence of the labels |
| AbuseDetection.DictOfEntries | src/models/abuse_detector.py:45 | every entry of the score dict is one of the (label, score) pairs |
| AbuseDetection.ScoresPairByPosition | src/models/abuse_detector.py:45 | a label is scored iff it is among the first min(labels, columns); with distinct labels the scores are exactly the positional pairs |
| AbuseDetection.FlaggedIffAtThreshold | src/models/abuse_detector.py:46-49 | a label is reported iff it is scored and its score reaches its threshold |
| AbuseDetection.LabelsInConfiguredOrder | src/models/abuse_detector.py:45-49 | the reported labels are a subsequence of the configured labels, repeated labels included |
| AbuseDetection.NothingBelowThresholdIsFlagged | src/models/abuse_detector.py:45-49 | a row with every paired score below its label's threshold reports no label, repeated labels included |
| AbuseDetection.AbuseRow | src/models/abuse_detector.py:45-50 | one result of `predict`: the score dict of the row and the labels whose flag is set; its properties are the contracts of `FlaggedIffAtThreshold`, `LabelsInConfiguredOrder` and `NothingBelowThresholdIsFlagged` |
| AbuseDetection.AbuseDetector.constructor | src/models/abuse_detector.py:19-23 | labels default to toxic, threat, insult, hate, sexual; no scorer yet |
| AbuseDetection.AbuseDetector.Fit | src/models/abuse_detector.py:26-34 | the scorer is what the learner yields for the texts and label lists |
| AbuseDetection.AbuseDetector.PredictProba | src/models/abuse_detector.py:36-39 | unfitted: the "AbuseDetector not fitted" error; fitted: one row per text, the scorer's row for that text |
| AbuseDetection.AbuseDetector.Predict | src/models/abuse_detector.py:41-51 | unfitted: the same error; fitted: one result per text, that text's thresholded row (`AbuseRow`) |
| CrisisDetection.FlagsMeaning | src/models/crisis_detector.py:40-46 | the flags are crisis, self_harm, suicide, harm in that order; crisis iff score >= threshold, each keyword flag iff one of its phrases occurs in the lower-cased text |
| CrisisDetection.CrisisLabelIffAtThreshold | src/models/crisis_detector.py:41-51 | "crisis" label iff score >= threshold, else "non-crisis"; "crisis" is in the label list iff so, and then first; the score is unchanged |
| CrisisDetection.LabelsAreSetFlagsInOrder | src/models/crisis_detector.py:41-51 | the label list is exactly the set flags, in the order crisis, self_harm, suicide, harm |
| CrisisDetection.CrisisRow | src/models/crisis_detector.py:40-52 | one result of `predict`: score, verdict, the four flags and the set ones; its properties are the contracts of `FlagsMeaning`, `CrisisLabelIffAtThreshold` and `LabelsAreSetFlagsInOrder` |
| CrisisDetection.KillMyselfSetsSuicide | src/models/crisis_detector.py:40-44 | any text containing "kill myself", in any letter case around it, is labelled "suicide" whatever its score |
| CrisisDetection.CrisisDetector.constructor | src/models/crisis_detector.py:17-20 | no scorer yet |
| CrisisDetection.CrisisDetector.Fit | src/models/crisis_detector.py:22-29 | the scorer is what the learner yields for the texts and 0/1 labels |
| CrisisDetection.CrisisDetector.PredictProba | src/models/crisis_detector.py:31-34 | unfitted: the "CrisisDetector not fitted" error; fitted: the crisis probability of each text |
| CrisisDetection.CrisisDetector.Predict | src/models/crisis_detector.py:36-53 | unfitted: the same error; fitted: one result per text, built from that text and its probability (`CrisisRow`); the threshold is 0.5 when the caller gives none |
| ContentFiltering.ContentFilter.constructor | src/models/content_filter.py:17-22 | rules default to none; no classifier yet |
| ContentFiltering.ContentFilter.RuleFlags | src/models/content_filter.py:24-38 | the three keyword flags of a text; their meaning is the contract of `RuleFlagsMeaning` |
| ContentFiltering.ContentFilter.RuleFlagsMeaning | src/models/content_filter.py:24-38 | the flags are exactly sexual, violence, substances; each is true iff a keyword of its list occurs in the text ignoring case; a missing list gives false |
| ContentFiltering.ContentFilter.Fit | src/models/content_filter.py:40-50 | the classifier is what the learner yields for the texts and age classes |
| ContentFiltering.ContentFilter.Predict | src/models/content_filter.py:52-70 | one result per text with that text's rule flags and suggested age; "13+" for every text while unfitted |
| Text.Lower | src/models/crisis_detector.py:40 | lower-casing keeps the length and maps each character on its own |
| Text.Contains | src/models/crisis_detector.py:43 | `sub in s` holds iff `sub` occurs in `s` at some position |
| Text.ContainsAny | src/models/crisis_detector.py:43-45 | true iff some keyword of the list occurs in the text |
| Text.ContainsAnyIgnoringCase | src/models/content_filter.py:31-32 | true iff some keyword, lower-cased, occurs in the lower-cased text |
| Text.EmptyKeywordAlwaysFound | src/models/content_filter.py:32 | an empty keyword in a rule list matches every text |
| Dicts.TrueKeys | src/models/crisis_detector.py:51 | `[k for k, f in d.items() if f]`: exactly the keys mapped to true, in dict order |
| Dicts.PutLookup | src/config_loader.py:33-35 | after `out[k] = v`, k maps to v and every other key keeps its value |
| Dicts.PutKeys | src/config_loader.py:33-35 | after `out[k] = v`, an existing key keeps its place and a new key goes last |
| ConfigLoader.MergeFromIsStore | src/config_loader.py:30-36 | the merge loop stores each entry of `b` in order, combined with what `out` held for its key |
| ConfigLoader.Merge | src/config_loader.py:28-36 | `deep_merge(a, b)`: the loop over `b` applied to a copy of `a`; its properties are the contracts of `MergeLookup`, `MergeKeys`, `MergeKeyOrder`, `MergeEmptyRight` and `MergeEmptyLeft` |
| ConfigLoader.StoreWithLookup | src/config_loader.py:30-36 | after the loop has visited a key of `b`, that key holds the combination of `a`'s and `b`'s values; other keys keep `a`'s value |
| ConfigLoader.StoreWithKeyOrder | src/config_loader.py:30-36 | the loop keeps `a`'s keys in place and appends the keys new in `b`, in `b`'s order |
| ConfigLoader.MergeLookup | src/config_loader.py:28-36 | see the bullets after this table |
| ConfigLoader.MergeKeys | src/config_loader.py:28-36 | the keys of `deep_merge(a, b)` are the keys of `a` together with those of `b` |
| ConfigLoader.MergeKeyOrder | src/config_loader.py:30-35 | `a`'s keys come first and unmoved, then the keys new in `b` in `b`'s order |
| ConfigLoader.MergeEmptyRight | src/config_loader.py:28-36 | `deep_merge(a, {}) == a` |
| ConfigLoader.MergeEmptyLeft | src/config_loader.py:28-36 | `deep_merge({}, b) == b` |
| ConfigLoader.DeepMerge | src/config_loader.py:28-36 | the loop with its recursive calls computes `Merge(a, b)`; neither argument changes |
| ConfigLoader.LoadConfig | src/config_loader.py:38-52 | computes `Loaded(files)`: `deep_merge` folded from `{}` over the loaded files in order, missing files skipped, unloadable ones read as `{}` |
| ConfigLoader.Loaded | src/config_loader.py:38-52 | the configuration `load_config` returns for the given file outcomes; its properties are the contracts of `SkippedFileChangesNothing`, `LoadedKeys` and `LastFileWins` |
| ConfigLoader.SkippedFileChangesNothing | src/config_loader.py:44-50 | a missing or unloadable file changes nothing, wherever it stands |
| ConfigLoader.LoadedKeys | src/config_loader.py:43-50 | a key is configured iff some loaded file has it |
| ConfigLoader.LastFileWins | src/config_loader.py:43-50 | a non-map value in the last file decides its key |
| Orchestrator.DecisionCoversTurn | src/orchestrator/inference_pipeline.py:104-114 | the decision risk is the larger of the turn's risk and the EWMA, so at least the crisis score and each abuse score |
| Orchestrator.TurnRiskAtBlockBoundBlocks | src/orchestrator/inference_pipeline.py:104-114 | a turn whose own risk reaches the block bound is blocked, and routed when the block rule is on |
| Orchestrator.InferenceOrchestrator.constructor | src/orchestrator/inference_pipeline.py:23-36 | no detectors, not trained, an unfitted content filter with the configured rules, and a fresh, empty tracker whose alpha, window and floor are the configured ones or 0.3, 5 and 0.05 when unset |
| Orchestrator.InferenceOrchestrator.LoadOrFitMinimal | src/orchestrator/inference_pipeline.py:51-66 | trained: nothing changes; otherwise fresh detectors and the filter are fitted on the four-text fixture and the orchestrator is trained |
| Orchestrator.InferenceOrchestrator.LoadModelsFromDisk | src/orchestrator/inference_pipeline.py:38-49 | see the bullets after this table |
| Orchestrator.InferenceOrchestrator.Preprocess | src/orchestrator/inference_pipeline.py:68-87 | the cleaned text with its detected language, or "en" with confidence 1.0 when detection is off (`DetectionOffReportsEnglish`) |
| Orchestrator.InferenceOrchestrator.DetectionOffReportsEnglish | src/orchestrator/inference_pipeline.py:68-71 | with language detection off, every text is reported as "en" with confidence 1.0 |
| Orchestrator.InferenceOrchestrator.Infer | src/orchestrator/inference_pipeline.py:89-123 | see the bullets after this table |
| Orchestrator.InferenceOrchestrator.ScoreTurn | src/orchestrator/inference_pipeline.py:93-123 | the scoring half of `infer`, with the same guarantees on the result and the tracker |

What the longer entries state:

- **Escalation.EscalationTracker.Update**
  - Clamps the score to the floor.
  - Moves the EWMA by one step.
  - Appends to the window, dropping the oldest value when the window is full.
  - Returns the new EWMA, the window's slope and the window.
  - Keeps window and EWMA equal to `LastN`/`EwmaOf` of the inputs so far.
- **Policy.ComputeMaxRisk**
  - The result is at least the crisis score and every abuse score.
  - It is the crisis score or one of the abuse scores.
  - With no abuse scores it is the crisis score.
- **Policy.RedactionsSpec**
  - A label is redacted iff it is configured and is an abuse key, a crisis label or a true content flag.
  - The redactions keep the configured order.
  - A label configured twice is redacted twice.
- **ConfigLoader.MergeLookup**
  - A key only in `a` keeps `a`'s value.
  - A key of `b` takes `b`'s value unless both values are maps; then it holds the recursive merge.
  - No other key is present.
- **Orchestrator.InferenceOrchestrator.LoadModelsFromDisk**
  - Both files load: both detectors come from disk and the orchestrator is trained.
  - Otherwise it falls back to `LoadOrFitMinimal`.
  - If the abuse file loaded before the crisis file failed and the orchestrator was already trained, the loaded abuse detector stays in place.
- **Orchestrator.InferenceOrchestrator.Infer**
  - Loads first when not trained; afterwards the orchestrator is trained.
  - Once trained, the detectors and the content filter are left as they were; when both detectors load from disk they replace the old ones and the content filter is left as it was.
  - An unfitted detector gives its error and the tracker is unchanged.
  - Otherwise the tracker receives exactly one input, `compute_max_risk` of this turn.
  - The bundle holds the raw text and the scorers' rows for the preprocessed text.
  - Its decision is `decide` on exactly those scores, flags and crisis labels and the tracker's new EWMA and slope.

## Left out

- Model fitting and probability estimation (TF-IDF, logistic regression, `MultiLabelBinarizer`, the sklearn `Pipeline`): learners and scorers are function parameters, so nothing is said about the scores' values beyond what the post-processing does with them. The vectorizer and regularisation settings read by the constructors are not modelled.
- Numbers are mathematical reals, not IEEE doubles: rounding, `float(...)` conversions and NaN are not modelled.
- Text.Lower: lower-cases ASCII letters only; Python's `str.lower()` also maps other Unicode letters.
- Policy.FairnessNote: the list is printed as `['a', 'b']` without Python's `repr` escaping of quotes and backslashes inside the terms.
- Preprocessing (`mask_pii`, `normalize_text`, `detect_language`) is one opaque text-to-text function and one opaque detector; their regular expressions and Unicode normalisation are not part of this model.
- File I/O: `load_yaml`/`load_json`, `os.path.exists` and the extension dispatch are replaced by each path's outcome (`Missing`, `Unreadable`, `Parsed`). A YAML document whose top level is falsy (`null`, `[]`, `false`, `0`, `''`) becomes `{}` through `yaml.safe_load(f) or {}`, so it behaves like `Unreadable`. A truthy non-mapping YAML document, and any non-mapping JSON document (`load_json` has no such fallback), is not modelled; in the source it makes `deep_merge` raise.
- `joblib.load` is replaced by its outcome for each of the two files (`DiskModels`); the model directory argument and the file names are not modelled.
- Typed configuration: the policy configuration is a record, so the `KeyError` the source raises for a missing `actions`, `routing` or `thresholds` entry is not modelled; `age_rules`, `block_labels` and the EWMA threshold are carried but, as in the source, never read.
- The tracker's window is a `nat`: a negative `slope_window` (which makes Python's `deque` raise) is not modelled.
- Escalation.TrackerConfig: `None` stands for a key that is absent from the `escalation` section; an explicit `null` is not modelled. In the source a `null` `slope_window` gives an unbounded `deque`, a `null` `ewma_alpha` or `risk_floor` raises `TypeError` on the first update, and an unknown key raises `TypeError` in `EscalationTracker(**cfg)`.
- Logging (`get_logger` and every `logger` call), the metrics module, the Streamlit UI and the scripts are not part of this model.
- Orchestrator: the `ui` configuration section and the PII and normalisation switches are not modelled (they only parameterise preprocessing).

Behaviour of the code the model keeps:
- The redaction list is not de-duplicated: a label listed twice in `redact_labels` is redacted twice (`Policy.RedactionsSpec`).
- The EWMA starts at 0.0 and is never clamped, so it is not always at least the risk floor (`Escalation.EwmaStartsBelowFloor`). Only the window's entries are clamped.
- The abuse score map is not always fully populated with every configured label: `zip` stops at the shorter of the label list and the probability row (`AbuseDetection.ScoresPairByPosition`).
