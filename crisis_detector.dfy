/**
 * The binary crisis classifier: a learned scorer gives the probability of
 * the crisis class, and `predict` adds fixed keyword flags found in the
 * lower-cased text and lists the flags that are set.
 */
module CrisisDetection {
  import opened Wrappers
  import opened Dicts
  import opened Text

  const NotFitted: string := "CrisisDetector not fitted"

  /** `predict`'s threshold when the caller gives none. */
  const DefaultThreshold: real := 0.5

  const SelfHarmPhrases: seq<string> := ["hurt myself", "cut myself", "self harm"]
  const SuicidePhrases: seq<string> := ["suicide", "end my life", "kill myself"]
  const HarmPhrases: seq<string> := ["harm", "hurt", "damage", "injure"]

  /** One entry of `predict`'s result: `{"score", "label", "flags", "labels"}`; `verdict` is the "label" entry. */
  datatype CrisisResult = CrisisResult(score: real, verdict: string, flags: Dict<bool>, labels: seq<string>)

  /** The four flags of a scored text, in this order: crisis, self_harm, suicide, harm. */
  function CrisisFlags(text: string, score: real, threshold: real): Dict<bool> {
    var t := Lower(text);
    [ ("crisis", score >= threshold),
      ("self_harm", ContainsAny(t, SelfHarmPhrases)),
      ("suicide", ContainsAny(t, SuicidePhrases)),
      ("harm", ContainsAny(t, HarmPhrases)) ]
  }

  /**
   * The crisis flag is set iff the score reaches the threshold, and each
   * keyword flag iff the lower-cased text contains one of its phrases.
   */
  lemma FlagsMeaning(text: string, score: real, threshold: real)
    ensures var flags := CrisisFlags(text, score, threshold);
      && KeyList(flags) == ["crisis", "self_harm", "suicide", "harm"]
      && Lookup(flags, "crisis") == Some(score >= threshold)
      && Lookup(flags, "self_harm") == Some(exists k :: k in SelfHarmPhrases && Contains(Lower(text), k))
      && Lookup(flags, "suicide") == Some(exists k :: k in SuicidePhrases && Contains(Lower(text), k))
      && Lookup(flags, "harm") == Some(exists k :: k in HarmPhrases && Contains(Lower(text), k))
  {
    var flags := CrisisFlags(text, score, threshold);
    LookupAt(flags, 0);
    LookupAt(flags, 1);
    LookupAt(flags, 2);
    LookupAt(flags, 3);
  }

  /** The result for one text and its crisis probability. */
  function CrisisRow(text: string, score: real, threshold: real): CrisisResult {
    var flags := CrisisFlags(text, score, threshold);
    CrisisResult(score, if score >= threshold then "crisis" else "non-crisis", flags, TrueKeys(flags))
  }

  /**
   * The label is "crisis" exactly when the score reaches the threshold, and
   * then "crisis" heads the label list; the score is reported unchanged.
   */
  lemma CrisisLabelIffAtThreshold(text: string, score: real, threshold: real)
    ensures var r := CrisisRow(text, score, threshold);
      && r.score == score
      && (r.verdict == "crisis" <==> score >= threshold)
      && (r.verdict == "non-crisis" <==> score < threshold)
      && ("crisis" in r.labels <==> score >= threshold)
      && (score >= threshold ==> r.labels[0] == "crisis")
  {
    var flags := CrisisFlags(text, score, threshold);
    var ks := TrueKeys(flags);
    if score >= threshold {
      assert flags[0] == ("crisis", true);
      FirstTrueKey(flags);
    }
  }

  /** When the first entry of a dict is true, its key heads the true keys. */
  lemma FirstTrueKey(d: Dict<bool>)
    requires |d| > 0 && d[0].1
    ensures |TrueKeys(d)| > 0 && TrueKeys(d)[0] == d[0].0
    decreases |d|
  {
    if |d| > 1 {
      var init := d[..|d| - 1];
      assert init[0] == d[0];
      FirstTrueKey(init);
    }
  }

  /**
   * The label list names exactly the flags that are set, and in the flag
   * order crisis, self_harm, suicide, harm.
   */
  lemma LabelsAreSetFlagsInOrder(text: string, score: real, threshold: real)
    ensures var r := CrisisRow(text, score, threshold);
      && (forall k :: k in r.labels <==> Lookup(r.flags, k) == Some(true))
      && IsSubseq(r.labels, ["crisis", "self_harm", "suicide", "harm"])
  {
    FlagsMeaning(text, score, threshold);
  }

  /** Any text containing "kill myself" gets the "suicide" label, whatever its score. */
  lemma KillMyselfSetsSuicide(pre: string, post: string, score: real, threshold: real)
    ensures "suicide" in CrisisRow(pre + "kill myself" + post, score, threshold).labels
  {
    var text := pre + "kill myself" + post;
    var phrase := "kill myself";
    LowerAppend(pre + phrase, post);
    LowerAppend(pre, phrase);
    assert Lower(phrase) == phrase;
    assert OccursAt(phrase, phrase, 0);
    ContainsInContext(Lower(pre), phrase, Lower(post), phrase);
    assert phrase in SuicidePhrases;
    FlagsMeaning(text, score, threshold);
  }

  class CrisisDetector {
    /** The fitted scorer: the probability of the crisis class for a text; `None` until fitted. */
    var pipeline: Option<string -> real>

    constructor ()
      ensures pipeline == None
    {
      pipeline := None;
    }

    /** `fit`: the learner, given the texts and their 0/1 labels, yields the scorer. */
    method Fit(texts: seq<string>, y: seq<int>, learner: (seq<string>, seq<int>) -> (string -> real))
      modifies this
      ensures pipeline == Some(learner(texts, y))
    {
      pipeline := Some(learner(texts, y));
    }

    /** `predict_proba`: the crisis-class column, one probability per text, or the not-fitted error. */
    method PredictProba(texts: seq<string>) returns (r: Result<seq<real>>)
      ensures pipeline.None? ==> r == Failure(NotFitted)
      ensures pipeline.Some? ==> (r.Success? && |r.value| == |texts|
        && forall i :: 0 <= i < |texts| ==> r.value[i] == pipeline.value(texts[i]))
    {
      if pipeline.None? {
        return Failure(NotFitted);
      }
      var score := pipeline.value;
      r := Success(seq(|texts|, i requires 0 <= i < |texts| => score(texts[i])));
    }

    /** `predict`: one result per text, each built from that text and its probability. */
    method Predict(texts: seq<string>, threshold: real := DefaultThreshold) returns (r: Result<seq<CrisisResult>>)
      ensures pipeline.None? ==> r == Failure(NotFitted)
      ensures pipeline.Some? ==> (r.Success? && |r.value| == |texts|
        && forall i :: 0 <= i < |texts| ==> r.value[i] == CrisisRow(texts[i], pipeline.value(texts[i]), threshold))
    {
      var probs := PredictProba(texts);
      if probs.Failure? {
        return Failure(probs.error);
      }
      var scores := probs.value;
      var results: seq<CrisisResult> := [];
      for i := 0 to |scores|
        invariant |results| == i
        invariant forall j :: 0 <= j < i ==> results[j] == CrisisRow(texts[j], scores[j], threshold)
      {
        var score := scores[i];
        var flags := CrisisFlags(texts[i], score, threshold);
        var row := CrisisResult(score, if score >= threshold then "crisis" else "non-crisis", flags, TrueKeys(flags));
        assert row == CrisisRow(texts[i], score, threshold);
        ghost var prev := results;
        results := results + [row];
        assert results[..i] == prev;
      }
      r := Success(results);
    }
  }
}
