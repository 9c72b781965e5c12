/**
 * The age-appropriateness filter: configured keyword lists raise three rule
 * flags, and an optional learned classifier suggests a minimum age class
 * ("13+" when none has been fitted).
 */
module ContentFiltering {
  import opened Wrappers
  import opened Dicts
  import opened Text

  /** The age class suggested for every text while no classifier is fitted. */
  const FallbackAge: string := "13+"

  /** One entry of `predict`'s result: `{"suggested_min_age": ..., "rule_flags": ...}`. */
  datatype ContentResult = ContentResult(suggestedMinAge: string, ruleFlags: Dict<bool>)

  class ContentFilter {
    /** `config.get("rules", {})`: keyword lists by rule name, e.g. "sexual_keywords". */
    const rules: Dict<seq<string>>
    /** The fitted age classifier; `None` until fitted. */
    var pipeline: Option<string -> string>

    constructor (configuredRules: Option<Dict<seq<string>>>)
      ensures rules == configuredRules.GetOr([])
      ensures pipeline == None
    {
      rules := configuredRules.GetOr([]);
      pipeline := None;
    }

    /** `has_any(key)`: some keyword of the rule, lower-cased, occurs in the lower-cased text. */
    function HasAny(text: string, key: string): bool {
      ContainsAnyIgnoringCase(text, Get(rules, key, []))
    }

    /** `rule_flags`: the three flags, in the order sexual, violence, substances. */
    function RuleFlags(text: string): Dict<bool> {
      [ ("sexual", HasAny(text, "sexual_keywords")),
        ("violence", HasAny(text, "violence_keywords")),
        ("substances", HasAny(text, "substances_keywords")) ]
    }

    /** What `predict` suggests for one text: the classifier's class, or "13+" when unfitted. */
    function SuggestedAge(text: string): string
      reads this
    {
      if pipeline.Some? then pipeline.value(text) else FallbackAge
    }

    /** Some keyword of the list occurs in the text, ignoring letter case. */
    ghost predicate Mentions(text: string, keywords: seq<string>) {
      exists k :: k in keywords && Contains(Lower(text), Lower(k))
    }

    /**
     * The flags are exactly sexual, violence and substances; each is set iff
     * some keyword of its list occurs in the text, ignoring letter case; a
     * rule without a keyword list never fires.
     */
    lemma RuleFlagsMeaning(text: string)
      ensures var flags := RuleFlags(text);
        && KeyList(flags) == ["sexual", "violence", "substances"]
        && Lookup(flags, "sexual") == Some(Mentions(text, Get(rules, "sexual_keywords", [])))
        && Lookup(flags, "violence") == Some(Mentions(text, Get(rules, "violence_keywords", [])))
        && Lookup(flags, "substances") == Some(Mentions(text, Get(rules, "substances_keywords", [])))
        && (!HasKey(rules, "sexual_keywords") ==> Lookup(flags, "sexual") == Some(false))
        && (!HasKey(rules, "violence_keywords") ==> Lookup(flags, "violence") == Some(false))
        && (!HasKey(rules, "substances_keywords") ==> Lookup(flags, "substances") == Some(false))
    {
      var flags := RuleFlags(text);
      LookupAt(flags, 0);
      LookupAt(flags, 1);
      LookupAt(flags, 2);
    }

    /** `fit`: the learner, given the texts and their age classes, yields the classifier. */
    method Fit(texts: seq<string>, yAgeClass: seq<string>, learner: (seq<string>, seq<string>) -> (string -> string))
      modifies this
      ensures pipeline == Some(learner(texts, yAgeClass))
    {
      pipeline := Some(learner(texts, yAgeClass));
    }

    /** `predict`: one result per text, pairing the suggested age with the text's rule flags. */
    method Predict(texts: seq<string>) returns (results: seq<ContentResult>)
      ensures |results| == |texts|
      ensures forall i :: 0 <= i < |texts| ==> results[i] == ContentResult(SuggestedAge(texts[i]), RuleFlags(texts[i]))
      ensures pipeline.None? ==> forall i :: 0 <= i < |texts| ==> results[i].suggestedMinAge == "13+"
    {
      var preds := seq(|texts|, _ => FallbackAge);
      if pipeline.Some? {
        var classify := pipeline.value;
        preds := seq(|texts|, i requires 0 <= i < |texts| => classify(texts[i]));
      }
      results := [];
      for i := 0 to |texts|
        invariant |results| == i
        invariant forall j :: 0 <= j < i ==> results[j] == ContentResult(SuggestedAge(texts[j]), RuleFlags(texts[j]))
      {
        var flags := RuleFlags(texts[i]);
        results := results + [ContentResult(preds[i], flags)];
      }
    }
  }
}
