/**
 * The string operations the detectors use: `str.lower()` and the substring
 * test `kw in text`, with `any(...)` over a list of keywords.
 */
module Text {

  /** Lower-cases one character; only the ASCII letters A-Z change. */
  function LowerChar(c: char): (d: char)
    ensures 'A' <= c <= 'Z' ==> d as int == c as int + 32
    ensures !('A' <= c <= 'Z') ==> d == c
  {
    if 'A' <= c <= 'Z' then (c as int + 32) as char else c
  }

  /** `s.lower()`, for ASCII letters. */
  function Lower(s: string): (t: string)
    ensures |t| == |s|
    ensures forall i :: 0 <= i < |s| ==> t[i] == LowerChar(s[i])
  {
    seq(|s|, i requires 0 <= i < |s| => LowerChar(s[i]))
  }

  /** `sub` occurs in `s` starting at position `i`. */
  ghost predicate OccursAt(sub: string, s: string, i: int) {
    0 <= i && i + |sub| <= |s| && s[i..i + |sub|] == sub
  }

  /** `sub in s`: scans `s` from the left; the empty string occurs in every string. */
  function Contains(s: string, sub: string): (b: bool)
    ensures b <==> exists i :: OccursAt(sub, s, i)
    decreases |s|
  {
    if |sub| <= |s| && s[..|sub|] == sub then
      assert OccursAt(sub, s, 0);
      true
    else if |sub| >= |s| then
      assert forall i :: !OccursAt(sub, s, i);
      false
    else
      var b := Contains(s[1..], sub);
      assert forall i :: OccursAt(sub, s[1..], i) <==> OccursAt(sub, s, i + 1);
      assert forall i :: OccursAt(sub, s, i) && i > 0 ==> OccursAt(sub, s[1..], i - 1);
      b
  }

  /** `any(kw in text for kw in keywords)` */
  function ContainsAny(text: string, keywords: seq<string>): (b: bool)
    ensures b <==> exists k :: k in keywords && Contains(text, k)
  {
    if keywords == [] then false
    else
      var rest := ContainsAny(text, keywords[1..]);
      if Contains(text, keywords[0]) then
        assert keywords[0] in keywords;
        true
      else
        assert forall k :: k in keywords[1..] ==> k in keywords;
        assert forall k :: k in keywords && Contains(text, k) ==> k in keywords[1..];
        rest
  }

  /** `any(k.lower() in text.lower() for k in keywords)`: the case-insensitive variant. */
  function ContainsAnyIgnoringCase(text: string, keywords: seq<string>): (b: bool)
    ensures b <==> exists k :: k in keywords && Contains(Lower(text), Lower(k))
  {
    if keywords == [] then false
    else
      Contains(Lower(text), Lower(keywords[0])) || ContainsAnyIgnoringCase(text, keywords[1..])
  }

  /** The empty keyword is found in every text. */
  lemma EmptyKeywordAlwaysFound(text: string)
    ensures Contains(text, "")
  {
    assert OccursAt("", text, 0);
  }

  /** A phrase found in a text is found in any text that extends it on either side. */
  lemma {:induction false} ContainsInContext(pre: string, s: string, post: string, sub: string)
    requires Contains(s, sub)
    ensures Contains(pre + s + post, sub)
  {
    var i :| OccursAt(sub, s, i);
    var t := pre + s + post;
    assert t[|pre| + i..|pre| + i + |sub|] == s[i..i + |sub|];
    assert OccursAt(sub, t, |pre| + i);
  }

  /** Lower-casing works character by character, so it distributes over concatenation. */
  lemma LowerAppend(a: string, b: string)
    ensures Lower(a + b) == Lower(a) + Lower(b)
  {
  }
}
