/**
 * The candidate JSON span of the model's reply: what
 * `text.match(/\{[\s\S]*\}/)` returns in server.js. `[\s\S]` matches every
 * character, so the match starts at the first `{` that some later `}`
 * follows and, the star being greedy, ends at the last `}` of the text.
 */
module Span {
  import opened Wrappers

  /** Index of the first occurrence of `c` in `s`. */
  function IndexOf(s: string, c: char): (r: Option<nat>)
    ensures r.Some? ==> r.value < |s| && s[r.value] == c
    ensures r.Some? ==> forall k :: 0 <= k < r.value ==> s[k] != c
    ensures r.None? ==> forall k :: 0 <= k < |s| ==> s[k] != c
  {
    if |s| == 0 then None
    else if s[0] == c then Some(0)
    else
      match IndexOf(s[1..], c)
      case None => None
      case Some(i) => Some(i + 1)
  }

  /** Index of the last occurrence of `c` in `s`. */
  function LastIndexOf(s: string, c: char): (r: Option<nat>)
    ensures r.Some? ==> r.value < |s| && s[r.value] == c
    ensures r.Some? ==> forall k :: r.value < k < |s| ==> s[k] != c
    ensures r.None? ==> forall k :: 0 <= k < |s| ==> s[k] != c
  {
    if |s| == 0 then None
    else if s[|s| - 1] == c then Some(|s| - 1)
    else LastIndexOf(s[..|s| - 1], c)
  }

  /**
   * Bounds [start, end) of the span: from the first `{` through the last `}`,
   * present exactly when some `}` follows some `{`.
   */
  function SpanBounds(text: string): (r: Option<(nat, nat)>)
    ensures r.Some? <==>
      exists i, j :: 0 <= i < j < |text| && text[i] == '{' && text[j] == '}'
    ensures r.Some? ==>
      var (b, e) := r.value;
      && b + 2 <= e <= |text|
      && text[b] == '{' && text[e - 1] == '}'
      && (forall k :: 0 <= k < b ==> text[k] != '{')
      && (forall k :: e <= k < |text| ==> text[k] != '}')
  {
    match IndexOf(text, '{')
    case None => None
    case Some(b) =>
      match LastIndexOf(text, '}')
      case None => None
      case Some(l) => if b < l then Some((b, l + 1)) else None
  }

  /** The text `text.match(/\{[\s\S]*\}/)[0]` yields, or None when `match` returns null. */
  function JsonSpan(text: string): (r: Option<string>)
    ensures r.Some? <==>
      exists i, j :: 0 <= i < j < |text| && text[i] == '{' && text[j] == '}'
    ensures r.Some? ==> |r.value| >= 2 && r.value[0] == '{' && r.value[|r.value| - 1] == '}'
    ensures r.Some? ==> exists b :: OccursAt(text, r.value, b)
  {
    match SpanBounds(text)
    case None => None
    case Some((b, e)) =>
      assert OccursAt(text, text[b..e], b);
      Some(text[b..e])
  }

  /** `sub` is the contiguous piece of `text` that starts at index `b`. */
  predicate OccursAt(text: string, sub: string, b: int) {
    0 <= b && b + |sub| <= |text| && text[b..b + |sub|] == sub
  }

  /** The pattern `\{[\s\S]*\}` matches `text[b..e]`. */
  ghost predicate MatchesAt(text: string, b: int, e: int) {
    0 <= b && b + 2 <= e <= |text| && text[b] == '{' && text[e - 1] == '}'
  }

  /**
   * The match a backtracking engine reports for a non-global exec: the
   * leftmost start at which the pattern matches and, from that start, the
   * longest match the greedy star allows.
   */
  ghost predicate RegexResult(text: string, b: int, e: int) {
    && MatchesAt(text, b, e)
    && (forall b', e' :: MatchesAt(text, b', e') ==> b <= b')
    && (forall e' :: MatchesAt(text, b, e') ==> e' <= e)
  }

  /** SpanBounds computes exactly the regex engine's match, and fails exactly when the pattern matches nowhere. */
  lemma SpanBoundsIsRegexResult(text: string)
    ensures SpanBounds(text).None? <==> forall b, e :: !MatchesAt(text, b, e)
    ensures forall b, e :: SpanBounds(text) == Some((b, e)) <==> RegexResult(text, b, e)
  {
    match SpanBounds(text)
    case None =>
    case Some((b, e)) =>
      assert MatchesAt(text, b, e);
      assert RegexResult(text, b, e);
      forall b', e' | RegexResult(text, b', e')
        ensures b' == b && e' == e
      {
        assert b' <= b && b <= b';
        assert e' <= e && e <= e';
      }
  }

  /**
   * A reply of prose without `{`, then one object text, then prose without
   * `}` yields that object text verbatim as its span.
   */
  lemma {:induction false} SpanOfEmbeddedObject(prose: string, obj: string, trailer: string)
    requires forall k :: 0 <= k < |prose| ==> prose[k] != '{'
    requires |obj| >= 2 && obj[0] == '{' && obj[|obj| - 1] == '}'
    requires forall k :: 0 <= k < |trailer| ==> trailer[k] != '}'
    ensures JsonSpan(prose + obj + trailer) == Some(obj)
  {
    var text := prose + obj + trailer;
    var b, e := |prose|, |prose| + |obj|;
    assert text[b] == '{' && text[e - 1] == '}';
    var bounds := SpanBounds(text);
    assert bounds.Some?;
    var (b0, e0) := bounds.value;
    assert b0 == b && e0 == e;
    assert text[b..e] == obj;
  }
}
