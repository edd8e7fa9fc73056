/**
 * The response normalizer of the detect-hairstyle route (server.js): the
 * model's reply becomes the `analysis` value of the response. The reply's
 * JSON span is parsed; with no span, or when parsing throws, one of two
 * fixed placeholder analyses is used instead. JSON.parse itself is a
 * parameter: it returns None exactly where it would throw.
 */
module Normalizer {
  import opened Wrappers
  import opened Json
  import opened Span

  /** JSON.parse, as an oracle: None where it throws a SyntaxError. */
  type Parser = string -> Option<Value>

  const NoSpanHairstyle := "Could not determine"
  const NoSpanName := "Consult with response"
  const NoSpanReason := "See full analysis above"

  const UnparsedHairstyle := "Analysis completed"
  const UnparsedName := "See full analysis"
  const UnparsedReason := "Complete analysis provided above"

  /** A `{ name, reason }` suggestion object. */
  function Suggestion(name: string, reason: string): Value {
    Object([("name", Str(name)), ("reason", Str(reason))])
  }

  /** A placeholder analysis: the given hairstyle, the whole reply as description, one suggestion. */
  function Placeholder(hairstyle: string, text: string, name: string, reason: string): Value {
    Object([
      ("currentHairstyle", Str(hairstyle)),
      ("description", Str(text)),
      ("suggestions", Array([Suggestion(name, reason)]))
    ])
  }

  /**
   * A placeholder analysis built from the reply `text`: string
   * `currentHairstyle`, `description` equal to the reply, and exactly one
   * suggestion with string name and reason.
   */
  ghost predicate IsPlaceholderFor(v: Value, text: string) {
    && Member(v, "currentHairstyle").Some? && Member(v, "currentHairstyle").value.Str?
    && Member(v, "description") == Some(Str(text))
    && Member(v, "suggestions").Some? && Member(v, "suggestions").value.Array?
    && |Member(v, "suggestions").value.items| == 1
    && Member(Member(v, "suggestions").value.items[0], "name").Some?
    && Member(Member(v, "suggestions").value.items[0], "name").value.Str?
    && Member(Member(v, "suggestions").value.items[0], "reason").Some?
    && Member(Member(v, "suggestions").value.items[0], "reason").value.Str?
  }

  /**
   * The analysis for the model's reply `text`. Every reply yields one: either
   * the parse of its JSON span, adopted as it is, or a placeholder that keeps
   * the whole reply as its description.
   */
  function Normalize(text: string, parse: Parser): (r: Value)
    ensures IsPlaceholderFor(r, text) || (JsonSpan(text).Some? && parse(JsonSpan(text).value) == Some(r))
  {
    match JsonSpan(text)
    case None =>
      PlaceholderShape(NoSpanHairstyle, text, NoSpanName, NoSpanReason);
      Placeholder(NoSpanHairstyle, text, NoSpanName, NoSpanReason)
    case Some(span) =>
      match parse(span)
      case Some(v) => v
      case None =>
        PlaceholderShape(UnparsedHairstyle, text, UnparsedName, UnparsedReason);
        Placeholder(UnparsedHairstyle, text, UnparsedName, UnparsedReason)
  }

  /** What the members of a placeholder analysis read as. */
  lemma PlaceholderMembers(hairstyle: string, text: string, name: string, reason: string)
    ensures var p := Placeholder(hairstyle, text, name, reason);
      && Member(p, "currentHairstyle") == Some(Str(hairstyle))
      && Member(p, "description") == Some(Str(text))
      && Member(p, "suggestions") == Some(Array([Suggestion(name, reason)]))
      && Member(Suggestion(name, reason), "name") == Some(Str(name))
      && Member(Suggestion(name, reason), "reason") == Some(Str(reason))
  {
    var s := Suggestion(name, reason);
    assert s.members[..1] == [("name", Str(name))];
    assert Get(s.members[..1], "name") == Some(Str(name));
    var m := Placeholder(hairstyle, text, name, reason).members;
    assert m[..2] == [m[0], m[1]];
    assert m[..2][..1] == [m[0]];
  }

  /** Every placeholder built from `text` has the shape IsPlaceholderFor describes. */
  lemma PlaceholderShape(hairstyle: string, text: string, name: string, reason: string)
    ensures IsPlaceholderFor(Placeholder(hairstyle, text, name, reason), text)
  {
    PlaceholderMembers(hairstyle, text, name, reason);
  }

  /**
   * With no `}` after any `{`, the analysis is the first placeholder:
   * "Could not determine", the reply as description, and the single
   * suggestion ("Consult with response", "See full analysis above").
   */
  lemma NormalizeWithoutSpan(text: string, parse: Parser)
    requires forall i, j :: 0 <= i < j < |text| && text[i] == '{' ==> text[j] != '}'
    ensures var r := Normalize(text, parse);
      && Member(r, "currentHairstyle") == Some(Str(NoSpanHairstyle))
      && Member(r, "description") == Some(Str(text))
      && Member(r, "suggestions") == Some(Array([Suggestion(NoSpanName, NoSpanReason)]))
      && Member(Suggestion(NoSpanName, NoSpanReason), "name") == Some(Str(NoSpanName))
      && Member(Suggestion(NoSpanName, NoSpanReason), "reason") == Some(Str(NoSpanReason))
  {
    assert JsonSpan(text).None?;
  }

  /**
   * When the span does not parse, the analysis is the second placeholder:
   * "Analysis completed", the reply as description, and the single
   * suggestion ("See full analysis", "Complete analysis provided above").
   * The parse failure never escapes as an error: the result is a value.
   */
  lemma NormalizeUnparsable(text: string, parse: Parser)
    requires JsonSpan(text).Some? && parse(JsonSpan(text).value).None?
    ensures var r := Normalize(text, parse);
      && Member(r, "currentHairstyle") == Some(Str(UnparsedHairstyle))
      && Member(r, "description") == Some(Str(text))
      && Member(r, "suggestions") == Some(Array([Suggestion(UnparsedName, UnparsedReason)]))
      && Member(Suggestion(UnparsedName, UnparsedReason), "name") == Some(Str(UnparsedName))
      && Member(Suggestion(UnparsedName, UnparsedReason), "reason") == Some(Str(UnparsedReason))
  {
  }

  /**
   * A reply of prose, one JSON object text, and trailing prose without `}`
   * normalizes to exactly what that object text parses to: its fields are
   * adopted verbatim and no missing field is filled in.
   */
  lemma NormalizeEmbeddedObject(prose: string, obj: string, trailer: string, parse: Parser)
    requires forall k :: 0 <= k < |prose| ==> prose[k] != '{'
    requires |obj| >= 2 && obj[0] == '{' && obj[|obj| - 1] == '}'
    requires forall k :: 0 <= k < |trailer| ==> trailer[k] != '}'
    requires parse(obj).Some?
    ensures Normalize(prose + obj + trailer, parse) == parse(obj).value
  {
    SpanOfEmbeddedObject(prose, obj, trailer);
  }

  /**
   * JSON.parse is consulted on the span only: parsers that agree on the span
   * give the same analysis, and with no span the parser is not consulted.
   */
  lemma NormalizeParsesOnlyTheSpan(text: string, p: Parser, q: Parser)
    requires JsonSpan(text).Some? ==> p(JsonSpan(text).value) == q(JsonSpan(text).value)
    ensures Normalize(text, p) == Normalize(text, q)
  {
  }
}
