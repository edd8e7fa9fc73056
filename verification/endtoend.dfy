/**
 * The server route and the browser script together: the screen the user
 * sees for each way the route can answer. The response body reaches the
 * script unchanged (res.json followed by response.json() is taken as the
 * identity on JSON values).
 */
module EndToEnd {
  import opened Wrappers
  import opened Json
  import opened Js
  import opened Normalizer
  import opened Handler
  import opened Client

  /** The route's response as the browser script receives it. */
  function Received(h: Handled): FetchReply {
    Reply(h.response.status, Some(h.response.body))
  }

  /** A string shown in the page: itself, or the placeholder when it is empty (falsy). */
  function ShownText(text: string, placeholder: string): Value {
    if text == "" then Str(placeholder) else Str(text)
  }

  /**
   * The route answers only 200, 400 and 500 and never sets `success` on an
   * error, so the script's rate-limit and access-denied messages can never
   * appear for it: every error the user sees is the generic one.
   */
  lemma OnlyGenericErrorsReachUser(file: Option<UploadedFile>, disk: Disk, services: Services, positiveNumeral: NumeralTest)
    ensures var screen := Interpret(Received(Detect(file, disk, services)), positiveNumeral);
      screen.ShowError? ==> screen.message == AnalysisFailed
  {
    var h := Detect(file, disk, services);
    if h.response.status == 200 {
      assert Succeeded(h.response.body);
    }
  }

  /** A 400 or 500 from the route shows the generic failure message. */
  lemma RouteFailureShowsGenericMessage(file: Option<UploadedFile>, disk: Disk, services: Services, positiveNumeral: NumeralTest)
    requires Detect(file, disk, services).response.status != 200
    ensures Interpret(Received(Detect(file, disk, services)), positiveNumeral) == ShowError(AnalysisFailed)
  {
  }

  /**
   * The script shows a placeholder analysis as its hairstyle, the reply
   * text (or its placeholder when empty), and exactly one card.
   */
  lemma PlaceholderShown(hairstyle: string, text: string, name: string, reason: string, positiveNumeral: NumeralTest)
    ensures DisplayResults(Some(Placeholder(hairstyle, text, name, reason)), Some(Str(text)), positiveNumeral)
         == Some(Results(
              ShownText(hairstyle, UnknownHairstyle),
              ShownText(text, NoDescription),
              Cards([Card(ShownText(name, DefaultName), ShownText(reason, DefaultReason))]),
              ShownText(text, NoDetails)))
  {
    PlaceholderMembers(hairstyle, text, name, reason);
    var s := Suggestion(name, reason);
    var card := Card(ShownText(name, DefaultName), ShownText(reason, DefaultReason));
    assert CardFor(s) == card;
    assert [s][1..] == [];
    assert RenderCards([s][1..]) == Some([]);
    assert RenderCards([s]) == Some([card] + []);
    assert [card] + [] == [card];
    assert Truthy(Some(Array([s]))) && LengthAboveZero(Array([s]), positiveNumeral);
    assert RenderSuggestions(Some(Array([s])), positiveNumeral) == Some(Cards([card]));
  }

  /**
   * A model reply without a JSON span is shown as the first placeholder:
   * "Could not determine", the reply as description and as complete
   * analysis, and the one card ("Consult with response", "See full analysis above").
   */
  lemma ReplyWithoutSpanShown(upload: UploadedFile, disk: Disk, services: Services, text: string, positiveNumeral: NumeralTest)
    requires upload.path in disk
    requires services.generate(RequestFor(upload, disk)) == Generated(text)
    requires forall i, j :: 0 <= i < j < |text| && text[i] == '{' ==> text[j] != '}'
    ensures Interpret(Received(Detect(Some(upload), disk, services)), positiveNumeral)
         == ShowResults(Results(
              Str(NoSpanHairstyle),
              ShownText(text, NoDescription),
              Cards([Card(Str(NoSpanName), Str(NoSpanReason))]),
              ShownText(text, NoDetails)))
  {
    assert Normalize(text, services.parse) == Placeholder(NoSpanHairstyle, text, NoSpanName, NoSpanReason) by {
      assert Span.JsonSpan(text).None?;
    }
    var h := Detect(Some(upload), disk, services);
    assert h.calls == [RequestFor(upload, disk)];
    assert Member(h.response.body, "analysis") == Some(Placeholder(NoSpanHairstyle, text, NoSpanName, NoSpanReason));
    assert Member(h.response.body, "rawResponse") == Some(Str(text));
    PlaceholderShown(NoSpanHairstyle, text, NoSpanName, NoSpanReason, positiveNumeral);
  }

  /**
   * A model reply whose JSON span does not parse is shown as the second
   * placeholder: "Analysis completed", the reply as description and as
   * complete analysis, and the one card ("See full analysis", "Complete
   * analysis provided above").
   */
  lemma UnparsableReplyShown(upload: UploadedFile, disk: Disk, services: Services, text: string, positiveNumeral: NumeralTest)
    requires upload.path in disk
    requires services.generate(RequestFor(upload, disk)) == Generated(text)
    requires Span.JsonSpan(text).Some? && services.parse(Span.JsonSpan(text).value).None?
    ensures Interpret(Received(Detect(Some(upload), disk, services)), positiveNumeral)
         == ShowResults(Results(
              Str(UnparsedHairstyle),
              ShownText(text, NoDescription),
              Cards([Card(Str(UnparsedName), Str(UnparsedReason))]),
              ShownText(text, NoDetails)))
  {
    assert Normalize(text, services.parse) == Placeholder(UnparsedHairstyle, text, UnparsedName, UnparsedReason);
    var h := Detect(Some(upload), disk, services);
    assert h.calls == [RequestFor(upload, disk)];
    assert Member(h.response.body, "analysis") == Some(Placeholder(UnparsedHairstyle, text, UnparsedName, UnparsedReason));
    assert Member(h.response.body, "rawResponse") == Some(Str(text));
    PlaceholderShown(UnparsedHairstyle, text, UnparsedName, UnparsedReason, positiveNumeral);
  }

  /**
   * The route passes a parsed analysis through without filling in missing
   * fields; the script fills them: a parsed object with none of the three
   * fields (whatever other members it has) is shown as "Unknown", "No description available", the
   * no-suggestions line, and the reply as complete analysis.
   */
  lemma PartialAnalysisFilledByClient(upload: UploadedFile, disk: Disk, services: Services, text: string, members: seq<(string, Value)>, positiveNumeral: NumeralTest)
    requires upload.path in disk
    requires services.generate(RequestFor(upload, disk)) == Generated(text)
    requires Span.JsonSpan(text).Some?
    requires services.parse(Span.JsonSpan(text).value) == Some(Object(members))
    requires forall i :: 0 <= i < |members| ==>
      members[i].0 != "currentHairstyle" && members[i].0 != "description" && members[i].0 != "suggestions"
    ensures Interpret(Received(Detect(Some(upload), disk, services)), positiveNumeral)
         == ShowResults(Results(Str(UnknownHairstyle), Str(NoDescription), NoSuggestions, ShownText(text, NoDetails)))
  {
    var h := Detect(Some(upload), disk, services);
    assert h.calls == [RequestFor(upload, disk)];
  }

  /**
   * Whenever the route answers 200 and the script shows results, the
   * complete-analysis section holds the model's reply text unchanged
   * (or its placeholder when the reply is empty), whichever normalization
   * path was taken.
   */
  lemma RawReplyAlwaysShown(file: Option<UploadedFile>, disk: Disk, services: Services, positiveNumeral: NumeralTest)
    requires Detect(file, disk, services).response.status == 200
    ensures var h := Detect(file, disk, services);
      var screen := Interpret(Received(h), positiveNumeral);
      screen.ShowResults? ==>
        screen.results.rawResponse == ShownText(services.generate(h.calls[0]).text, NoDetails)
  {
  }
}
