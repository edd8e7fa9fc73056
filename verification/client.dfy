/**
 * The decisions of the browser script (public/script.js), without the DOM:
 * which uploaded files are kept, what analyzePhoto shows for a server reply,
 * and how displayResults fills a possibly partial analysis with
 * placeholders. A thrown exception inside analyzePhoto's try block (a
 * property read on null or undefined, a call to a missing forEach, the
 * explicit throw) ends in its catch and shows the generic failure message.
 */
module Client {
  import opened Wrappers
  import opened Json
  import opened Js

  /** A picked file or a captured photo: its name and MIME type. */
  datatype ImageFile = ImageFile(name: string, mimeType: string)

  /** The messages showError displays. */
  datatype Message =
    | NoImage
    | InvalidImage
    | RateLimited(retryAfter: Value)
    | AccessDenied
    | AnalysisFailed

  // The longer texts are written as two literals joined at the sentence break:
  // the verifier reads the characters of short literals only.
  const NoImageText := "No image to analyze." + " Please capture or upload a photo first."
  const InvalidImageText := "Please select a valid image file."
  const AccessDeniedText := "API access denied." + " Please check your API key configuration."
  const AnalysisFailedText := "Failed to analyze the hairstyle." + " Please try again in a few moments."

  const RateLimitPrefix := "Rate limit exceeded. Please wait "
  const RateLimitSuffix := " seconds and try again."

  /**
   * The text of a message; `toText` is JavaScript's conversion of a value
   * inside a template literal. Only the rate-limit text starts with the
   * rate-limit prefix, and it carries the converted `retryAfter` verbatim
   * between that prefix and its suffix.
   */
  function Text(m: Message, toText: Value -> string): (r: string)
    ensures m.RateLimited? <==> StartsWith(r, RateLimitPrefix)
    ensures m.RateLimited? ==>
      && |r| == |RateLimitPrefix| + |toText(m.retryAfter)| + |RateLimitSuffix|
      && r[|RateLimitPrefix|..|r| - |RateLimitSuffix|] == toText(m.retryAfter)
      && r[|r| - |RateLimitSuffix|..] == RateLimitSuffix
    ensures !m.RateLimited? ==> r in {NoImageText, InvalidImageText, AccessDeniedText, AnalysisFailedText}
    ensures m == NoImage <==> r == NoImageText
    ensures m == InvalidImage <==> r == InvalidImageText
    ensures m == AccessDenied <==> r == AccessDeniedText
    ensures m == AnalysisFailed <==> r == AnalysisFailedText
  {
    match m
    case NoImage =>
      assert NoImageText[0] != RateLimitPrefix[0];
      NoImageText
    case InvalidImage =>
      assert InvalidImageText[0] != RateLimitPrefix[0];
      InvalidImageText
    case RateLimited(v) =>
      var r := RateLimitPrefix + toText(v) + RateLimitSuffix;
      assert r[..|RateLimitPrefix|] == RateLimitPrefix;
      assert r[|RateLimitPrefix|..|r| - |RateLimitSuffix|] == toText(v);
      r
    case AccessDenied =>
      assert AccessDeniedText[0] != RateLimitPrefix[0];
      AccessDeniedText
    case AnalysisFailed =>
      assert AnalysisFailedText[0] != RateLimitPrefix[0];
      AnalysisFailedText
  }

  const DefaultRetryAfter := Number(5.0)
  const UnknownHairstyle := "Unknown"
  const NoDescription := "No description available"
  const NoDetails := "No detailed analysis available"
  const DefaultName := "Suggested Style"
  const DefaultReason := "No details available"
  const NoSuggestionsText := "No specific suggestions available. See complete analysis below."

  /** One suggestion card: the values written into its heading and paragraph. */
  datatype Card = Card(name: Value, reason: Value)

  /** The suggestions container: the placeholder line NoSuggestionsText, or one card per suggestion. */
  datatype SuggestionList = NoSuggestions | Cards(cards: seq<Card>)

  /** What displayResults writes into the results section. */
  datatype Results = Results(hairstyle: Value, description: Value, suggestions: SuggestionList, rawResponse: Value)

  /** What the user sees after an analysis attempt. */
  datatype Screen = ShowResults(results: Results) | ShowError(message: Message)

  /**
   * The outcome of `fetch` and `response.json()`: a network failure, or a
   * status with the parsed body (None when the body is not JSON).
   */
  datatype FetchReply = NetworkFailure | Reply(status: int, body: Option<Value>)

  /** analyzePhoto's effect: the image it posted (None when no request was sent) and the screen. */
  datatype Analyzed = Analyzed(posted: Option<ImageFile>, screen: Screen)

  /** handleFileUpload's effect: the captured image afterwards and the error shown, if any. */
  datatype Uploaded = Uploaded(captured: Option<ImageFile>, error: Option<Message>)

  /** JavaScript's `s.startsWith(prefix)`. */
  predicate StartsWith(s: string, prefix: string) {
    |prefix| <= |s| && s[..|prefix|] == prefix
  }

  /**
   * handleFileUpload: the first picked file is kept as the image to analyze
   * only when its MIME type starts with "image/"; otherwise the error is
   * shown and the previously captured image stays.
   */
  function HandleFileUpload(captured: Option<ImageFile>, picked: Option<ImageFile>): (u: Uploaded)
    ensures u.error.None? <==> picked.Some? && StartsWith(picked.value.mimeType, "image/")
    ensures u.error.None? ==> u.captured == picked
    ensures u.error.Some? ==> u.error == Some(InvalidImage) && u.captured == captured
  {
    if picked.Some? && StartsWith(picked.value.mimeType, "image/") then Uploaded(picked, None)
    else Uploaded(captured, Some(InvalidImage))
  }

  /** The card for one suggestion; reading `name` of null would throw, so null is excluded. */
  function CardFor(item: Value): (c: Card)
    requires !item.Null?
    ensures Defaulted(c.name, Member(item, "name"), Str(DefaultName))
    ensures Defaulted(c.reason, Member(item, "reason"), Str(DefaultReason))
  {
    Card(Or(Member(item, "name"), Str(DefaultName)), Or(Member(item, "reason"), Str(DefaultReason)))
  }

  /**
   * `suggestions.forEach(...)`: one card per suggestion in order, or None
   * when some suggestion is null and reading its name throws.
   */
  function RenderCards(items: seq<Value>): (r: Option<seq<Card>>)
    ensures r.Some? <==> forall i :: 0 <= i < |items| ==> !items[i].Null?
    ensures r.Some? ==> |r.value| == |items|
    ensures r.Some? ==> forall i :: 0 <= i < |items| ==>
      && Defaulted(r.value[i].name, Member(items[i], "name"), Str(DefaultName))
      && Defaulted(r.value[i].reason, Member(items[i], "reason"), Str(DefaultReason))
  {
    if |items| == 0 then Some([])
    else if items[0].Null? then None
    else
      match RenderCards(items[1..])
      case None => None
      case Some(rest) => Some([CardFor(items[0])] + rest)
  }

  /**
   * The suggestions container for `analysis.suggestions`: the placeholder
   * line unless the value is truthy with a positive length; cards for a
   * non-empty array; None when rendering throws (a null suggestion, or a
   * non-array value with a positive length, which has no forEach).
   */
  function RenderSuggestions(s: Option<Value>, positiveNumeral: NumeralTest): (r: Option<SuggestionList>)
    ensures !Truthy(s) ==> r == Some(NoSuggestions)
    ensures s.Some? && s.value.Array? ==> (r == Some(NoSuggestions) <==> |s.value.items| == 0)
    ensures s.Some? && s.value.Array? && |s.value.items| > 0 ==>
      && (r.Some? <==> forall i :: 0 <= i < |s.value.items| ==> !s.value.items[i].Null?)
      && (r.Some? ==> r.value.Cards? && Some(r.value.cards) == RenderCards(s.value.items))
    ensures Truthy(s) && !s.value.Array? ==>
      && (r.None? <==> LengthAboveZero(s.value, positiveNumeral))
      && (r.Some? ==> r == Some(NoSuggestions))
  {
    if !(Truthy(s) && LengthAboveZero(s.value, positiveNumeral)) then Some(NoSuggestions)
    else if s.value.Array? then
      match RenderCards(s.value.items)
      case None => None
      case Some(cards) => Some(Cards(cards))
    else None
  }

  /**
   * displayResults(analysis, rawResponse): None when it throws (analysis is
   * null or undefined, or rendering the suggestions throws); otherwise each
   * field shown as read, or its placeholder when falsy.
   */
  function DisplayResults(analysis: Option<Value>, rawResponse: Option<Value>, positiveNumeral: NumeralTest): (r: Option<Results>)
    ensures analysis.None? || analysis.value.Null? ==> r.None?
    ensures analysis.Some? && !analysis.value.Null? ==>
      var a := analysis.value;
      && (r.Some? <==> RenderSuggestions(Member(a, "suggestions"), positiveNumeral).Some?)
      && (r.Some? ==>
        && Defaulted(r.value.hairstyle, Member(a, "currentHairstyle"), Str(UnknownHairstyle))
        && Defaulted(r.value.description, Member(a, "description"), Str(NoDescription))
        && Some(r.value.suggestions) == RenderSuggestions(Member(a, "suggestions"), positiveNumeral)
        && Defaulted(r.value.rawResponse, rawResponse, Str(NoDetails)))
    ensures r.Some? ==>
      Truthy(Some(r.value.hairstyle)) && Truthy(Some(r.value.description)) && Truthy(Some(r.value.rawResponse))
  {
    if analysis.None? || analysis.value.Null? then None
    else
      var a := analysis.value;
      var hairstyle := Or(Member(a, "currentHairstyle"), Str(UnknownHairstyle));
      var description := Or(Member(a, "description"), Str(NoDescription));
      match RenderSuggestions(Member(a, "suggestions"), positiveNumeral)
      case None => None
      case Some(suggestions) =>
        Some(Results(hairstyle, description, suggestions, Or(rawResponse, Str(NoDetails))))
  }

  /** The parsed body of a reply, when the request completed and the body was JSON. */
  function Data(reply: FetchReply): Option<Value> {
    if reply.Reply? then reply.body else None
  }

  /** `data.success` is truthy (data is not null, so reading it does not throw). */
  predicate Succeeded(data: Value) {
    !data.Null? && Truthy(Member(data, "success"))
  }

  /**
   * The try block of analyzePhoto after the request was sent: results for a
   * successful body, the rate-limit or access-denied message for 429 and
   * 403, and the generic failure message for everything else, thrown
   * errors included. `data.error` is thrown but never shown.
   */
  function Interpret(reply: FetchReply, positiveNumeral: NumeralTest): (screen: Screen)
    ensures Data(reply).None? ==> screen == ShowError(AnalysisFailed)
    ensures screen.ShowResults? <==>
      && Data(reply).Some? && Succeeded(Data(reply).value)
      && DisplayResults(Member(Data(reply).value, "analysis"), Member(Data(reply).value, "rawResponse"), positiveNumeral).Some?
    ensures screen.ShowResults? ==>
      Some(screen.results) == DisplayResults(Member(Data(reply).value, "analysis"), Member(Data(reply).value, "rawResponse"), positiveNumeral)
    ensures screen.ShowError? && screen.message.RateLimited? <==>
      Data(reply).Some? && !Data(reply).value.Null? && !Succeeded(Data(reply).value) && reply.status == 429
    ensures screen.ShowError? && screen.message.RateLimited? ==>
      Defaulted(screen.message.retryAfter, Member(Data(reply).value, "retryAfter"), DefaultRetryAfter)
    ensures screen == ShowError(AccessDenied) <==>
      Data(reply).Some? && !Data(reply).value.Null? && !Succeeded(Data(reply).value) && reply.status == 403
    ensures screen.ShowError? ==> screen.message != NoImage && screen.message != InvalidImage
  {
    match reply
    case NetworkFailure => ShowError(AnalysisFailed)
    case Reply(status, body) =>
      match body
      case None => ShowError(AnalysisFailed)
      case Some(data) =>
        if data.Null? then ShowError(AnalysisFailed)
        else if Truthy(Member(data, "success")) then
          match DisplayResults(Member(data, "analysis"), Member(data, "rawResponse"), positiveNumeral)
          case Some(results) => ShowResults(results)
          case None => ShowError(AnalysisFailed)
        else if status == 429 then ShowError(RateLimited(Or(Member(data, "retryAfter"), DefaultRetryAfter)))
        else if status == 403 then ShowError(AccessDenied)
        else ShowError(AnalysisFailed)
  }

  /**
   * analyzePhoto with `captured` as the image to analyze and `reply` as what
   * the server would answer: without an image nothing is posted and the
   * no-image message is shown; otherwise the image is posted and the reply
   * interpreted.
   */
  function AnalyzePhoto(captured: Option<ImageFile>, reply: FetchReply, positiveNumeral: NumeralTest): (a: Analyzed)
    ensures a.posted == captured
    ensures captured.None? ==> a.screen == ShowError(NoImage)
    ensures captured.Some? ==> a.screen == Interpret(reply, positiveNumeral)
  {
    if captured.None? then Analyzed(None, ShowError(NoImage))
    else Analyzed(captured, Interpret(reply, positiveNumeral))
  }

  /**
   * The body's `error` member never reaches the user: removing it from a
   * JSON object body changes nothing on screen, whatever the status.
   */
  lemma ErrorMemberNeverShown(status: int, members: seq<(string, Value)>, positiveNumeral: NumeralTest)
    ensures Interpret(Reply(status, Some(Object(members))), positiveNumeral)
         == Interpret(Reply(status, Some(Object(Without(members, "error")))), positiveNumeral)
  {
    GetWithout(members, "error", "success");
    GetWithout(members, "error", "analysis");
    GetWithout(members, "error", "rawResponse");
    GetWithout(members, "error", "retryAfter");
  }

  /**
   * A failed reply with any status other than 429 and 403 shows the generic
   * failure text, whatever its body says.
   */
  lemma GenericFailureText(reply: FetchReply, positiveNumeral: NumeralTest, toText: Value -> string)
    requires reply.Reply? && reply.status != 429 && reply.status != 403
    requires Data(reply).Some? ==> !Succeeded(Data(reply).value)
    ensures Interpret(reply, positiveNumeral).ShowError?
    ensures Text(Interpret(reply, positiveNumeral).message, toText) == AnalysisFailedText
  {
  }

  /**
   * After a file upload, analyzePhoto posts the picked file when it was
   * accepted and behaves exactly as before the upload when it was rejected.
   */
  lemma UploadDecidesWhatIsPosted(captured: Option<ImageFile>, picked: Option<ImageFile>, reply: FetchReply, positiveNumeral: NumeralTest)
    ensures var u := HandleFileUpload(captured, picked);
      && (u.error.None? ==> AnalyzePhoto(u.captured, reply, positiveNumeral).posted == picked && picked.Some?)
      && (u.error.Some? ==> AnalyzePhoto(u.captured, reply, positiveNumeral) == AnalyzePhoto(captured, reply, positiveNumeral))
  {
  }
}
