# Hairstyle detector: normalizer, route outcomes and client display decisions

This project models the decision logic of a small web application. Users upload or capture a photo. The server
forwards it to a generative model and returns a hairstyle analysis. The browser then shows that analysis or an
error message. The model covers three things:

- **The response normalizer** in `server.js`. It finds the candidate JSON span of the model's reply: the match of
  `/\{[\s\S]*\}/`, from the first `{` through the last `}`. It parses that span, or falls back to one of two fixed
  placeholder analyses (module `Span`, module `Normalizer`).
- **The `POST /api/detect-hairstyle` route**. Its outcome is a 400 when no image was uploaded. Any later failure
  gives a 500 with a fixed error and the failure's message. Otherwise it gives a 200 carrying the analysis and the
  untouched reply text. The uploaded file is deleted on both paths (module `Handler`).
- **The browser script's decisions** in `public/script.js`. `handleFileUpload` decides which picked files are
  kept. `analyzePhoto` decides what is shown for a server reply. `displayResults` fills a partial analysis with
  placeholder strings (modules `Js` and `Client`). JavaScript falsiness, `a || b` and thrown `TypeError`s
  are spelled out.

Module `EndToEnd` composes the route with the script. For each way the route can answer, it proves what the user
sees.

Foreign code is passed in as parameters:
- `JSON.parse` is an oracle `string -> Option<Value>`, with None where it would throw.
- The model call `generateContent` is an oracle from a request to a reply text or a thrown message.
- JavaScript's `Number(s) > 0` on a string is an oracle. It is consulted only when `suggestions` is an object
  whose `length` member is a string, or a one-element array (at any nesting depth) whose innermost element is a
  string.
- The value-to-string conversion inside the rate-limit message template is also an oracle.

The upload directory is a map from path to contents. `readFileSync` fails exactly when the path is missing.

Two points about the code's behaviour:
- `server.js` calls the model exactly once and answers every failure with 500. There is no retry or backoff, and
  no 429 or 403 classification, although the notes in `api-limits-info.js` (lines 21-29) describe them. The model
  follows the code. `EndToEnd.OnlyGenericErrorsReachUser` proves a consequence: the script's rate-limit and
  access-denied messages can never appear for this server.
- When the span parses, the parsed value is adopted as it is and no missing field is filled in. The browser script
  supplies the defaults instead (`EndToEnd.PartialAnalysisFilledByClient`).

## Model

| member | source | states |
|---|---|---|
| Span.SpanBounds | server.js:90 | a match exists iff some `}` follows some `{`; it runs from the first `{` to the last `}`, has length at least 2 and starts with `{` and ends with `}` |
| Span.JsonSpan | server.js:90-91 | the span exists iff some `}` follows some `{`; it is a contiguous piece of the reply, at least 2 long, beginning with `{` and ending with `}` |
| Span.SpanBoundsIsRegexResult | server.js:90 | the computed bounds are exactly the leftmost, greedy-longest match of `\{[\s\S]*\}`, and there are none exactly when the pattern matches nowhere |
| Span.SpanOfEmbeddedObject | server.js:90 | prose without `{`, then an object text, then prose without `}` yields that object text verbatim as the span |
| Normalizer.Normalize | server.js:86-111 | every reply yields an analysis: either the parse of its span, or a placeholder whose description is the whole reply and which has exactly one string suggestion |
| Normalizer.PlaceholderMembers | server.js:95-110 | a placeholder analysis reads back its hairstyle, the reply as description, and a one-element suggestions array with the given name and reason |
| Normalizer.PlaceholderShape | server.js:95-110 | every placeholder built from a reply has the fully populated shape with the reply as description |
| Normalizer.NormalizeWithoutSpan | server.js:93-101 | with no `}` after any `{`: "Could not determine", the reply as description, and exactly the suggestion ("Consult with response", "See full analysis above") |
| Normalizer.NormalizeUnparsable | server.js:103-110 | when the span fails to parse: "Analysis completed", the reply as description, and exactly the suggestion ("See full analysis", "Complete analysis provided above") |
| Normalizer.NormalizeEmbeddedObject | server.js:90-92 | a reply embedding one object text normalizes to exactly its parse, with no field defaulted |
| Normalizer.NormalizeParsesOnlyTheSpan | server.js:90-92 | the parser is consulted on the span only: parsers agreeing there give the same analysis |
| Handler.Detect | server.js:42-135 | 400 with "No image uploaded", no model call and the directory unchanged iff no file; otherwise the upload is deleted and nothing else; the model is called at most once, with the fixed prompt, the stored bytes and the upload's MIME type; 200 iff that call produced text, carrying `success`, the normalized analysis and the reply text; otherwise 500 with "Failed to analyze hairstyle" and the failure's message as details |
| Handler.Fail | server.js:122-133 | the catch path answers 500 with the fixed error and the given details, and leaves the upload deleted |
| Handler.ErrorBodyMembers | server.js:45 | the 400 body carries the given error and no `success` |
| Handler.FailureBodyMembers | server.js:130-133 | the 500 body carries "Failed to analyze hairstyle", the details, and no `success` |
| Handler.SuccessBodyMembers | server.js:116-120 | the 200 body carries `success: true`, the analysis and the reply text as `rawResponse` |
| Client.Text | public/script.js:120-158 | each message has its own text: "No image to analyze. Please capture or upload a photo first." exactly for the no-image message, "Please select a valid image file." for a rejected upload, "API access denied. Please check your API key configuration." for 403, "Failed to analyze the hairstyle. Please try again in a few moments." for the generic failure; only the rate-limit text starts with "Rate limit exceeded. Please wait ", and it embeds the converted `retryAfter` verbatim before " seconds and try again." |
| Client.HandleFileUpload | public/script.js:106-122 | a picked file is kept iff its MIME type starts with "image/"; otherwise "Please select a valid image file." is shown and the captured image is unchanged |
| Client.CardFor | public/script.js:175-178 | a card shows the suggestion's name and reason, or "Suggested Style" and "No details available" where they are falsy |
| Client.RenderCards | public/script.js:171-180 | one card per suggestion, in order, each with its defaults; rendering throws iff some suggestion is null |
| Client.RenderSuggestions | public/script.js:170-183 | a falsy or empty suggestions value gives the placeholder line; a non-empty array gives its cards; a non-array with positive length throws |
| Client.DisplayResults | public/script.js:164-191 | throws for a null or undefined analysis; otherwise shows the hairstyle or "Unknown", the description or "No description available", the suggestions, and the raw reply or "No detailed analysis available"; the three text fields are never falsy |
| Client.Interpret | public/script.js:132-161 | results iff the body's `success` is truthy and display succeeds; 429 shows the rate-limit message with `retryAfter` or 5; 403 shows access denied; every other case shows the generic failure |
| Client.AnalyzePhoto | public/script.js:124-162 | without an image nothing is posted and "No image to analyze..." is shown; otherwise the image is posted and the reply interpreted |
| Client.ErrorMemberNeverShown | public/script.js:152-158 | removing the body's `error` member never changes the screen |
| Client.GenericFailureText | public/script.js:152-158 | a failed reply with a status other than 429 and 403 shows the fixed generic failure text |
| Client.UploadDecidesWhatIsPosted | public/script.js:106-128 | after an accepted upload analyzePhoto posts that file; after a rejected one it behaves exactly as before |
| EndToEnd.OnlyGenericErrorsReachUser | server.js:130-133 | every error the user sees for this server is the generic failure, never rate-limit or access-denied |
| EndToEnd.RouteFailureShowsGenericMessage | server.js:42-135 | a 400 or 500 from the route shows the generic failure message |
| EndToEnd.PlaceholderShown | public/script.js:164-186 | a placeholder analysis is shown with its hairstyle, the reply text (or its placeholder when empty) and exactly one card |
| EndToEnd.ReplyWithoutSpanShown | server.js:93-101 | a reply without a JSON span shows "Could not determine", the reply, and the one card ("Consult with response", "See full analysis above") |
| EndToEnd.UnparsableReplyShown | server.js:103-110 | a reply whose span does not parse shows "Analysis completed", the reply, and the one card ("See full analysis", "Complete analysis provided above") |
| EndToEnd.PartialAnalysisFilledByClient | server.js:91-92 | a parsed object lacking `currentHairstyle`, `description` and `suggestions`, whatever else it holds, reaches the browser unfilled and is shown as "Unknown", "No description available", the no-suggestions line and the reply |
| EndToEnd.RawReplyAlwaysShown | server.js:116-120 | whenever results are shown, the complete-analysis section holds the model's reply text, whichever normalization path was taken |

## Left out

- Retry with backoff and status classification on the server: the code has neither. `server.js` calls `generateContent` once (line 82) and maps every failure to 500. `api-limits-info.js` holds only comments and constants.
- `JSON.parse`, `generateContent` and `response.text()` are oracles. Their internals are foreign library code.
- JSON numbers are reals, not IEEE doubles. JSON has no NaN, so truthiness of numbers is `n != 0`.
- `res.json` serialization followed by `response.json()` is taken as the identity on JSON values.
- File-system failures other than a missing upload are not modelled: permission errors on read, and a failing `unlinkSync` inside or outside the catch block. Multer storage, base64 encoding, express routing, CORS and static serving are plumbing.
- The health-check endpoint and its client fetch are left out. They make no decision.
- DOM work is left out: camera access, `capturePhoto`, `retakePhoto`, `toggleRawAnalysis`, `resetForNewAnalysis`, the loading indicator, scrolling, and the timed removal of messages. Partial DOM writes made before a thrown error are not recorded either; only the message that follows is. A captured camera photo enters the model only as an `ImageFile` value.
- Client.Text: the rate-limit message renders `retryAfter` through an oracle for JavaScript's template-literal string conversion, which is not modelled.
- Json.Member: property reads of names other than `length` give `undefined` on strings, arrays, numbers and booleans. Prototype properties and objects with own `valueOf`/`toString` members are not modelled.
- Values written with `textContent` or `innerHTML` are recorded as JSON values. Their conversion to text and HTML interpretation are not modelled.
