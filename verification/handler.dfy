/**
 * The POST /api/detect-hairstyle route of server.js. The uploaded image is
 * read from the upload directory, sent once to the generative model with a
 * fixed prompt, and the reply is normalized. Every failure after the
 * upload check becomes a 500; the uploaded file is deleted on both the
 * success and the failure path. The model call and JSON.parse are
 * parameters; the upload directory is a map from path to contents.
 */
module Handler {
  import opened Wrappers
  import opened Json
  import opened Normalizer

  type Bytes = seq<bv8>

  /** The upload directory: path of each stored file to its contents. */
  type Disk = map<string, Bytes>

  /** `req.file` as multer fills it in: where the upload was stored and its declared type. */
  datatype UploadedFile = UploadedFile(path: string, mimeType: string)

  /** One generateContent call: model name, prompt, image bytes and their mime type. */
  datatype ModelRequest = ModelRequest(model: string, prompt: string, image: Bytes, mimeType: string)

  /** What the call yields: the reply's text, or the message of the error it threw. */
  datatype ModelReply = Generated(text: string) | Rejected(message: string)

  /** The foreign code the route calls into. */
  datatype Services = Services(generate: ModelRequest -> ModelReply, parse: Parser)

  datatype Response = Response(status: nat, body: Value)

  /** The route's effect: the response sent, the model calls made, and the upload directory afterwards. */
  datatype Handled = Handled(response: Response, calls: seq<ModelRequest>, disk: Disk)

  const ModelName := "gemini-1.5-pro"

  const Prompt :=
    "Analyze this image and identify the person's hairstyle. Please provide:\n"
    + "    1. The current hairstyle name\n"
    + "    2. A brief description of the current hairstyle\n"
    + "    3. 3 suggested better hairstyles that would suit this person's face shape and features\n"
    + "    4. Brief explanations for why each suggested hairstyle would work well\n"
    + "    \n"
    + "    Please format your response as JSON with the following structure:\n"
    + "    {\n"
    + "      \"currentHairstyle\": \"name of current hairstyle\",\n"
    + "      \"description\": \"description of current hairstyle\",\n"
    + "      \"suggestions\": [\n"
    + "        {\n"
    + "          \"name\": \"suggested hairstyle name\",\n"
    + "          \"reason\": \"why this would work well\"\n"
    + "        }\n"
    + "      ]\n"
    + "    }"

  const NoImageError := "No image uploaded"
  const FailureError := "Failed to analyze hairstyle"

  /** The model call the route makes for `upload` once its stored bytes are read. */
  function RequestFor(upload: UploadedFile, disk: Disk): ModelRequest
    requires upload.path in disk
  {
    ModelRequest(ModelName, Prompt, disk[upload.path], upload.mimeType)
  }

  /** The message Node's readFileSync throws for a path that does not exist. */
  function MissingFileMessage(path: string): string {
    "ENOENT: no such file or directory, open '" + path + "'"
  }

  function ErrorBody(error: string): Value {
    Object([("error", Str(error))])
  }

  function FailureBody(details: string): Value {
    Object([("error", Str(FailureError)), ("details", Str(details))])
  }

  function SuccessBody(analysis: Value, text: string): Value {
    Object([("success", Bool(true)), ("analysis", analysis), ("rawResponse", Str(text))])
  }

  /** The catch block: delete the upload if it still exists, answer 500 with the error's message. */
  function Fail(path: string, details: string, calls: seq<ModelRequest>, disk: Disk): (h: Handled)
    ensures h.response.status == 500 && h.calls == calls && h.disk == disk - {path}
    ensures Member(h.response.body, "error") == Some(Str(FailureError))
    ensures Member(h.response.body, "details") == Some(Str(details))
    ensures Member(h.response.body, "success").None?
  {
    FailureBodyMembers(details);
    var cleaned := if path in disk then disk - {path} else disk;
    Handled(Response(500, FailureBody(details)), calls, cleaned)
  }

  /** The route handler for the upload `file` (None when the form carried no image). */
  function Detect(file: Option<UploadedFile>, disk: Disk, services: Services): (h: Handled)
    ensures h.response.status in {200, 400, 500}
    ensures h.response.status == 400 <==> file.None?
    ensures file.None? ==>
      && Member(h.response.body, "error") == Some(Str(NoImageError))
      && h.calls == [] && h.disk == disk
    ensures file.Some? ==> h.disk == disk - {file.value.path}
    ensures |h.calls| <= 1
    ensures file.Some? ==> (|h.calls| == 1 <==> file.value.path in disk)
    ensures forall c :: c in h.calls ==>
      && file.Some? && file.value.path in disk
      && c == ModelRequest(ModelName, Prompt, disk[file.value.path], file.value.mimeType)
    ensures h.response.status == 200 <==> |h.calls| == 1 && services.generate(h.calls[0]).Generated?
    ensures h.response.status != 200 ==> Member(h.response.body, "success").None?
    ensures h.response.status == 200 ==>
      var text := services.generate(h.calls[0]).text;
      && Member(h.response.body, "success") == Some(Bool(true))
      && Member(h.response.body, "analysis") == Some(Normalize(text, services.parse))
      && Member(h.response.body, "rawResponse") == Some(Str(text))
    ensures h.response.status == 500 ==>
      && Member(h.response.body, "error") == Some(Str(FailureError))
      && Member(h.response.body, "details").Some?
      && Member(h.response.body, "details").value.Str?
      && var details := Member(h.response.body, "details").value.s;
      || (h.calls == [] && file.Some? && details == MissingFileMessage(file.value.path))
      || (|h.calls| == 1 && services.generate(h.calls[0]) == Rejected(details))
  {
    match file
    case None =>
      ErrorBodyMembers(NoImageError);
      Handled(Response(400, ErrorBody(NoImageError)), [], disk)
    case Some(upload) =>
      var path := upload.path;
      if path !in disk then
        Fail(path, MissingFileMessage(path), [], disk)
      else
        var request := RequestFor(upload, disk);
        match services.generate(request)
        case Rejected(message) =>
          Fail(path, message, [request], disk)
        case Generated(text) =>
          var analysis := Normalize(text, services.parse);
          SuccessBodyMembers(analysis, text);
          Handled(Response(200, SuccessBody(analysis, text)), [request], disk - {path})
  }

  lemma ErrorBodyMembers(e: string)
    ensures Member(ErrorBody(e), "error") == Some(Str(e))
    ensures Member(ErrorBody(e), "success").None?
  {
  }

  lemma FailureBodyMembers(d: string)
    ensures Member(FailureBody(d), "error") == Some(Str(FailureError))
    ensures Member(FailureBody(d), "details") == Some(Str(d))
    ensures Member(FailureBody(d), "success").None?
  {
    var m := FailureBody(d).members;
    assert m[..1] == [m[0]];
  }

  lemma SuccessBodyMembers(a: Value, t: string)
    ensures Member(SuccessBody(a, t), "success") == Some(Bool(true))
    ensures Member(SuccessBody(a, t), "analysis") == Some(a)
    ensures Member(SuccessBody(a, t), "rawResponse") == Some(Str(t))
  {
    var m := SuccessBody(a, t).members;
    assert m[..2] == [m[0], m[1]];
    assert m[..2][..1] == [m[0]];
  }
}
