/**
 * What the `/extract` handlers, the delete handlers and the startup checks share once
 * Express, multer, pdf-parse, the AI gateway and the document store are taken out:
 * the uploaded file, the requests sent to the gateway, the HTTP responses, the
 * MIME dispatch and the environment check.
 *
 * The foreign calls enter as parameters: `pdfParse` stands for pdf-parse on the
 * upload's buffer, `gateway` for `model.generateContent(...)` followed by
 * `result.response.text()`, and `parse` for `JSON.parse`. Each may throw; a throw
 * ends in the handler's outer catch.
 */
module Pipeline {
  import opened Wrappers
  import Recovery

  type Bytes = seq<bv8>

  /** `req.file` as multer's memory storage hands it over. */
  datatype Upload = Upload(mimetype: string, buffer: Bytes)

  /** What is sent to the gateway: the prompt alone, or the prompt with the image inline. */
  datatype GatewayRequest =
    | TextPrompt(prompt: string)
    | PromptWithImage(prompt: string, mimeType: string, data: Bytes)
  {
    function Prompt(): string {
      match this
      case TextPrompt(p) => p
      case PromptWithImage(p, _, _) => p
    }
  }

  /** The outcome of `JSON.parse`: a value, or a thrown SyntaxError. */
  datatype ParseOutcome<J> = Parsed(value: J) | SyntaxError

  datatype Body<J> = ErrorBody(error: string) | JsonBody(json: J) | MessageBody(message: string)

  /** `res.status(status).json(body)`. */
  datatype Response<J> = Response(status: int, body: Body<J>)

  /** Where a handler stands when it reaches the gateway call: it has already answered, or it calls. */
  datatype Step<J> = Respond(response: Response<J>) | Call(request: GatewayRequest)

  /** The handler: the steps before the gateway, the call, the steps after it. */
  function Run<J>(step: Step<J>, gateway: GatewayRequest -> Outcome<string>,
                  finish: Outcome<string> -> Response<J>): Response<J>
  {
    match step
    case Respond(r) => r
    case Call(q) => finish(gateway(q))
  }

  datatype Route = ImageRoute | PdfRoute | UnsupportedRoute

  /** The MIME dispatch: `startsWith('image/')` first, then exactly `application/pdf`, otherwise unsupported. */
  function RouteOf(mimetype: string): (r: Route)
    ensures r == ImageRoute <==> "image/" <= mimetype
    ensures r == PdfRoute <==> mimetype == "application/pdf"
    ensures r == UnsupportedRoute <==> !("image/" <= mimetype) && mimetype != "application/pdf"
  {
    if "image/" <= mimetype then
      assert mimetype[0] == 'i' != "application/pdf"[0];
      ImageRoute
    else if mimetype == "application/pdf" then PdfRoute
    else UnsupportedRoute
  }

  /** The PDF prompt: the fixed prompt, a delimiter, then the extracted text. */
  function PromptWithText(prompt: string, delimiter: string, text: string): string {
    prompt + delimiter + text
  }

  /** The PDF prompt is the fixed prompt, then the delimiter, then the text, each in its own slice. */
  lemma PromptWithTextParts(prompt: string, delimiter: string, text: string)
    ensures |PromptWithText(prompt, delimiter, text)| == |prompt| + |delimiter| + |text|
    ensures PromptWithText(prompt, delimiter, text)[..|prompt|] == prompt
    ensures PromptWithText(prompt, delimiter, text)[|prompt|..|prompt| + |delimiter|] == delimiter
    ensures PromptWithText(prompt, delimiter, text)[|prompt| + |delimiter|..] == text
  {
    var p := PromptWithText(prompt, delimiter, text);
    assert p == prompt + (delimiter + text);
  }

  /** Distinct PDF texts give distinct prompts: the text can be read back from the prompt. */
  lemma PromptWithTextInjective(prompt: string, delimiter: string, t1: string, t2: string)
    requires PromptWithText(prompt, delimiter, t1) == PromptWithText(prompt, delimiter, t2)
    ensures t1 == t2
  {
    PromptWithTextParts(prompt, delimiter, t1);
    PromptWithTextParts(prompt, delimiter, t2);
  }

  /** The messages a dispatching `/extract` answers the four input problems with. */
  datatype InputMessages = InputMessages(noFile: string, unreadable: string, unsupported: string, internalError: string)

  /**
   * `/extract` up to the gateway call, for the three handlers that dispatch on the
   * MIME type: they differ only in the prompt, the delimiter before PDF text and the
   * messages.
   */
  function Dispatch<J>(prompt: string, delimiter: string, msgs: InputMessages,
                       file: Option<Upload>, pdfParse: Bytes -> Outcome<string>): (s: Step<J>)
    ensures s.Call? <==>
      file.Some? &&
      (RouteOf(file.value.mimetype) == ImageRoute ||
       (RouteOf(file.value.mimetype) == PdfRoute && pdfParse(file.value.buffer).Returned? &&
        pdfParse(file.value.buffer).value != ""))
    ensures s.Call? ==>
      s.request == if RouteOf(file.value.mimetype) == ImageRoute
                   then PromptWithImage(prompt, file.value.mimetype, file.value.buffer)
                   else TextPrompt(PromptWithText(prompt, delimiter, pdfParse(file.value.buffer).value))
    ensures file.None? ==> s == Respond(Response(400, ErrorBody(msgs.noFile)))
    ensures file.Some? && RouteOf(file.value.mimetype) == UnsupportedRoute ==>
      s == Respond(Response(400, ErrorBody(msgs.unsupported)))
    ensures file.Some? && RouteOf(file.value.mimetype) == PdfRoute && pdfParse(file.value.buffer) == Returned("") ==>
      s == Respond(Response(400, ErrorBody(msgs.unreadable)))
    ensures file.Some? && RouteOf(file.value.mimetype) == PdfRoute && pdfParse(file.value.buffer).Threw? ==>
      s == Respond(Response(500, ErrorBody(msgs.internalError)))
  {
    if file.None? then Respond(Response(400, ErrorBody(msgs.noFile)))
    else
      var f := file.value;
      match RouteOf(f.mimetype)
      case ImageRoute => Call(PromptWithImage(prompt, f.mimetype, f.buffer))
      case PdfRoute =>
        (match pdfParse(f.buffer)
         case Threw => Respond(Response(500, ErrorBody(msgs.internalError)))
         case Returned(text) =>
           if text == "" then Respond(Response(400, ErrorBody(msgs.unreadable)))
           else Call(TextPrompt(PromptWithText(prompt, delimiter, text))))
      case UnsupportedRoute => Respond(Response(400, ErrorBody(msgs.unsupported)))
  }

  /** Whatever the route, the gateway is always sent the fixed prompt first. */
  lemma DispatchSendsPromptFirst<J>(prompt: string, delimiter: string, msgs: InputMessages,
                                    file: Option<Upload>, pdfParse: Bytes -> Outcome<string>)
    requires Dispatch<J>(prompt, delimiter, msgs, file, pdfParse).Call?
    ensures prompt <= Dispatch<J>(prompt, delimiter, msgs, file, pdfParse).request.Prompt()
  {
    var f := file.value;
    if RouteOf(f.mimetype) != ImageRoute {
      PromptWithTextParts(prompt, delimiter, pdfParse(f.buffer).value);
    }
  }

  /**
   * The brace-recovering handlers after the gateway call: the brace candidate of the
   * reply goes to `JSON.parse`. An unparsable candidate is answered with `badFormat`
   * (the inner catch), a failed call with `internalError` (the outer catch).
   */
  function BraceFinish<J>(reply: Outcome<string>, parse: string -> ParseOutcome<J>,
                          badFormat: string, internalError: string): (r: Response<J>)
    ensures r.status == 200 <==> reply.Returned? && parse(Recovery.BraceCandidate(reply.value)).Parsed?
    ensures r.status == 200 ==> r.body == JsonBody(parse(Recovery.BraceCandidate(reply.value)).value)
    ensures r.status != 200 ==> r.status == 500
    ensures reply.Returned? && r.status == 500 ==> r.body == ErrorBody(badFormat)
    ensures reply.Threw? ==> r == Response(500, ErrorBody(internalError))
  {
    match reply
    case Threw => Response(500, ErrorBody(internalError))
    case Returned(responseText) =>
      match parse(Recovery.BraceCandidate(responseText))
      case SyntaxError => Response(500, ErrorBody(badFormat))
      case Parsed(extractedData) => Response(200, JsonBody(extractedData))
  }

  /**
   * The outcome of starting a server: it listens, exits on a missing variable, or
   * exits because the database connection it waits for was rejected.
   */
  datatype Startup = Listen | Fatal(variable: string) | ConnectFailed

  /** `!process.env[name]` is false: the variable is set and not empty. */
  predicate Defined(env: map<string, string>, name: string) {
    name in env && env[name] != ""
  }

  /** The startup checks, in order: the first variable that is unset or empty is fatal. */
  function CheckEnv(env: map<string, string>, required: seq<string>): (r: Startup)
    ensures r == Listen <==> forall k :: 0 <= k < |required| ==> Defined(env, required[k])
    ensures r.Fatal? ==> r.variable in required && !Defined(env, r.variable)
    ensures !r.ConnectFailed?
  {
    if required == [] then Listen
    else if !Defined(env, required[0]) then Fatal(required[0])
    else
      assert forall k :: 1 <= k < |required| ==> required[k] == required[1..][k - 1];
      CheckEnv(env, required[1..])
  }

  /** The variable reported is the first one, in the order checked, that is missing. */
  lemma {:induction false} CheckEnvReportsFirstMissing(env: map<string, string>, required: seq<string>, k: int)
    requires 0 <= k < |required| && !Defined(env, required[k])
    requires forall m :: 0 <= m < k ==> Defined(env, required[m])
    ensures CheckEnv(env, required) == Fatal(required[k])
  {
    if k > 0 {
      assert Defined(env, required[0]);
      forall m | 0 <= m < k - 1 ensures Defined(env, required[1..][m]) {
        assert required[1..][m] == required[m + 1];
      }
      CheckEnvReportsFirstMissing(env, required[1..], k - 1);
    }
  }

  const InvoiceNotFound: string := "Invoice not found."
  const InvoiceDeleted: string := "Invoice deleted successfully."
  const DeleteFailed: string := "Failed to delete invoice."

  /**
   * `DELETE /invoices/:id`: the store's `findByIdAndDelete` either throws or returns the
   * deleted document, null when no document had that id.
   */
  function DeleteResponse<D, J>(store: Outcome<Option<D>>): (r: Response<J>)
    ensures r.status == 404 <==> store == Returned(None)
    ensures r.status == 200 <==> store.Returned? && store.value.Some?
    ensures r.status == 500 <==> store.Threw?
    ensures r.status == 404 ==> r.body == ErrorBody(InvoiceNotFound)
    ensures r.status == 200 ==> r.body == MessageBody(InvoiceDeleted)
    ensures r.status == 500 ==> r.body == ErrorBody(DeleteFailed)
  {
    match store
    case Threw => Response(500, ErrorBody(DeleteFailed))
    case Returned(None) => Response(404, ErrorBody(InvoiceNotFound))
    case Returned(Some(_)) => Response(200, MessageBody(InvoiceDeleted))
  }
}
