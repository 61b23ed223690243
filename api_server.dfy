/**
 * The API server under apps/web/apps/api: `/extract` with MIME dispatch, the PDF text
 * appended after a "---TEXT---" delimiter, brace-substring recovery and a dedicated
 * 500 for an unparsable reply; `DELETE /invoices/:id`; the startup checks.
 */
module ApiServer {
  import opened Wrappers
  import opened Js
  import opened Pipeline
  import Recovery

  const Prompt: string :=
    "\n" +
    "      Analyze the document and extract all invoice information.\n" +
    "      Return ONLY a valid JSON object with this exact structure:\n" +
    "      {\n" +
    "        \"vendor\": { \"name\": \"string\", \"address\": \"string\", \"taxId\": \"string\" },\n" +
    "        \"invoice\": { \"number\": \"string\", \"date\": \"string\", \"currency\": \"string\", \"subtotal\": number, \"taxPercent\": number, \"total\": number, \"poNumber\": \"string\", \"poDate\": \"string\" },\n" +
    "        \"lineItems\": [{ \"description\": \"string\", \"unitPrice\": number, \"quantity\": number, \"total\": number }]\n" +
    "      }\n" +
    "      If a value isn't found, use \"\" for strings and 0 for numbers.\n" +
    "    "
  const TextDelimiter: string := "\n\n---TEXT---\n"

  const NoFile: string := "No file was uploaded."
  const Unreadable: string := "Could not read text from PDF."
  const Unsupported: string := "Unsupported file type."
  const BadFormat: string := "AI returned an unexpected format. Please try again."
  const InternalError: string := "An internal server error occurred."

  /**
   * Starting the server: GEMINI_API_KEY is checked first, then MONGODB_URI; only then is
   * the database connection made, and the server listens only once it succeeds.
   * `connects(uri)` is whether `mongoose.connect(uri)` resolves; a rejection exits.
   */
  function Startup(env: map<string, string>, connects: string -> bool): (r: Pipeline.Startup)
    ensures r == Listen <==>
              Defined(env, "GEMINI_API_KEY") && Defined(env, "MONGODB_URI") && connects(env["MONGODB_URI"])
    ensures !Defined(env, "GEMINI_API_KEY") ==> r == Fatal("GEMINI_API_KEY")
    ensures Defined(env, "GEMINI_API_KEY") && !Defined(env, "MONGODB_URI") ==> r == Fatal("MONGODB_URI")
    ensures r == ConnectFailed <==>
              Defined(env, "GEMINI_API_KEY") && Defined(env, "MONGODB_URI") && !connects(env["MONGODB_URI"])
  {
    var required := ["GEMINI_API_KEY", "MONGODB_URI"];
    assert required[0] == "GEMINI_API_KEY" && required[1] == "MONGODB_URI";
    match CheckEnv(env, required)
    case Listen => if connects(env["MONGODB_URI"]) then Listen else ConnectFailed
    case other => other
  }

  const Messages: InputMessages := InputMessages(NoFile, Unreadable, Unsupported, InternalError)

  /**
   * The `/extract` handler for a given prompt: the shared MIME dispatch with this
   * handler's delimiter and messages, the gateway, then `Pipeline.BraceFinish` with
   * its two 500 messages.
   */
  function ExtractWithPrompt<J>(prompt: string, file: Option<Upload>, pdfParse: Bytes -> Outcome<string>,
                                gateway: GatewayRequest -> Outcome<string>,
                                parse: string -> ParseOutcome<J>): (r: Response<J>)
    ensures r.status in {200, 400, 500}
    ensures r.status == 200 <==> r.body.JsonBody?
    ensures r.body.ErrorBody? ==> r.body.error in {NoFile, Unsupported, Unreadable, BadFormat, InternalError}
  {
    Run(Dispatch(prompt, TextDelimiter, Messages, file, pdfParse), gateway,
        reply => BraceFinish(reply, parse, BadFormat, InternalError))
  }

  /** The `/extract` handler with its fixed prompt. */
  function Extract<J>(file: Option<Upload>, pdfParse: Bytes -> Outcome<string>,
                      gateway: GatewayRequest -> Outcome<string>,
                      parse: string -> ParseOutcome<J>): (r: Response<J>)
    ensures r.status in {200, 400, 500}
    ensures r.status == 200 <==> r.body.JsonBody?
    ensures r.body.ErrorBody? ==> r.body.error in {NoFile, Unsupported, Unreadable, BadFormat, InternalError}
    ensures file.None? ==> r == Response(400, ErrorBody(NoFile))
  {
    ExtractWithPrompt(Prompt, file, pdfParse, gateway, parse)
  }

  /**
   * No file, an unsupported type, or a PDF with no text: the answer is a 400 and is
   * the same whatever the gateway would have said, so the gateway is not consulted.
   */
  lemma InputErrorsSkipGateway<J>(prompt: string, file: Option<Upload>, pdfParse: Bytes -> Outcome<string>,
                                  g1: GatewayRequest -> Outcome<string>, g2: GatewayRequest -> Outcome<string>,
                                  parse: string -> ParseOutcome<J>)
    requires || file.None?
             || RouteOf(file.value.mimetype) == UnsupportedRoute
             || (RouteOf(file.value.mimetype) == PdfRoute && pdfParse(file.value.buffer) == Returned(""))
    ensures ExtractWithPrompt(prompt, file, pdfParse, g1, parse) == ExtractWithPrompt(prompt, file, pdfParse, g2, parse)
    ensures ExtractWithPrompt(prompt, file, pdfParse, g1, parse).status == 400
  {
  }

  /** A `text/plain` upload is refused with the unsupported-type message. */
  lemma PlainTextRefused<J>(prompt: string, buffer: Bytes, pdfParse: Bytes -> Outcome<string>,
                            gateway: GatewayRequest -> Outcome<string>, parse: string -> ParseOutcome<J>)
    ensures ExtractWithPrompt(prompt, Some(Upload("text/plain", buffer)), pdfParse, gateway, parse)
            == Response(400, ErrorBody(Unsupported))
  {
    assert !("image/" <= "text/plain") by { assert "text/plain"[0] != "image/"[0]; }
  }

  /** A readable PDF is sent as the prompt, the delimiter and the text, in that order. */
  lemma PdfPrompt<J>(prompt: string, f: Upload, pdfParse: Bytes -> Outcome<string>, text: string)
    requires f.mimetype == "application/pdf" && pdfParse(f.buffer) == Returned(text) && text != ""
    ensures Dispatch<J>(prompt, TextDelimiter, Messages, Some(f), pdfParse) == Call(TextPrompt(prompt + TextDelimiter + text))
  {
  }

  /**
   * A reply with no brace at all yields the empty candidate, which `JSON.parse`
   * rejects: the answer is the fixed 500, never the raw reply.
   */
  lemma BracelessReplyIsBadFormat<J>(text: string, parse: string -> ParseOutcome<J>)
    requires '{' !in text && '}' !in text
    requires parse("").SyntaxError?
    ensures BraceFinish(Returned(text), parse, BadFormat, InternalError) == Response(500, ErrorBody(BadFormat))
  {
    Recovery.BraceNone(text);
  }

  /** A reply whose outer brace span parses is answered with exactly the parsed value. */
  lemma SpanParsed<J>(text: string, i: int, j: int, parse: string -> ParseOutcome<J>, v: J)
    requires FirstAt(text, '{', i) && LastAt(text, '}', j) && i < j
    requires parse(text[i..j + 1]) == Parsed(v)
    ensures BraceFinish(Returned(text), parse, BadFormat, InternalError) == Response(200, JsonBody(v))
  {
    Recovery.BraceSpan(text, i, j);
  }
}
