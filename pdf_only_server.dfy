/**
 * The PDF-only server under apps/web/apps/web: every upload goes to the PDF parser
 * (there is no MIME check), the text is embedded in a template prompt between
 * "Invoice Text:" / "---" lines, the reply is fence-stripped, and an unparsable reply
 * gets its own 500. Only GEMINI_API_KEY is checked at startup.
 */
module PdfOnlyServer {
  import opened Wrappers
  import opened Js
  import opened Pipeline
  import Recovery

  /** The template prompt up to the embedded text, and after it. */
  const PromptHead: string :=
    "\n" +
    "      Analyze the following invoice text and extract the vendor's name and the invoice number.\n" +
    "      Return the answer ONLY as a valid JSON object with the keys \"vendorName\" and \"invoiceNumber\".\n" +
    "      If you cannot find a value, return an empty string for that key.\n" +
    "      Example: {\"vendorName\": \"Acme Corp\", \"invoiceNumber\": \"INV-12345\"}\n" +
    "      \n" +
    "      Invoice Text:\n" +
    "      ---\n" +
    "      "
  const PromptTail: string :=
    "\n" +
    "      ---\n" +
    "    "

  const NoFile: string := "No file was uploaded."
  const Unreadable: string := "Could not read text from the PDF."
  const BadFormat: string := "The AI returned an unexpected format. Please try again."
  const InternalError: string := "An internal server error occurred during extraction."

  /** The startup check: GEMINI_API_KEY only. */
  function Startup(env: map<string, string>): (r: Pipeline.Startup)
    ensures r == Listen <==> Defined(env, "GEMINI_API_KEY")
    ensures r != Listen ==> r == Fatal("GEMINI_API_KEY")
  {
    var required := ["GEMINI_API_KEY"];
    assert required[0] == "GEMINI_API_KEY";
    CheckEnv(env, required)
  }

  /** A text placed between a head and a tail. */
  function Embed(head: string, text: string, tail: string): string {
    head + text + tail
  }

  /** The text between a head and a tail: the inverse of `Embed`. */
  function Unembed(head: string, tail: string, p: string): string
    requires |p| >= |head| + |tail|
  {
    p[|head|..|p| - |tail|]
  }

  /** An embedded text is read back unchanged. */
  lemma EmbedRoundTrip(head: string, text: string, tail: string)
    ensures |Embed(head, text, tail)| >= |head| + |tail|
    ensures Unembed(head, tail, Embed(head, text, tail)) == text
  {
    var p := Embed(head, text, tail);
    assert p == head + (text + tail);
  }

  /**
   * `/extract` up to the gateway call, for a template with the given halves: no MIME
   * check, the buffer goes straight to the PDF parser and its text is embedded verbatim.
   */
  function Plan<J>(head: string, tail: string, file: Option<Upload>, pdfParse: Bytes -> Outcome<string>): (s: Step<J>)
    ensures s.Call? <==> file.Some? && pdfParse(file.value.buffer).Returned? && pdfParse(file.value.buffer).value != ""
    ensures s.Call? ==> s.request == TextPrompt(Embed(head, pdfParse(file.value.buffer).value, tail))
    ensures file.None? ==> s == Respond(Response(400, ErrorBody(NoFile)))
    ensures file.Some? && pdfParse(file.value.buffer) == Returned("") ==> s == Respond(Response(400, ErrorBody(Unreadable)))
    ensures file.Some? && pdfParse(file.value.buffer).Threw? ==> s == Respond(Response(500, ErrorBody(InternalError)))
  {
    if file.None? then Respond(Response(400, ErrorBody(NoFile)))
    else
      match pdfParse(file.value.buffer)
      case Threw => Respond(Response(500, ErrorBody(InternalError)))
      case Returned(pdfText) =>
        if pdfText == "" then Respond(Response(400, ErrorBody(Unreadable)))
        else Call(TextPrompt(Embed(head, pdfText, tail)))
  }

  /** `/extract` from the gateway's reply on: fence stripping, `JSON.parse`, the status. */
  function Finish<J>(reply: Outcome<string>, parse: string -> ParseOutcome<J>): (r: Response<J>)
    ensures r.status == 200 <==> reply.Returned? && parse(Recovery.StripFences(reply.value)).Parsed?
    ensures r.status == 200 ==> r.body == JsonBody(parse(Recovery.StripFences(reply.value)).value)
    ensures r.status != 200 ==> r.status == 500
    ensures reply.Returned? && r.status == 500 ==> r.body == ErrorBody(BadFormat)
    ensures reply.Threw? ==> r == Response(500, ErrorBody(InternalError))
  {
    match reply
    case Threw => Response(500, ErrorBody(InternalError))
    case Returned(responseText) =>
      match parse(Recovery.StripFences(responseText))
      case SyntaxError => Response(500, ErrorBody(BadFormat))
      case Parsed(extractedData) => Response(200, JsonBody(extractedData))
  }

  /** The `/extract` handler for a template with the given halves. */
  function ExtractWithTemplate<J>(head: string, tail: string, file: Option<Upload>, pdfParse: Bytes -> Outcome<string>,
                                  gateway: GatewayRequest -> Outcome<string>,
                                  parse: string -> ParseOutcome<J>): (r: Response<J>)
    ensures r.status in {200, 400, 500}
    ensures r.status == 200 <==> r.body.JsonBody?
    ensures r.body.ErrorBody? ==> r.body.error in {NoFile, Unreadable, BadFormat, InternalError}
  {
    Run(Plan(head, tail, file, pdfParse), gateway, reply => Finish(reply, parse))
  }

  /** The `/extract` handler with its fixed template. */
  function Extract<J>(file: Option<Upload>, pdfParse: Bytes -> Outcome<string>,
                      gateway: GatewayRequest -> Outcome<string>,
                      parse: string -> ParseOutcome<J>): (r: Response<J>)
    ensures r.status in {200, 400, 500}
    ensures r.status == 200 <==> r.body.JsonBody?
    ensures r.body.ErrorBody? ==> r.body.error in {NoFile, Unreadable, BadFormat, InternalError}
    ensures file.None? ==> r == Response(400, ErrorBody(NoFile))
  {
    ExtractWithTemplate(PromptHead, PromptTail, file, pdfParse, gateway, parse)
  }

  /** Whatever its declared type, an upload with empty text is a 400 that does not depend on the gateway. */
  lemma EmptyTextSkipsGateway<J>(head: string, tail: string, f: Upload, pdfParse: Bytes -> Outcome<string>,
                                 g1: GatewayRequest -> Outcome<string>, g2: GatewayRequest -> Outcome<string>,
                                 parse: string -> ParseOutcome<J>)
    requires pdfParse(f.buffer) == Returned("")
    ensures ExtractWithTemplate(head, tail, Some(f), pdfParse, g1, parse)
            == ExtractWithTemplate(head, tail, Some(f), pdfParse, g2, parse)
            == Response(400, ErrorBody(Unreadable))
  {
  }

  /** MONGODB_URI is not among the startup checks: a missing store address is not fatal. */
  lemma StoreAddressNotChecked(env: map<string, string>)
    requires Defined(env, "GEMINI_API_KEY") && !Defined(env, "MONGODB_URI")
    ensures Startup(env) == Listen
  {
  }
}
