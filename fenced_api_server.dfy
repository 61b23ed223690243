/**
 * The API server under apps/api: `/extract` with MIME dispatch, PDF text appended
 * after a "Document Text:" delimiter and fence-stripping recovery. A reply that does
 * not parse has no branch of its own and ends in the outer catch, like a gateway
 * failure. `DELETE /invoices/:id` is `Pipeline.DeleteResponse`; the startup checks
 * are the same two as in the other API server.
 */
module FencedApiServer {
  import opened Wrappers
  import opened Js
  import opened Pipeline
  import Recovery

  const Prompt: string :=
    "\n" +
    "      Analyze the following document (which could be an image or text from a PDF) and extract all relevant invoice information.\n" +
    "      Return the answer ONLY as a valid JSON object. Do not include any other text or markdown.\n" +
    "      The JSON object must have this exact structure:\n" +
    "      {\n" +
    "        \"vendor\": { \"name\": \"string\", \"address\": \"string\", \"taxId\": \"string\" },\n" +
    "        \"invoice\": { \"number\": \"string\", \"date\": \"string\", \"currency\": \"string\", \"subtotal\": number, \"taxPercent\": number, \"total\": number, \"poNumber\": \"string\", \"poDate\": \"string\" },\n" +
    "        \"lineItems\": [{ \"description\": \"string\", \"unitPrice\": number, \"quantity\": number, \"total\": number }]\n" +
    "      }\n" +
    "      If any value is not found, use an empty string \"\" for strings and 0 for numbers.\n" +
    "    "
  const TextDelimiter: string := "\n\nDocument Text:\n---\n"

  const NoFile: string := "No file was uploaded."
  const Unreadable: string := "Could not read text from the PDF."
  const Unsupported: string := "Unsupported file type. Please upload a PDF or an image."
  const InternalError: string := "An internal server error occurred during extraction."

  /** The startup checks: GEMINI_API_KEY first, then MONGODB_URI. */
  function Startup(env: map<string, string>): (r: Pipeline.Startup)
    ensures r == Listen <==> Defined(env, "GEMINI_API_KEY") && Defined(env, "MONGODB_URI")
    ensures !Defined(env, "GEMINI_API_KEY") ==> r == Fatal("GEMINI_API_KEY")
    ensures Defined(env, "GEMINI_API_KEY") && !Defined(env, "MONGODB_URI") ==> r == Fatal("MONGODB_URI")
  {
    var required := ["GEMINI_API_KEY", "MONGODB_URI"];
    assert required[0] == "GEMINI_API_KEY" && required[1] == "MONGODB_URI";
    CheckEnv(env, required)
  }

  const Messages: InputMessages := InputMessages(NoFile, Unreadable, Unsupported, InternalError)

  /** `/extract` from the gateway's reply on: fence stripping, `JSON.parse`, the status. */
  function Finish<J>(reply: Outcome<string>, parse: string -> ParseOutcome<J>): (r: Response<J>)
    ensures r.status == 200 <==> reply.Returned? && parse(Recovery.StripFences(reply.value)).Parsed?
    ensures r.status == 200 ==> r.body == JsonBody(parse(Recovery.StripFences(reply.value)).value)
    ensures r.status != 200 ==> r == Response(500, ErrorBody(InternalError))
  {
    match reply
    case Threw => Response(500, ErrorBody(InternalError))
    case Returned(responseText) =>
      match parse(Recovery.StripFences(responseText))
      case SyntaxError => Response(500, ErrorBody(InternalError))
      case Parsed(extractedData) => Response(200, JsonBody(extractedData))
  }

  /**
   * `/extract` for a given prompt: the shared MIME dispatch with this handler's
   * delimiter and messages, the gateway, then `Finish`.
   */
  function ExtractWithPrompt<J>(prompt: string, file: Option<Upload>, pdfParse: Bytes -> Outcome<string>,
                                gateway: GatewayRequest -> Outcome<string>,
                                parse: string -> ParseOutcome<J>): (r: Response<J>)
    ensures r.status in {200, 400, 500}
    ensures r.status == 200 <==> r.body.JsonBody?
    ensures r.body.ErrorBody? ==> r.body.error in {NoFile, Unsupported, Unreadable, InternalError}
  {
    Run(Dispatch(prompt, TextDelimiter, Messages, file, pdfParse), gateway, reply => Finish(reply, parse))
  }

  /** `/extract` with its fixed prompt. */
  function Extract<J>(file: Option<Upload>, pdfParse: Bytes -> Outcome<string>,
                      gateway: GatewayRequest -> Outcome<string>,
                      parse: string -> ParseOutcome<J>): (r: Response<J>)
    ensures r.status in {200, 400, 500}
    ensures r.status == 200 <==> r.body.JsonBody?
    ensures r.body.ErrorBody? ==> r.body.error in {NoFile, Unsupported, Unreadable, InternalError}
    ensures file.None? ==> r == Response(400, ErrorBody(NoFile))
  {
    ExtractWithPrompt(Prompt, file, pdfParse, gateway, parse)
  }

  /** No file, an unsupported type, or a PDF with no text: a 400 that does not depend on the gateway. */
  lemma InputErrorsSkipGateway<J>(prompt: string, file: Option<Upload>, pdfParse: Bytes -> Outcome<string>,
                                  g1: GatewayRequest -> Outcome<string>, g2: GatewayRequest -> Outcome<string>,
                                  parse: string -> ParseOutcome<J>)
    requires || file.None?
             || RouteOf(file.value.mimetype) == UnsupportedRoute
             || (RouteOf(file.value.mimetype) == PdfRoute && pdfParse(file.value.buffer) == Returned(""))
    ensures ExtractWithPrompt(prompt, file, pdfParse, g1, parse) == ExtractWithPrompt(prompt, file, pdfParse, g2, parse)
    ensures ExtractWithPrompt(prompt, file, pdfParse, g1, parse).status == 400
  {
  }

  /** A readable PDF is sent as the prompt, the "Document Text:" delimiter and the text. */
  lemma PdfPrompt<J>(prompt: string, f: Upload, pdfParse: Bytes -> Outcome<string>, text: string)
    requires f.mimetype == "application/pdf" && pdfParse(f.buffer) == Returned(text) && text != ""
    ensures Dispatch<J>(prompt, TextDelimiter, Messages, Some(f), pdfParse) == Call(TextPrompt(prompt + TextDelimiter + text))
  {
  }

  /** An unparsable reply gets exactly the answer a failed gateway call gets: the outer catch. */
  lemma ParseFailureIsInternalError<J>(text: string, parse: string -> ParseOutcome<J>)
    requires parse(Recovery.StripFences(text)).SyntaxError?
    ensures Finish(Returned(text), parse) == Finish(Threw, parse) == Response(500, ErrorBody(InternalError))
  {
  }

  /** A reply that only wraps a JSON text in fences is answered from that text as-is. */
  lemma FencesAloneAreTolerated<J>(obj: string, parse: string -> ParseOutcome<J>)
    requires '`' !in obj && Trimmed(obj)
    ensures Finish(Returned(Recovery.JsonFence + obj + Recovery.Fence), parse) ==
            (match parse(obj)
             case Parsed(v) => Response(200, JsonBody(v))
             case SyntaxError => Response(500, ErrorBody(InternalError)))
  {
    Recovery.FencesAloneStripped(obj);
  }
}
