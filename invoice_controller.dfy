/**
 * The controller under apps/api/controllers: `extractData` asks for a generic
 * headers/rows table, dispatches on the MIME type, appends PDF text after a
 * "Document Text:" delimiter and recovers the reply with the brace substring; an
 * unparsable reply and a gateway failure are two different 500s. `deleteInvoice`
 * is `Pipeline.DeleteResponse`.
 */
module InvoiceController {
  import opened Wrappers
  import opened Js
  import opened Pipeline
  import Recovery

  const Prompt: string :=
    "\n" +
    "      Analyze the document provided (image or text). Identify the main table of data.\n" +
    "      Extract the column headers and all the rows of data from that table.\n" +
    "      Return the answer ONLY as a valid JSON object with this exact structure:\n" +
    "      {\n" +
    "        \"headers\": [\"Header 1\", \"Header 2\", ...],\n" +
    "        \"rows\": [\n" +
    "          [\"Row 1 Cell 1\", \"Row 1 Cell 2\", ...],\n" +
    "          [\"Row 2 Cell 1\", \"Row 2 Cell 2\", ...]\n" +
    "        ]\n" +
    "      }\n" +
    "      Do not include any other text, markdown, or explanations.\n" +
    "    "
  const TextDelimiter: string := "\n\nDocument Text:\n---\n"

  const NoFile: string := "No file was uploaded."
  const Unreadable: string := "Could not read text from the PDF."
  const Unsupported: string := "Unsupported file type."
  const BadFormat: string := "AI returned an unexpected format. Please try again."
  const InternalError: string := "An internal server error occurred."

  const Messages: InputMessages := InputMessages(NoFile, Unreadable, Unsupported, InternalError)

  /**
   * `extractData` for a given prompt: the shared MIME dispatch with this handler's
   * delimiter and messages, the gateway, then `Pipeline.BraceFinish` with its two
   * 500 messages.
   */
  function ExtractWithPrompt<J>(prompt: string, file: Option<Upload>, pdfParse: Bytes -> Outcome<string>,
                                gateway: GatewayRequest -> Outcome<string>,
                                parse: string -> ParseOutcome<J>): (r: Response<J>)
    ensures r.status in {200, 400, 500}
    ensures r.status == 200 <==> r.body.JsonBody?
    ensures r.body.ErrorBody? ==> r.body.error in {NoFile, Unsupported, Unreadable, BadFormat, InternalError}
  {
    Run(Dispatch(prompt, TextDelimiter, Messages, file, pdfParse), gateway,
        reply => BraceFinish(reply, parse, BadFormat, InternalError))
  }

  /** `extractData` with its fixed prompt. */
  function ExtractData<J>(file: Option<Upload>, pdfParse: Bytes -> Outcome<string>,
                      gateway: GatewayRequest -> Outcome<string>,
                      parse: string -> ParseOutcome<J>): (r: Response<J>)
    ensures r.status in {200, 400, 500}
    ensures r.status == 200 <==> r.body.JsonBody?
    ensures r.body.ErrorBody? ==> r.body.error in {NoFile, Unsupported, Unreadable, BadFormat, InternalError}
    ensures file.None? ==> r == Response(400, ErrorBody(NoFile))
  {
    ExtractWithPrompt(Prompt, file, pdfParse, gateway, parse)
  }

  /** No file, an unsupported type, or a PDF with no text: a 400 that does not depend on the gateway. */
  lemma InputErrorsSkipGateway<J>(prompt: string, file: Option<Upload>, pdfParse: Bytes -> Outcome<string>,
                                  g1: GatewayRequest -> Outcome<string>, g2: GatewayRequest -> Outcome<string>,
                                  parse: string -> ParseOutcome<J>)
    requires || file.None?
             || RouteOf(file.value.mimetype) == UnsupportedRoute
             || (RouteOf(file.value.mimetype) == PdfRoute && pdfParse(file.value.buffer) == Returned(""))
    ensures ExtractWithPrompt(prompt, file, pdfParse, g1, parse) == ExtractWithPrompt(prompt, file, pdfParse, g2, parse)
    ensures ExtractWithPrompt(prompt, file, pdfParse, g1, parse).status == 400
  {
  }

  /** A readable PDF is sent as the headers/rows prompt, the delimiter and the text. */
  lemma PdfPrompt<J>(prompt: string, f: Upload, pdfParse: Bytes -> Outcome<string>, text: string)
    requires f.mimetype == "application/pdf" && pdfParse(f.buffer) == Returned(text) && text != ""
    ensures Dispatch<J>(prompt, TextDelimiter, Messages, Some(f), pdfParse) == Call(TextPrompt(prompt + TextDelimiter + text))
  {
  }

  /**
   * A reply with a `{` but no `}`: the candidate handed to `JSON.parse` is the text
   * before the first `{`; when that does not parse, the answer is the format 500.
   */
  lemma OpenBraceOnly<J>(text: string, i: int, parse: string -> ParseOutcome<J>)
    requires FirstAt(text, '{', i) && '}' !in text
    ensures BraceFinish(Returned(text), parse, BadFormat, InternalError) ==
            (match parse(text[..i])
             case SyntaxError => Response(500, ErrorBody(BadFormat))
             case Parsed(v) => Response(200, JsonBody(v)))
  {
    Recovery.BraceOpenOnly(text, i);
  }

  /** The two 500 paths carry different messages: an unparsable reply is told apart from a failed call. */
  lemma TwoDistinctServerErrors<J>(text: string, parse: string -> ParseOutcome<J>)
    requires parse(Recovery.BraceCandidate(text)).SyntaxError?
    ensures BraceFinish(Returned(text), parse, BadFormat, InternalError).status == 500
    ensures BraceFinish(Threw, parse, BadFormat, InternalError).status == 500
    ensures BraceFinish(Returned(text), parse, BadFormat, InternalError)
            != BraceFinish(Threw, parse, BadFormat, InternalError)
  {
    assert |BadFormat| != |InternalError|;
  }
}
