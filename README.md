# DOCREADER.AI invoice extraction — a Dafny model

DOCREADER.AI lets a user upload an invoice (a PDF or an image). A server asks a
generative-AI gateway to turn it into JSON. The web page then lets the user edit
the result as an invoice with a vendor, a header and line items. This project
models the logic of that flow and proves properties of it:

- **The `/extract` handlers** in their four variants:
  - `apps/web/apps/api/server.ts` (`ApiServer`);
  - `apps/api/server.ts` (`FencedApiServer`);
  - `apps/api/controllers/invoiceController.ts` (`InvoiceController`);
  - `apps/web/apps/web/server.ts` (`PdfOnlyServer`).

  The model covers the upload checks, the MIME dispatch, the PDF-text prompt, the
  recovery of a JSON candidate from the AI's raw reply, and the status code and body
  of every answer. Two recovery strategies exist:
  - the brace substring (`indexOf('{')` … `lastIndexOf('}') + 1`);
  - fence stripping (remove every "```json", then every "```", then `trim`).
- **The delete mapping** (`DELETE /invoices/:id`: 404 / 200 / 500) and **the
  startup** of each server: its environment checks and, where the server waits for
  it, the database connection.
- **The client editor** (`apps/web/app/page.tsx`, `apps/web/app/utils.ts`):
  - the blank invoice;
  - the normalisation of an extraction (every line total recomputed as quantity ×
    unit price, a falsy id replaced by a fresh UUID);
  - the four edits: a field, a line item, add a line, remove a line.

  The page state that the handlers replace is the class `Page.Editor`. Its
  invariant is that every line total is derived.

The JavaScript built-ins the handlers rely on are written out in `Js`, with their
JavaScript edge cases:
- `indexOf`/`lastIndexOf` return −1 when the character is absent;
- `substring` clamps its bounds and swaps them when they are reversed;
- a global `replace` by `''` deletes matches left to right without overlap;
- `trim` removes the ECMAScript white-space and line-terminator characters.

Everything the code only calls into is a parameter of the model:
- `pdf-parse` is `pdfParse: Bytes -> Outcome<string>`, where `Threw` is a rejection;
- the AI gateway is `gateway: GatewayRequest -> Outcome<string>`;
- `JSON.parse` is `parse: string -> ParseOutcome<J>`;
- MongoDB's `findByIdAndDelete` is an `Outcome<Option<D>>`;
- `crypto.randomUUID()` is a supplied UUID, or a supply `uuids: nat -> string`
  indexed by line position.

"The gateway is not consulted" is stated as "the answer is the same for any two
gateways". Each `/extract` handler is proved for an arbitrary prompt
(`ExtractWithPrompt`, `ExtractWithTemplate`). The handler with the file's own
template text (`Extract`, `ExtractData`) applies it to that constant, so every
property holds for the real prompt too.

The MIME dispatch (`Pipeline.Dispatch`) is written once. The same code appears in
three places:
- apps/web/apps/api/server.ts:75-107;
- apps/api/server.ts:63-104;
- apps/api/controllers/invoiceController.ts:8-38.

They differ only in the prompt, the delimiter before PDF text and the four
messages, which are parameters. The two brace-recovering handlers also share what
follows the gateway call (`Pipeline.BraceFinish`, with their two 500 messages as
parameters). The delete mapping (`Pipeline.DeleteResponse`) is
also written once. It is identical at:
- apps/web/apps/api/server.ts:151-160;
- apps/api/server.ts:138-147;
- apps/api/controllers/invoiceController.ts:78-85.

The two recovery strategies do not treat prose around a fenced reply alike. A reply
such as "Sure! ```json {…} ```" is recovered to the bare object by the brace
handlers (`Recovery.BraceIgnoresWrapping`, `Recovery.BracedProseExample`). The
fence handlers keep the prose in the candidate (`Recovery.StripFencesKeepsProse`,
`Recovery.FencedReplyKeepsProse`), so `JSON.parse` sees it. The model follows the
code.

## Model

| member | source | states |
|---|---|---|
| Js.IndexOf | apps/web/apps/api/server.ts:114 | The result is −1 exactly when the character is absent; otherwise it is a position holding the character with no earlier occurrence. |
| Js.LastIndexOf | apps/web/apps/api/server.ts:115 | The result is −1 exactly when the character is absent; otherwise it is a position holding the character with no later occurrence. |
| Js.IndexOfFirst | apps/api/controllers/invoiceController.ts:45 | Any first occurrence of the character is the index `indexOf` reports. |
| Js.LastIndexOfLast | apps/api/controllers/invoiceController.ts:46 | Any last occurrence of the character is the index `lastIndexOf` reports. |
| Js.Clamp | apps/web/apps/api/server.ts:116 | A `substring` bound is clamped into [0, length]: a negative bound becomes 0, a bound past the end becomes the length, and a bound already inside is left alone. |
| Js.Substring | apps/web/apps/api/server.ts:116 | With in-range bounds the result is the slice between them, and reversed bounds are swapped. A negative bound acts as 0, so `substring(-1, e)` is the prefix up to `e`. A bound past the end acts as the length, so `substring(b, e)` with `e` past the end is the suffix from `b`. |
| Js.RemoveAll | apps/api/server.ts:107 | Deleting every match of a non-empty pattern never lengthens the text. |
| Js.TrimStart | apps/api/server.ts:107 | The result is a suffix of the input that does not start with white space, and everything removed is white space. |
| Js.TrimEnd | apps/api/server.ts:107 | The result is a prefix of the input that does not end with white space, and everything removed is white space. |
| Js.Trim | apps/web/apps/web/server.ts:82 | The result has no white space at either end and is no longer than the input. |
| Js.TrimCore | apps/web/apps/web/server.ts:82 | What `trim` keeps is a contiguous piece of the input, and everything it cuts away, before and after that piece, is white space. |
| Recovery.BraceCandidate | apps/web/apps/api/server.ts:114-116 | The brace candidate is never longer than the reply. |
| Recovery.BraceSpan | apps/web/apps/api/server.ts:114-116 | When the first `{` precedes the last `}`, the candidate is the contiguous span between them, inclusive: it starts with `{` and ends with `}`. |
| Recovery.BraceSpanIdempotent | apps/web/apps/api/server.ts:114-116 | Recovering again from such a candidate returns the candidate. |
| Recovery.BraceNone | apps/web/apps/api/server.ts:114-116 | With no brace at all, the candidate is the empty string. |
| Recovery.BraceOpenOnly | apps/api/controllers/invoiceController.ts:45-47 | With a `{` but no `}`, the candidate is the text before the first `{` and contains no `{`. |
| Recovery.BraceCloseOnly | apps/api/controllers/invoiceController.ts:45-47 | With a `}` but no `{`, the candidate is the text up to and including the last `}`. |
| Recovery.BraceReversed | apps/api/controllers/invoiceController.ts:45-47 | When the last `}` precedes the first `{`, the candidate is the text strictly between them. |
| Recovery.BraceIgnoresWrapping | apps/web/apps/api/server.ts:114-116 | Prose without `{` before a braced object, and a trailer without `}` after it, do not change the candidate: it is the object. |
| Recovery.BracedProseExample | apps/api/controllers/invoiceController.ts:45-47 | The reply "Sure! ```json\n{…}\n```" is recovered to the bare object. |
| Recovery.StripFences | apps/api/server.ts:107 | The fence-stripped candidate contains no "```" and has no white space at either end. |
| Recovery.FenceFree | apps/api/server.ts:107 | After every "```" is deleted, no "```" is left: a deletion cannot create a new match. |
| Recovery.RemoveAbsent | apps/web/apps/web/server.ts:82 | Deleting a pattern that does not occur changes nothing. |
| Recovery.RemoveAllSkipsPlain | apps/web/apps/web/server.ts:82 | Text that cannot start a match passes through a deletion unchanged, and the rest is processed after it. |
| Recovery.TrimKeepsAbsence | apps/web/apps/web/server.ts:82 | Trimming cannot create an occurrence of a pattern. |
| Recovery.StripFencesIdempotent | apps/web/apps/web/server.ts:82 | Stripping fences from a stripped candidate changes nothing. |
| Recovery.StripFencesIdentity | apps/api/server.ts:107 | A trimmed reply without backticks is passed on unchanged. |
| Recovery.StripFencesKeepsProse | apps/api/server.ts:107 | Removing a "```json" … "```" pair keeps any prose before it: the candidate is the trimmed prose followed by the body. |
| Recovery.FencesAloneStripped | apps/api/server.ts:107 | A trimmed text without backticks, wrapped in "```json" … "```", comes back as the bare text. |
| Recovery.FencedReplyKeepsProse | apps/web/apps/web/server.ts:82 | "prose```json\nobj\n```" becomes "prose\nobj", with the prose kept. |
| Pipeline.RouteOf | apps/web/apps/api/server.ts:93-107 | The image route is taken exactly when the MIME type starts with "image/", the PDF route exactly when it is "application/pdf", and the upload is unsupported otherwise. |
| Pipeline.PromptWithTextParts | apps/web/apps/api/server.ts:104 | The PDF prompt is the fixed prompt, then the delimiter, then the extracted text, each at its own offsets. |
| Pipeline.PromptWithTextInjective | apps/api/server.ts:101 | Two PDF prompts built with the same prompt and delimiter are equal only when the texts are. |
| Pipeline.Dispatch | apps/web/apps/api/server.ts:75-107 | The gateway is called exactly for an image, or for a PDF whose parse returns non-empty text. An image is sent with the prompt, its MIME type and its bytes; a PDF's text is sent after the prompt and delimiter. No file gives 400, an unsupported type 400, empty text 400, and a parser failure 500, each with its own message. |
| Pipeline.DispatchSendsPromptFirst | apps/api/controllers/invoiceController.ts:29-35 | Whatever the route, the gateway request starts with the fixed prompt. |
| Pipeline.CheckEnv | apps/web/apps/api/server.ts:12-19 | The server listens exactly when every required variable is set and non-empty; a fatal exit names a required variable that is missing. |
| Pipeline.CheckEnvReportsFirstMissing | apps/api/server.ts:11-18 | The variable named in a fatal exit is the first missing one in check order. |
| Pipeline.DeleteResponse | apps/web/apps/api/server.ts:151-160 | 404 "Invoice not found." exactly when the store finds nothing, 200 with the success message exactly when it deletes, and 500 "Failed to delete invoice." exactly when it throws. |
| Pipeline.BraceFinish | apps/web/apps/api/server.ts:109-128 | The code after the gateway call in both brace-recovering handlers (the same code is at apps/api/controllers/invoiceController.ts:40-59). The answer is 200 exactly when the reply arrived and its brace candidate parses, with the parsed value as the body. Otherwise it is 500: the format message for a parse failure (the inner catch), the internal-error message for a gateway failure (the outer catch). |
| ApiServer.Startup | apps/web/apps/api/server.ts:12-34 | GEMINI_API_KEY and MONGODB_URI are checked first, and a missing GEMINI_API_KEY is reported first. Only then is the database connection made: the server listens exactly when both variables are defined and `mongoose.connect` resolves, and exits when it is rejected. |
| ApiServer.ExtractWithPrompt | apps/web/apps/api/server.ts:74-129 | Every answer is 200, 400 or 500; it is 200 exactly when the body is JSON, and an error body carries one of the five fixed messages, never the raw reply. |
| ApiServer.Extract | apps/web/apps/api/server.ts:74-129 | The handler as deployed: `ExtractWithPrompt` applied to the file's prompt constant, which is the template literal at lines 81-90 character for character. Every answer is 200, 400 or 500; 200 exactly when the body is JSON; an error body carries one of the five fixed messages; no file gives 400 "No file was uploaded.". |
| ApiServer.InputErrorsSkipGateway | apps/web/apps/api/server.ts:75-106 | No file, an unsupported type or a PDF without text gives 400, the same whatever the gateway would answer. |
| ApiServer.PlainTextRefused | apps/web/apps/api/server.ts:93-107 | A `text/plain` upload is refused with "Unsupported file type.". |
| ApiServer.PdfPrompt | apps/web/apps/api/server.ts:102-104 | A readable PDF is sent as prompt + "\n\n---TEXT---\n" + text. |
| ApiServer.BracelessReplyIsBadFormat | apps/web/apps/api/server.ts:114-121 | A reply without braces gives the fixed format 500, given that `JSON.parse("")` fails. |
| ApiServer.SpanParsed | apps/web/apps/api/server.ts:114-123 | A reply whose outer brace span parses is answered 200 with exactly that value. |
| FencedApiServer.Startup | apps/api/server.ts:11-18 | Listen exactly when both GEMINI_API_KEY and MONGODB_URI are defined. A missing GEMINI_API_KEY is reported first. |
| FencedApiServer.Finish | apps/api/server.ts:106-115 | 200 exactly when the reply arrived and its fence-stripped candidate parses, with the parsed value as the body; every other case is the single 500 of the outer catch. |
| FencedApiServer.ExtractWithPrompt | apps/api/server.ts:62-116 | Every answer is 200, 400 or 500; it is 200 exactly when the body is JSON, and an error body carries one of the four fixed messages. |
| FencedApiServer.Extract | apps/api/server.ts:62-116 | The handler as deployed: `ExtractWithPrompt` applied to the file's prompt constant, which is the template literal at lines 71-81 character for character. Every answer is 200, 400 or 500; 200 exactly when the body is JSON; an error body carries one of the four fixed messages; no file gives 400 "No file was uploaded.". |
| FencedApiServer.InputErrorsSkipGateway | apps/api/server.ts:63-104 | No file, an unsupported type or a PDF without text gives 400, independent of the gateway. |
| FencedApiServer.PdfPrompt | apps/api/server.ts:95-101 | A readable PDF is sent as prompt + "\n\nDocument Text:\n---\n" + text. |
| FencedApiServer.ParseFailureIsInternalError | apps/api/server.ts:107-115 | An unparsable reply gets exactly the answer a failed gateway call gets. |
| FencedApiServer.FencesAloneAreTolerated | apps/api/server.ts:106-110 | A reply that only wraps a JSON text in fences is answered from the bare text. |
| InvoiceController.ExtractWithPrompt | apps/api/controllers/invoiceController.ts:7-60 | Every answer is 200, 400 or 500; it is 200 exactly when the body is JSON, and an error body carries one of the five fixed messages. |
| InvoiceController.ExtractData | apps/api/controllers/invoiceController.ts:7-60 | `extractData` as deployed: `ExtractWithPrompt` applied to the headers/rows prompt constant, which is the template literal at lines 14-26 character for character. Every answer is 200, 400 or 500; 200 exactly when the body is JSON; an error body carries one of the five fixed messages; no file gives 400 "No file was uploaded.". |
| InvoiceController.InputErrorsSkipGateway | apps/api/controllers/invoiceController.ts:8-38 | No file, an unsupported type or a PDF without text gives 400, independent of the gateway. |
| InvoiceController.PdfPrompt | apps/api/controllers/invoiceController.ts:32-35 | A readable PDF is sent as prompt + "\n\nDocument Text:\n---\n" + text. |
| InvoiceController.OpenBraceOnly | apps/api/controllers/invoiceController.ts:44-52 | With a `{` but no `}`, `JSON.parse` is given the text before the first `{`. |
| InvoiceController.TwoDistinctServerErrors | apps/api/controllers/invoiceController.ts:49-59 | An unparsable reply and a failed gateway call are both 500 but carry different messages. |
| PdfOnlyServer.Startup | apps/web/apps/web/server.ts:13-17 | Listen exactly when GEMINI_API_KEY is defined; otherwise a fatal exit naming it. |
| PdfOnlyServer.StoreAddressNotChecked | apps/web/apps/web/server.ts:13-27 | A missing MONGODB_URI does not stop startup. |
| PdfOnlyServer.EmbedRoundTrip | apps/web/apps/web/server.ts:62-72 | The PDF text is embedded verbatim: it can be read back from between the template's two halves. |
| PdfOnlyServer.Plan | apps/web/apps/web/server.ts:45-75 | There is no MIME check. The gateway is called exactly when the parser returns non-empty text, and is sent that text inside the template. No file or empty text gives 400; a parser failure gives 500. |
| PdfOnlyServer.Finish | apps/web/apps/web/server.ts:76-96 | 200 exactly when the fence-stripped candidate parses. Otherwise 500, with "The AI returned an unexpected format…" for a parse failure and the internal-error message for a gateway failure. |
| PdfOnlyServer.ExtractWithTemplate | apps/web/apps/web/server.ts:45-97 | Every answer is 200, 400 or 500; it is 200 exactly when the body is JSON, and an error body carries one of the four fixed messages. |
| PdfOnlyServer.Extract | apps/web/apps/web/server.ts:45-97 | The handler as deployed: `ExtractWithTemplate` applied to the two halves of the template literal at lines 62-72, split at `${pdfText}` and equal to it character for character. Every answer is 200, 400 or 500; 200 exactly when the body is JSON; an error body carries one of the four fixed messages; no file gives 400 "No file was uploaded.". |
| PdfOnlyServer.EmptyTextSkipsGateway | apps/web/apps/web/server.ts:52-55 | An upload of any type whose text is empty gives 400 "Could not read text from the PDF.", independent of the gateway. |
| Utils.CreateEmptyInvoice | apps/web/app/utils.ts:5-25 | The file name is the argument. Every vendor field is empty. The header strings are empty except currency "$", and the amounts are 0. There is exactly one blank line item (quantity 1, everything else empty or 0), and its total is derived. |
| Page.CreateEmptyInvoice | apps/web/app/page.tsx:44-49 | The page's blank invoice is field for field the shared helper's. |
| Page.NormalizeItem | apps/web/app/page.tsx:93-97 | A truthy id is kept, otherwise the fresh UUID is used; description, price and quantity are kept, and the total is recomputed. |
| Page.NormalizeItems | apps/web/app/page.tsx:93-97 | The mapping keeps the number and order of the items, normalises each one in place, and leaves every total derived. |
| Page.NormalizeItemIdempotent | apps/web/app/page.tsx:95-96 | An item normalised with a non-empty UUID is unchanged when normalised again. |
| Page.NormalizeIdempotent | apps/web/app/page.tsx:93-97 | Normalising an already normalised list changes nothing and uses no new UUIDs. |
| Page.Extracted | apps/web/app/page.tsx:91-106 | A new invoice is installed exactly when the reply is ok and has line items. Its file name is the uploaded file's, the other keys come from the reply, and its items are the normalised reply items. |
| Page.ExtractIgnoresReportedName | apps/web/app/page.tsx:99-103 | A `fileName` in the server's reply makes no difference. |
| Page.SetVendorField | apps/web/app/page.tsx:156 | The edited vendor field reads back the new value; every other vendor field is unchanged. |
| Page.SetHeaderText | apps/web/app/page.tsx:156 | The edited header text field reads back the new value; every other header field is unchanged. |
| Page.SetHeaderAmount | apps/web/app/page.tsx:156 | The edited header amount reads back the new value; every other header field is unchanged. |
| Page.ChangeField | apps/web/app/page.tsx:154-157 | Only the edited field of the edited section changes. The line items stay as they were, including when the header total is edited. |
| Page.FieldEditUndone | apps/web/app/page.tsx:154-157 | Writing the old value back after a field edit restores the invoice. |
| Page.ChangeLineItem | apps/web/app/page.tsx:159-165 | The edited field of item `index` takes the new value and its total is recomputed; the length, the item's id, all other items and derived totals are preserved. |
| Page.AppendBlankItem | apps/web/app/page.tsx:167-173 | Exactly one blank item with the fresh id is appended at the end; the existing items are unchanged and in order. |
| Page.RemoveById | apps/web/app/page.tsx:177 | The filter never lengthens the list and keeps totals derived. |
| Page.RemoveByIdMembers | apps/web/app/page.tsx:177 | An item survives exactly when it was in the list and its id differs. |
| Page.RemoveByIdConcat | apps/web/app/page.tsx:177 | The filter keeps the order: it distributes over concatenation. |
| Page.RemoveAbsentId | apps/web/app/page.tsx:177 | An id no item carries removes nothing. |
| Page.RemoveOnlyCarrier | apps/web/app/page.tsx:177 | When only item `k` carries the id, exactly that item is removed. |
| Page.RemoveUniqueId | apps/web/app/page.tsx:175-178 | With unique ids, removing a present id drops exactly that item and the length by one. |
| Page.RemoveSharedId | apps/web/app/page.tsx:176-177 | When every item carries the removed id, the list becomes empty. |
| Page.RemoveKeepsOne | apps/web/app/page.tsx:175-178 | With unique ids, a list of two or more items keeps at least one. |
| Page.Editor.constructor | apps/web/app/page.tsx:53-54 | Nothing is uploaded or being edited, and the invariant holds. |
| Page.Editor.HandleFileUpload | apps/web/app/page.tsx:73-80 | No file changes nothing. A file becomes the uploaded file and replaces the invoice with a blank one named after it. |
| Page.Editor.StartExtract | apps/web/app/page.tsx:82-89 | Without a file nothing changes. Otherwise the page is marked as extracting, and the file uploaded at this moment is the one the pending request carries. |
| Page.Editor.FinishExtract | apps/web/app/page.tsx:90-109 | When the reply arrives, a usable reply replaces the invoice, named after the file captured at the start, whatever was uploaded or edited meanwhile. Any other reply leaves the invoice as it is. The flag is cleared in every case, and the invariant is kept. |
| Page.Editor.UploadDuringExtract | apps/web/app/page.tsx:73-103 | A new file uploaded while a request is pending: the page holds the new file, but the invoice is the reply's, named after the earlier file. |
| Page.Editor.HandleExtract | apps/web/app/page.tsx:82-110 | With nothing happening while the request is pending: with a file and a usable reply, the normalised extraction replaces the invoice; otherwise the invoice is left as it was. The uploaded file never changes, and the invariant is kept. |
| Page.Editor.HandleFormChange | apps/web/app/page.tsx:154-157 | Without an invoice nothing happens; otherwise the invoice becomes `ChangeField` of it. |
| Page.Editor.HandleLineItemChange | apps/web/app/page.tsx:159-165 | Without an invoice, or with an index that has no item, nothing happens. Otherwise the items become `ChangeLineItem` of them, written in place in a copied array. |
| Page.Editor.AddLineItem | apps/web/app/page.tsx:167-173 | Without an invoice nothing happens; otherwise one blank item is appended. |
| Page.Editor.RemoveLineItem | apps/web/app/page.tsx:175-178 | Without an invoice or with at most one item nothing happens; otherwise the items are filtered by id. |

## Left out

- I/O and the web framework are left out. This covers Express routing and middleware, CORS, multer, `process.exit` and console logging. On the page it covers `fetch`, `alert`, `confirm`, `URL.createObjectURL`/`revokeObjectURL`, React rendering and effects.
- The generative-AI SDK, `pdf-parse`, `JSON.parse` and Mongoose are foreign code. They are parameters of the model, and their outcomes are abstract.
- The MongoDB connections at apps/api/server.ts:25-27 and apps/web/apps/web/server.ts:27-29 are left out. Those servers listen without waiting for them, and a failure is only logged. The connection at apps/web/apps/api/server.ts:26-34, which gates listening, is modelled in `ApiServer.Startup`.
- Listing saved invoices (newest first) is left out because the ordering is the store's `sort`. Creating an invoice is not part of this model.
- The base64 encoding of an image's bytes for the gateway is left out. The model sends the raw bytes with the MIME type.
- `Number(...)` coercion, `parseFloat`, NaN and floating-point rounding are left out. Amounts are exact `real` numbers.
- JavaScript strings are UTF-16 code units, but the model uses Dafny characters. The positions of `indexOf`/`lastIndexOf` differ only for text outside the Basic Multilingual Plane.
- `!data.text` is modelled as "the text is empty". A parser that returns no `text` key at all is not a separate case.
- `Page.Editor.HandleLineItemChange`: the source writes into the item object it shares with the previous state. The model copies the item values, so that aliasing with the old state is not captured.
- `Page.Extracted`: extra keys of the reply are not modelled, neither at the top level nor in a line item (`...data`, `...item`). A reply without `vendor` or `invoice` is not modelled either.
- `Page.Editor.HandleExtract`: the two awaits (the request and `response.json()`) are modelled as one wait between `StartExtract` and `FinishExtract`. Other handlers may run in that wait. The text of the alert is left out, and a failure is modelled as "the invoice is unchanged".
- `Page.Editor.StartExtract`: the Extract button is disabled while a request is pending (apps/web/app/page.tsx:306), but the model does not require `!isExtracting`, so it also allows a second start.
- `Page.NormalizeItems`: the supply `uuids` is indexed by line position. An item with a truthy id leaves its UUID unused, while the source calls `crypto.randomUUID()` only for the items that need one.
- `Page.RemoveKeepsOne`: the "at least one item left" guarantee is stated for unique ids only. The guard in `removeLineItem` counts items, not ids, so items sharing the removed id are all dropped (`Page.RemoveSharedId`).
- `Page.Editor.HandleFormChange`: edits are modelled for all eleven fields of the vendor and invoice sections. The form itself edits seven of them (apps/web/app/page.tsx:252-262); the source's computed key would also accept field names outside the two sections, and those are not modelled.
- `handleDownloadPdf` (apps/web/app/page.tsx:131-152 and apps/web/app/utils.ts:27-55) is left out. It only draws a PDF document.
