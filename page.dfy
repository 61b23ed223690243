/**
 * The invoice editor of the web client's home page. The pure parts are functions
 * on invoice values: the blank invoice, the normalisation of an extraction result,
 * and the four edits. The page's `invoiceData`/`uploadedFile` state, which every
 * handler replaces, is the class `Editor`.
 */
module Page {
  import opened Wrappers
  import opened Invoice
  import Utils

  // ---------------------------------------------------------------------------
  // The blank invoice

  /** The page's own `createEmptyInvoice`: the same invoice as the shared helper's. */
  function CreateEmptyInvoice(fileName: string, freshId: string): (inv: FullInvoice)
    ensures inv == Utils.CreateEmptyInvoice(fileName, freshId)
    ensures TotalsDerived(inv.lineItems)
  {
    FullInvoice(None, fileName, Vendor("", "", ""),
                Header("", "", "$", 0.0, 0.0, 0.0, "", ""),
                [LineItem(freshId, "", 0.0, 1.0, 0.0)], None)
  }

  // ---------------------------------------------------------------------------
  // Normalising an extraction result

  /** A line item as the server returns it: the id may be missing, the total is whatever the AI wrote. */
  datatype RawLineItem = RawLineItem(id: Option<string>, description: string, unitPrice: real, quantity: real, total: real)

  /** A JavaScript truthiness test on an optional string id. */
  predicate Truthy(id: Option<string>) {
    id.Some? && id.value != ""
  }

  /** One step of the `map` in `handleExtract`. */
  function NormalizeItem(raw: RawLineItem, freshId: string): (item: LineItem)
    ensures item.id == (if Truthy(raw.id) then raw.id.value else freshId)
    ensures item.description == raw.description && item.unitPrice == raw.unitPrice && item.quantity == raw.quantity
    ensures TotalIsDerived(item)
  {
    LineItem(if Truthy(raw.id) then raw.id.value else freshId,
             raw.description, raw.unitPrice, raw.quantity, raw.quantity * raw.unitPrice)
  }

  /**
   * The `map` in `handleExtract`: item by item and in order; `uuids(i)` is the UUID
   * the i-th item gets when its own id is falsy.
   */
  function NormalizeItems(items: seq<RawLineItem>, uuids: nat -> string): (r: seq<LineItem>)
    ensures |r| == |items|
    ensures forall i :: 0 <= i < |items| ==> r[i] == NormalizeItem(items[i], uuids(i))
    ensures TotalsDerived(r)
    decreases |items|
  {
    if items == [] then []
    else
      var last := |items| - 1;
      NormalizeItems(items[..last], uuids) + [NormalizeItem(items[last], uuids(last))]
  }

  /** A normalised item read back as server data: its id is now present. */
  function ReparseItem(item: LineItem): RawLineItem {
    RawLineItem(Some(item.id), item.description, item.unitPrice, item.quantity, item.total)
  }

  /** The normalised items as the next extraction's server data would carry them. */
  function Reparse(items: seq<LineItem>): (raw: seq<RawLineItem>)
    ensures |raw| == |items|
    ensures forall i :: 0 <= i < |items| ==> raw[i] == ReparseItem(items[i])
  {
    seq(|items|, i requires 0 <= i < |items| => ReparseItem(items[i]))
  }

  /** An item normalised with a non-empty UUID keeps its id, and its total, when normalised again. */
  lemma NormalizeItemIdempotent(raw: RawLineItem, uuid: string, uuid2: string)
    requires uuid != ""
    ensures NormalizeItem(ReparseItem(NormalizeItem(raw, uuid)), uuid2) == NormalizeItem(raw, uuid)
  {
  }

  /**
   * Normalising is idempotent: once every item has a non-empty id, normalising
   * again changes nothing and draws on no new UUIDs.
   */
  lemma {:induction false} NormalizeIdempotent(items: seq<RawLineItem>, uuids: nat -> string, uuids2: nat -> string)
    requires forall k: nat :: uuids(k) != ""
    ensures NormalizeItems(Reparse(NormalizeItems(items, uuids)), uuids2) == NormalizeItems(items, uuids)
  {
    var once := NormalizeItems(items, uuids);
    var twice := NormalizeItems(Reparse(once), uuids2);
    forall i | 0 <= i < |items|
      ensures twice[i] == once[i]
    {
      NormalizeItemIdempotent(items[i], uuids(i), uuids2(i));
    }
  }

  /** The JSON body of a 200 from `/extract`, with the top-level keys the editor reads. */
  datatype ExtractedData = ExtractedData(storeId: Option<string>, fileName: Option<string>,
                                         vendor: Vendor, invoice: Header,
                                         lineItems: Option<seq<RawLineItem>>, createdAt: Option<string>)

  /** What `fetch` and `response.json()` deliver to `handleExtract`. */
  datatype ExtractReply =
    | ReplyOk(data: ExtractedData)       // `response.ok`
    | ReplyNotOk(error: Option<string>)  // a 4xx/5xx body; the handler throws and alerts
    | FetchFailed                        // `fetch` or `response.json()` rejected

  /**
   * The invoice `handleExtract` installs, or `None` when it throws before
   * `setInvoiceData` (a non-ok reply, a failed request, or no `lineItems` to map).
   */
  function Extracted(reply: ExtractReply, fileName: string, uuids: nat -> string): (r: Option<FullInvoice>)
    ensures r.Some? <==> reply.ReplyOk? && reply.data.lineItems.Some?
    ensures r.Some? ==>
      r.value.fileName == fileName &&
      r.value.vendor == reply.data.vendor && r.value.invoice == reply.data.invoice &&
      r.value.storeId == reply.data.storeId && r.value.createdAt == reply.data.createdAt
    ensures r.Some? ==> r.value.lineItems == NormalizeItems(reply.data.lineItems.value, uuids)
    ensures r.Some? ==> TotalsDerived(r.value.lineItems)
  {
    match reply
    case ReplyOk(data) =>
      (match data.lineItems
       case None => None
       case Some(raw) =>
         Some(FullInvoice(data.storeId, fileName, data.vendor, data.invoice, NormalizeItems(raw, uuids), data.createdAt)))
    case _ => None
  }

  /** The uploaded file's name wins: a `fileName` in the server's reply makes no difference. */
  lemma ExtractIgnoresReportedName(data: ExtractedData, reported: Option<string>, fileName: string, uuids: nat -> string)
    ensures Extracted(ReplyOk(data.(fileName := reported)), fileName, uuids) == Extracted(ReplyOk(data), fileName, uuids)
  {
  }

  // ---------------------------------------------------------------------------
  // `handleFormChange`: one field of the vendor or of the invoice header

  datatype VendorField = Name | Address | TaxId
  datatype HeaderTextField = Number | Date | Currency | PoNumber | PoDate
  datatype HeaderAmountField = Subtotal | TaxPercent | Total

  function VendorValue(v: Vendor, f: VendorField): string {
    match f
    case Name => v.name
    case Address => v.address
    case TaxId => v.taxId
  }

  function HeaderText(h: Header, f: HeaderTextField): string {
    match f
    case Number => h.number
    case Date => h.date
    case Currency => h.currency
    case PoNumber => h.poNumber
    case PoDate => h.poDate
  }

  function HeaderAmount(h: Header, f: HeaderAmountField): real {
    match f
    case Subtotal => h.subtotal
    case TaxPercent => h.taxPercent
    case Total => h.total
  }

  /** The section, field and value of one `handleFormChange` call. */
  datatype FormEdit =
    | VendorEdit(vendorField: VendorField, text: string)
    | HeaderTextEdit(textField: HeaderTextField, text: string)
    | HeaderAmountEdit(amountField: HeaderAmountField, amount: real)

  function SetVendorField(v: Vendor, f: VendorField, s: string): (r: Vendor)
    ensures VendorValue(r, f) == s
    ensures forall g :: g != f ==> VendorValue(r, g) == VendorValue(v, g)
  {
    match f
    case Name => v.(name := s)
    case Address => v.(address := s)
    case TaxId => v.(taxId := s)
  }

  function SetHeaderText(h: Header, f: HeaderTextField, s: string): (r: Header)
    ensures HeaderText(r, f) == s
    ensures forall g :: g != f ==> HeaderText(r, g) == HeaderText(h, g)
    ensures forall a :: HeaderAmount(r, a) == HeaderAmount(h, a)
  {
    match f
    case Number => h.(number := s)
    case Date => h.(date := s)
    case Currency => h.(currency := s)
    case PoNumber => h.(poNumber := s)
    case PoDate => h.(poDate := s)
  }

  function SetHeaderAmount(h: Header, f: HeaderAmountField, x: real): (r: Header)
    ensures HeaderAmount(r, f) == x
    ensures forall g :: g != f ==> HeaderAmount(r, g) == HeaderAmount(h, g)
    ensures forall t :: HeaderText(r, t) == HeaderText(h, t)
  {
    match f
    case Subtotal => h.(subtotal := x)
    case TaxPercent => h.(taxPercent := x)
    case Total => h.(total := x)
  }

  /**
   * `handleFormChange` on a present invoice: exactly the edited field of the edited
   * section takes the new value; the other section, the line items (the header
   * total included: it is not derived from them) and the file name stay as they were.
   */
  function ChangeField(inv: FullInvoice, edit: FormEdit): (r: FullInvoice)
    ensures r.lineItems == inv.lineItems && r.fileName == inv.fileName
    ensures r.storeId == inv.storeId && r.createdAt == inv.createdAt
    ensures edit.VendorEdit? ==>
      r.invoice == inv.invoice && VendorValue(r.vendor, edit.vendorField) == edit.text &&
      forall g :: g != edit.vendorField ==> VendorValue(r.vendor, g) == VendorValue(inv.vendor, g)
    ensures edit.HeaderTextEdit? ==>
      r.vendor == inv.vendor && HeaderText(r.invoice, edit.textField) == edit.text &&
      (forall g :: g != edit.textField ==> HeaderText(r.invoice, g) == HeaderText(inv.invoice, g)) &&
      forall a :: HeaderAmount(r.invoice, a) == HeaderAmount(inv.invoice, a)
    ensures edit.HeaderAmountEdit? ==>
      r.vendor == inv.vendor && HeaderAmount(r.invoice, edit.amountField) == edit.amount &&
      (forall g :: g != edit.amountField ==> HeaderAmount(r.invoice, g) == HeaderAmount(inv.invoice, g)) &&
      forall t :: HeaderText(r.invoice, t) == HeaderText(inv.invoice, t)
  {
    match edit
    case VendorEdit(f, s) => inv.(vendor := SetVendorField(inv.vendor, f, s))
    case HeaderTextEdit(f, s) => inv.(invoice := SetHeaderText(inv.invoice, f, s))
    case HeaderAmountEdit(f, x) => inv.(invoice := SetHeaderAmount(inv.invoice, f, x))
  }

  /** The edit that puts back the value `edit` overwrites. */
  function UndoEdit(inv: FullInvoice, edit: FormEdit): FormEdit {
    match edit
    case VendorEdit(f, _) => VendorEdit(f, VendorValue(inv.vendor, f))
    case HeaderTextEdit(f, _) => HeaderTextEdit(f, HeaderText(inv.invoice, f))
    case HeaderAmountEdit(f, _) => HeaderAmountEdit(f, HeaderAmount(inv.invoice, f))
  }

  /** A field edit followed by writing the old value back leaves the invoice as it was. */
  lemma FieldEditUndone(inv: FullInvoice, edit: FormEdit)
    ensures ChangeField(ChangeField(inv, edit), UndoEdit(inv, edit)) == inv
  {
  }

  // ---------------------------------------------------------------------------
  // `handleLineItemChange`: one field of one line item

  /** The field and value of one `handleLineItemChange` call; `id` and `total` are not editable. */
  datatype ItemEdit =
    | EditDescription(text: string)
    | EditQuantity(amount: real)
    | EditUnitPrice(amount: real)

  /** The write `updated[index][field] = value`. */
  function ApplyItemEdit(item: LineItem, edit: ItemEdit): LineItem {
    match edit
    case EditDescription(s) => item.(description := s)
    case EditQuantity(x) => item.(quantity := x)
    case EditUnitPrice(x) => item.(unitPrice := x)
  }

  /** The write `updated[index].total = quantity * unitPrice`. */
  function Retotal(item: LineItem): LineItem {
    item.(total := item.quantity * item.unitPrice)
  }

  /**
   * The line items after `handleLineItemChange(index, …)`: the edited field of item
   * `index` takes the new value and that item's total is recomputed; the length,
   * the item's id and every other item stay as they were.
   */
  function ChangeLineItem(items: seq<LineItem>, index: int, edit: ItemEdit): (r: seq<LineItem>)
    requires 0 <= index < |items|
    ensures |r| == |items|
    ensures forall i :: 0 <= i < |items| && i != index ==> r[i] == items[i]
    ensures r[index].id == items[index].id
    ensures r[index].description == (if edit.EditDescription? then edit.text else items[index].description)
    ensures r[index].quantity == (if edit.EditQuantity? then edit.amount else items[index].quantity)
    ensures r[index].unitPrice == (if edit.EditUnitPrice? then edit.amount else items[index].unitPrice)
    ensures TotalIsDerived(r[index])
    ensures TotalsDerived(items) ==> TotalsDerived(r)
  {
    items[index := Retotal(ApplyItemEdit(items[index], edit))]
  }

  // ---------------------------------------------------------------------------
  // `addLineItem`

  /** The spread in `addLineItem`: one blank item with a fresh id at the end. */
  function AppendBlankItem(items: seq<LineItem>, freshId: string): (r: seq<LineItem>)
    ensures |r| == |items| + 1 && r[..|items|] == items
    ensures IsBlankItem(r[|items|]) && r[|items|].id == freshId
    ensures TotalsDerived(items) ==> TotalsDerived(r)
    ensures UniqueIds(items) && (forall i :: 0 <= i < |items| ==> items[i].id != freshId) ==> UniqueIds(r)
  {
    items + [BlankItem(freshId)]
  }

  // ---------------------------------------------------------------------------
  // `removeLineItem`

  /** The `filter` in `removeLineItem`. */
  function RemoveById(items: seq<LineItem>, id: string): (r: seq<LineItem>)
    ensures |r| <= |items|
    ensures TotalsDerived(items) ==> TotalsDerived(r)
  {
    if items == [] then []
    else if items[0].id != id then [items[0]] + RemoveById(items[1..], id)
    else RemoveById(items[1..], id)
  }

  /** The filter keeps exactly the items whose id differs. */
  lemma {:induction false} RemoveByIdMembers(items: seq<LineItem>, id: string, x: LineItem)
    ensures x in RemoveById(items, id) <==> x in items && x.id != id
    decreases |items|
  {
    if items != [] {
      RemoveByIdMembers(items[1..], id, x);
      assert items == [items[0]] + items[1..];
    }
  }

  /** The filter keeps the order: it distributes over concatenation. */
  lemma {:induction false} RemoveByIdConcat(a: seq<LineItem>, b: seq<LineItem>, id: string)
    ensures RemoveById(a + b, id) == RemoveById(a, id) + RemoveById(b, id)
    decreases |a|
  {
    if a == [] {
      assert a + b == b;
    } else {
      assert (a + b)[1..] == a[1..] + b;
      RemoveByIdConcat(a[1..], b, id);
    }
  }

  /** An id no item carries removes nothing. */
  lemma {:induction false} RemoveAbsentId(items: seq<LineItem>, id: string)
    requires forall i :: 0 <= i < |items| ==> items[i].id != id
    ensures RemoveById(items, id) == items
    decreases |items|
  {
    if items != [] {
      RemoveAbsentId(items[1..], id);
      assert [items[0]] + items[1..] == items;
    }
  }

  /** When item `k` is the only one carrying its id, removing that id removes exactly item `k`. */
  lemma {:induction false} RemoveOnlyCarrier(items: seq<LineItem>, k: int)
    requires 0 <= k < |items|
    requires forall i :: 0 <= i < |items| && i != k ==> items[i].id != items[k].id
    ensures RemoveById(items, items[k].id) == items[..k] + items[k + 1..]
    decreases |items|
  {
    var id := items[k].id;
    var rest := items[1..];
    if k == 0 {
      forall i | 0 <= i < |rest|
        ensures rest[i].id != id
      {
        assert rest[i] == items[i + 1];
      }
      RemoveAbsentId(rest, id);
    } else {
      assert items[0].id != id;
      assert rest[k - 1] == items[k];
      forall i | 0 <= i < |rest| && i != k - 1
        ensures rest[i].id != id
      {
        assert rest[i] == items[i + 1];
      }
      RemoveOnlyCarrier(rest, k - 1);
      assert [items[0]] + (rest[..k - 1] + rest[k..]) == items[..k] + items[k + 1..];
    }
  }

  /** With unique ids, removing the id of item `k` removes exactly that item. */
  lemma RemoveUniqueId(items: seq<LineItem>, k: int)
    requires UniqueIds(items) && 0 <= k < |items|
    ensures RemoveById(items, items[k].id) == items[..k] + items[k + 1..]
    ensures |RemoveById(items, items[k].id)| == |items| - 1
  {
    forall i | 0 <= i < |items| && i != k
      ensures items[i].id != items[k].id
    {
      if i < k {
        assert items[i].id != items[k].id;
      } else {
        assert items[k].id != items[i].id;
      }
    }
    RemoveOnlyCarrier(items, k);
  }

  /** Items that all share the removed id are all dropped: the list can become empty. */
  lemma {:induction false} RemoveSharedId(items: seq<LineItem>, id: string)
    requires forall i :: 0 <= i < |items| ==> items[i].id == id
    ensures RemoveById(items, id) == []
    decreases |items|
  {
    if items != [] {
      RemoveSharedId(items[1..], id);
    }
  }

  /** With unique ids, a list of two or more items keeps at least one after a removal. */
  lemma RemoveKeepsOne(items: seq<LineItem>, id: string)
    requires UniqueIds(items) && |items| > 1
    ensures |RemoveById(items, id)| >= 1
  {
    if k :| 0 <= k < |items| && items[k].id == id {
      RemoveUniqueId(items, k);
    } else {
      RemoveAbsentId(items, id);
    }
  }

  // ---------------------------------------------------------------------------
  // The page state

  /**
   * The state `useState` keeps for the editor: the name of the uploaded file, the
   * invoice being edited and whether an extraction request is pending. Every handler
   * replaces `invoiceData` with a new value.
   */
  class Editor {
    var uploadedFile: Option<string>
    var invoiceData: Option<FullInvoice>
    var isExtracting: bool

    /** Every line item of the invoice being edited has a derived total. */
    predicate Valid()
      reads this
    {
      invoiceData.Some? ==> TotalsDerived(invoiceData.value.lineItems)
    }

    /** The state before anything is uploaded. */
    constructor()
      ensures uploadedFile == None && invoiceData == None && !isExtracting
      ensures Valid()
    {
      uploadedFile := None;
      invoiceData := None;
      isExtracting := false;
    }

    /** `handleFileUpload`: a new file replaces the invoice by a blank one named after it. */
    method HandleFileUpload(file: Option<string>, freshId: string)
      requires Valid()
      modifies this
      ensures Valid()
      ensures file.None? ==> uploadedFile == old(uploadedFile) && invoiceData == old(invoiceData)
      ensures file.Some? ==> uploadedFile == file && invoiceData == Some(CreateEmptyInvoice(file.value, freshId))
      ensures isExtracting == old(isExtracting)
    {
      if file.None? {
        return;
      }
      uploadedFile := file;
      invoiceData := Some(CreateEmptyInvoice(file.value, freshId));
    }

    /**
     * The first half of `handleExtract`, up to the request. Without a file nothing
     * happens (an alert). Otherwise the page is marked as extracting and the request
     * goes out with the file uploaded now; the handler's closure keeps that file, and
     * its name is what the reply will be installed under.
     */
    method StartExtract() returns (captured: Option<string>)
      requires Valid()
      modifies this
      ensures Valid()
      ensures captured == old(uploadedFile)
      ensures uploadedFile == old(uploadedFile) && invoiceData == old(invoiceData)
      ensures isExtracting == (old(isExtracting) || captured.Some?)
    {
      captured := uploadedFile;
      if captured.Some? {
        isExtracting := true;
      }
    }

    /**
     * The second half of `handleExtract`, once the reply has arrived (`finally` clears
     * the flag). A usable reply replaces the invoice, named after the file captured at
     * the start; edits and uploads made while the request was pending are overwritten.
     * An error reply, a failed request or a reply without line items leaves the
     * invoice as it is.
     */
    method FinishExtract(reply: ExtractReply, captured: string, uuids: nat -> string)
      requires Valid()
      modifies this
      ensures Valid()
      ensures uploadedFile == old(uploadedFile) && !isExtracting
      ensures Extracted(reply, captured, uuids).Some? ==> invoiceData == Extracted(reply, captured, uuids)
      ensures Extracted(reply, captured, uuids).None? ==> invoiceData == old(invoiceData)
      ensures invoiceData != old(invoiceData) ==> invoiceData.value.fileName == captured
    {
      var extracted := Extracted(reply, captured, uuids);
      if extracted.Some? {
        invoiceData := extracted;
      }
      isExtracting := false;
    }

    /**
     * A new file uploaded while an extraction is pending: the reply is installed under
     * the earlier file's name and replaces the blank invoice of the new file, while
     * the page keeps the new file as the uploaded one.
     */
    method UploadDuringExtract(newFile: string, freshId: string, reply: ExtractReply, uuids: nat -> string)
      requires Valid() && uploadedFile.Some?
      requires Extracted(reply, uploadedFile.value, uuids).Some?
      modifies this
      ensures Valid()
      ensures uploadedFile == Some(newFile) && !isExtracting
      ensures invoiceData == Extracted(reply, old(uploadedFile).value, uuids)
      ensures invoiceData.value.fileName == old(uploadedFile).value
    {
      var captured := StartExtract();
      HandleFileUpload(Some(newFile), freshId);
      FinishExtract(reply, captured.value, uuids);
    }

    /**
     * `handleExtract` with nothing happening while the request is pending: with a
     * file uploaded and a usable reply, the normalised extraction replaces the
     * invoice; otherwise the invoice is left as it was.
     */
    method HandleExtract(reply: ExtractReply, uuids: nat -> string)
      requires Valid()
      modifies this
      ensures Valid()
      ensures uploadedFile == old(uploadedFile)
      ensures old(uploadedFile).Some? && Extracted(reply, old(uploadedFile).value, uuids).Some? ==>
        invoiceData == Extracted(reply, old(uploadedFile).value, uuids)
      ensures old(uploadedFile).None? || Extracted(reply, old(uploadedFile).value, uuids).None? ==>
        invoiceData == old(invoiceData)
      ensures isExtracting == (old(isExtracting) && old(uploadedFile).None?)
    {
      var captured := StartExtract();
      if captured.Some? {
        FinishExtract(reply, captured.value, uuids);
      }
    }

    /** `handleFormChange`: no effect without an invoice. */
    method HandleFormChange(edit: FormEdit)
      requires Valid()
      modifies this
      ensures Valid()
      ensures uploadedFile == old(uploadedFile) && isExtracting == old(isExtracting)
      ensures invoiceData == if old(invoiceData).None? then None else Some(ChangeField(old(invoiceData).value, edit))
    {
      if invoiceData.None? {
        return;
      }
      invoiceData := Some(ChangeField(invoiceData.value, edit));
    }

    /**
     * `handleLineItemChange`: copies the line items into a fresh array, writes the
     * field and the recomputed total of item `index` in place, and installs the
     * copy. An index with no item makes the write throw, so nothing changes.
     */
    method HandleLineItemChange(index: int, edit: ItemEdit)
      requires Valid()
      modifies this
      ensures Valid()
      ensures uploadedFile == old(uploadedFile) && isExtracting == old(isExtracting)
      ensures old(invoiceData).Some? && 0 <= index < |old(invoiceData).value.lineItems| ==>
        invoiceData == Some(old(invoiceData).value.(lineItems := ChangeLineItem(old(invoiceData).value.lineItems, index, edit)))
      ensures old(invoiceData).None? || !(0 <= index < |old(invoiceData).value.lineItems|) ==>
        invoiceData == old(invoiceData)
    {
      if invoiceData.None? {
        return;
      }
      var inv := invoiceData.value;
      var items := inv.lineItems;
      if !(0 <= index < |items|) {
        return;
      }
      var updated := new LineItem[|items|](i requires 0 <= i < |items| => items[i]);
      assert updated[..] == items;
      updated[index] := ApplyItemEdit(updated[index], edit);
      updated[index] := Retotal(updated[index]);
      assert updated[..] == ChangeLineItem(items, index, edit);
      invoiceData := Some(inv.(lineItems := updated[..]));
    }

    /** `addLineItem`: no effect without an invoice. */
    method AddLineItem(freshId: string)
      requires Valid()
      modifies this
      ensures Valid()
      ensures uploadedFile == old(uploadedFile) && isExtracting == old(isExtracting)
      ensures invoiceData ==
        if old(invoiceData).None? then None
        else Some(old(invoiceData).value.(lineItems := AppendBlankItem(old(invoiceData).value.lineItems, freshId)))
    {
      if invoiceData.None? {
        return;
      }
      var inv := invoiceData.value;
      invoiceData := Some(inv.(lineItems := AppendBlankItem(inv.lineItems, freshId)));
    }

    /** `removeLineItem`: no effect without an invoice or with at most one line item. */
    method RemoveLineItem(id: string)
      requires Valid()
      modifies this
      ensures Valid()
      ensures uploadedFile == old(uploadedFile) && isExtracting == old(isExtracting)
      ensures old(invoiceData).None? || |old(invoiceData).value.lineItems| <= 1 ==> invoiceData == old(invoiceData)
      ensures old(invoiceData).Some? && |old(invoiceData).value.lineItems| > 1 ==>
        invoiceData == Some(old(invoiceData).value.(lineItems := RemoveById(old(invoiceData).value.lineItems, id)))
    {
      if invoiceData.None? || |invoiceData.value.lineItems| <= 1 {
        return;
      }
      var inv := invoiceData.value;
      invoiceData := Some(inv.(lineItems := RemoveById(inv.lineItems, id)));
    }
  }
}
