/**
 * The invoice records the editor works on: a vendor, an invoice header and a list
 * of line items, plus the two keys the store adds (`_id`, `createdAt`). Amounts are
 * `real`; the `Number` coercions and NaN of the JavaScript code are not modelled.
 */
module Invoice {
  import opened Wrappers

  datatype LineItem = LineItem(id: string, description: string, unitPrice: real, quantity: real, total: real)

  datatype Vendor = Vendor(name: string, address: string, taxId: string)

  datatype Header = Header(number: string, date: string, currency: string,
                           subtotal: real, taxPercent: real, total: real,
                           poNumber: string, poDate: string)

  datatype FullInvoice = FullInvoice(storeId: Option<string>, fileName: string, vendor: Vendor,
                                     invoice: Header, lineItems: seq<LineItem>, createdAt: Option<string>)

  /** A line item whose total is its quantity times its unit price. */
  predicate TotalIsDerived(item: LineItem) {
    item.total == item.quantity * item.unitPrice
  }

  /** The editor's invariant: every line item's total is derived. */
  predicate TotalsDerived(items: seq<LineItem>) {
    forall i :: 0 <= i < |items| ==> TotalIsDerived(items[i])
  }

  /** No two line items share an id. */
  predicate UniqueIds(items: seq<LineItem>) {
    forall i, j :: 0 <= i < j < |items| ==> items[i].id != items[j].id
  }

  /** The item a new invoice starts with and `addLineItem` appends. */
  predicate IsBlankItem(item: LineItem) {
    item.description == "" && item.unitPrice == 0.0 && item.quantity == 1.0 && item.total == 0.0
  }

  function BlankItem(id: string): LineItem {
    LineItem(id, "", 0.0, 1.0, 0.0)
  }
}
