/** The shared helper module of the web client: the blank invoice a new upload starts from. */
module Utils {
  import opened Wrappers
  import opened Invoice

  /** `createEmptyInvoice`, with the random UUID of its one line item supplied as `freshId`. */
  function CreateEmptyInvoice(fileName: string, freshId: string): (inv: FullInvoice)
    ensures inv.fileName == fileName
    ensures inv.vendor.name == inv.vendor.address == inv.vendor.taxId == ""
    ensures inv.invoice.number == inv.invoice.date == inv.invoice.poNumber == inv.invoice.poDate == ""
    ensures inv.invoice.currency == "$"
    ensures inv.invoice.subtotal == inv.invoice.taxPercent == inv.invoice.total == 0.0
    ensures |inv.lineItems| == 1 && IsBlankItem(inv.lineItems[0]) && inv.lineItems[0].id == freshId
    ensures TotalsDerived(inv.lineItems) && UniqueIds(inv.lineItems)
    ensures inv.storeId.None? && inv.createdAt.None?
  {
    FullInvoice(None, fileName, Vendor("", "", ""),
                Header("", "", "$", 0.0, 0.0, 0.0, "", ""),
                [BlankItem(freshId)], None)
  }
}
