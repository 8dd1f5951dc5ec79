/**
 * The invoice service's PDF of a saved invoice: the item table, valued with
 * the rate per 10 g, its totals, and `createPDF`'s company lookup and file
 * name. The table helpers (`calculateTotal`, `calculateGST`, the totals
 * under the table) are the same as the PDF controller's and are shared.
 *
 * A saved invoice's items carry no making or other charges, so the table
 * reads them as `undefined`: the making-charge product is `NaN`, and
 * `formatMoney` prints `NaN` as "0.00".
 */
module PdfService {
  import opened Wrappers
  import opened Money
  import opened PdfController
  import CompanyCache
  import InvoiceService

  /** An item as the service's table reads it; `None` is a field the item lacks. */
  datatype PdfItem = PdfItem(
    category: string, name: string, hsnNumber: string, karat: string,
    weight: real, rate: real, makingCharges: Option<real>, otherCharges: Option<real>)

  /** A stored line item: its text fields as printed, and no charges at all. */
  function FromStored(item: InvoiceService.InvoiceItem): (p: PdfItem)
    ensures p.weight == item.weight && p.rate == item.rate
    ensures p.makingCharges.None? && p.otherCharges.None?
  {
    PdfItem(Printed(item.category), item.name, Printed(item.hsnNumber), Printed(item.karat),
            item.weight, item.rate, None, None)
  }

  /** How a template literal prints an optional text field. */
  function Printed(o: Option<string>): string {
    match o
    case Some(s) => s
    case None => "undefined"
  }

  /** `totalRate`: the rate is per 10 g. */
  function ServiceValue(item: PdfItem): real {
    item.rate / 10.0 * item.weight
  }

  /**
   * The row as written: with a making charge it is priced like the
   * controller's row; without one the making and amount cells are `NaN`,
   * printed as "0.00".
   */
  function ServiceRowAsWritten(item: PdfItem): (r: Row)
    ensures item.makingCharges.None? ==> r.making == 0.0 && r.amount == 0.0
    ensures item.makingCharges.Some? ==>
      -0.005 <= r.amount - LineCost(ServiceValue(item), item.makingCharges.value, item.otherCharges) <= 0.005
    ensures -0.005 <= r.value - ServiceValue(item) <= 0.005
  {
    match item.makingCharges
    case Some(pct) =>
      PricedRow(item.category, item.name, item.hsnNumber, item.karat, item.weight,
                item.rate, ServiceValue(item), pct, item.otherCharges)
    case None =>
      var r := PricedRow(item.category, item.name, item.hsnNumber, item.karat, item.weight,
                         item.rate, ServiceValue(item), 0.0, item.otherCharges);
      r.(making := 0.0, amount := 0.0)
  }

  /** The row with an absent making charge counted as none, like an absent other charge. */
  function ServiceRow(item: PdfItem): (r: Row)
    ensures -0.005 <= r.value - ServiceValue(item) <= 0.005
    ensures -0.005 <= r.amount - LineCost(ServiceValue(item), OrZero(item.makingCharges), item.otherCharges) <= 0.005
    ensures InPaise(r.amount) && InPaise(r.making)
    ensures item.makingCharges.Some? ==> r == ServiceRowAsWritten(item)
  {
    PricedRow(item.category, item.name, item.hsnNumber, item.karat, item.weight,
              item.rate, ServiceValue(item), OrZero(item.makingCharges), item.otherCharges)
  }

  function ServiceRows(items: seq<PdfItem>): (rows: seq<Row>)
    ensures |rows| == |items|
    ensures forall i :: 0 <= i < |items| ==> rows[i] == ServiceRow(items[i])
  {
    seq(|items|, i requires 0 <= i < |items| => ServiceRow(items[i]))
  }

  function ServiceRowsAsWritten(items: seq<PdfItem>): (rows: seq<Row>)
    ensures |rows| == |items|
    ensures forall i :: 0 <= i < |items| ==> rows[i] == ServiceRowAsWritten(items[i])
  {
    seq(|items|, i requires 0 <= i < |items| => ServiceRowAsWritten(items[i]))
  }

  function StoredItems(items: seq<InvoiceService.InvoiceItem>): (r: seq<PdfItem>)
    ensures |r| == |items| && forall i :: 0 <= i < |items| ==> r[i] == FromStored(items[i])
  {
    seq(|items|, i requires 0 <= i < |items| => FromStored(items[i]))
  }

  /** An amount column of zeros totals zero. */
  lemma {:induction false} ZeroAmounts(rows: seq<Row>)
    requires forall i :: 0 <= i < |rows| ==> rows[i].amount == 0.0
    ensures ColumnSum(rows, 9) == 0.0
  {
    if rows != [] {
      ZeroAmounts(rows[..|rows| - 1]);
    }
  }

  /**
   * As written, the PDF of any saved invoice prints 0.00 in every amount
   * cell and a grand total of 0, whatever its items.
   */
  lemma SavedInvoicePrintsZero(invoice: InvoiceService.Invoice)
    ensures var rows := ServiceRowsAsWritten(StoredItems(invoice.items));
      (forall i :: 0 <= i < |rows| ==> rows[i].amount == 0.0) &&
      Summarize(rows).totalAmount == 0.0 && Summarize(rows).totalWithGst == 0.0
  {
    var rows := ServiceRowsAsWritten(StoredItems(invoice.items));
    ZeroAmounts(rows);
    CentsOfCents(0);
  }

  /** With the absent charges counted as none, a stored line's amount is its value at the per-10 g rate. */
  lemma StoredRowAmount(item: InvoiceService.InvoiceItem)
    ensures -0.005 <= ServiceRow(FromStored(item)).amount - item.rate / 10.0 * item.weight <= 0.005
  {
    var p := FromStored(item);
    var v := ServiceValue(p);
    assert v == item.rate / 10.0 * item.weight;
    assert OrZero(p.makingCharges) == 0.0 && OrZero(p.otherCharges) == 0.0;
    assert v * 0.0 / 100.0 == 0.0;
    assert LineCost(v, OrZero(p.makingCharges), p.otherCharges) == v;
  }

  /** Corrected, every stored line's amount is within rounding of its value at the per-10 g rate. */
  lemma StoredRowsAmounts(items: seq<InvoiceService.InvoiceItem>)
    ensures forall i :: 0 <= i < |items| ==>
      -0.005 <= ServiceRows(StoredItems(items))[i].amount - ServiceValue(FromStored(items[i])) <= 0.005
  {
    var stored := StoredItems(items);
    var rows := ServiceRows(stored);
    forall i | 0 <= i < |items|
      ensures -0.005 <= rows[i].amount - ServiceValue(FromStored(items[i])) <= 0.005
    {
      var p := FromStored(items[i]);
      assert stored[i] == p;
      var v := ServiceValue(p);
      assert LineCost(v, OrZero(p.makingCharges), p.otherCharges) == v + v * 0.0 / 100.0 + 0.0;
      assert v * 0.0 / 100.0 == 0.0;
    }
  }

  /**
   * The service's totals: the printed amount total is the exact sum of the
   * row amounts and the grand total is 103% of it.
   */
  lemma ServiceTotals(items: seq<PdfItem>)
    ensures Summarize(ServiceRows(items)).totalAmount == ColumnSum(ServiceRows(items), 9)
    ensures Summarize(ServiceRows(items)).totalWithGst == Summarize(ServiceRows(items)).totalAmount * 1.03
    ensures Summarize(ServiceRows(items)).sgst == Summarize(ServiceRows(items)).cgst
  {
    var rows := ServiceRows(items);
    ColumnSumInPaise(rows, 9);
    CentsOfCents(Cents(ColumnSum(rows, 9)));
  }

  // ---------------------------------------------------------------------
  // createPDF
  // ---------------------------------------------------------------------

  /** What `createPDF` writes: the file name, the company in the header and the table with its totals. */
  datatype PdfFile = PdfFile(fileName: string, company: CompanyCache.Doc, rows: seq<Row>, summary: Summary)

  /** `${invoiceNumber}.pdf`. */
  function ServiceFileName(invoiceNumber: string): (f: string)
    ensures |f| == |invoiceNumber| + 4 && f[..|invoiceNumber|] == invoiceNumber && f[|invoiceNumber|..] == ".pdf"
  {
    invoiceNumber + ".pdf"
  }

  /**
   * `createPDF` as written: the invoice's company must be in the company
   * cache, or it fails with "Company not found" before any file is made.
   * Otherwise it prints the stored items through the as-written rows, so
   * every amount cell reads 0.00 and the totals are 0.
   */
  function CreatePdfAsWritten(cache: map<string, CompanyCache.Doc>, invoice: InvoiceService.Invoice): (r: Result<PdfFile, string>)
    ensures r.Err? <==> invoice.companyId !in cache
    ensures r.Err? ==> r.error == "Company not found"
    ensures r.Ok? ==> r.value.fileName == ServiceFileName(invoice.invoiceNumber) &&
                      r.value.company == cache[invoice.companyId] &&
                      r.value.summary == Summarize(r.value.rows) &&
                      |r.value.rows| == |invoice.items|
    ensures r.Ok? ==> (forall i :: 0 <= i < |r.value.rows| ==> r.value.rows[i].amount == 0.0) &&
                      r.value.summary.totalAmount == 0.0 && r.value.summary.totalWithGst == 0.0
  {
    if invoice.companyId !in cache then Err("Company not found")
    else
      var rows := ServiceRowsAsWritten(StoredItems(invoice.items));
      SavedInvoicePrintsZero(invoice);
      Ok(PdfFile(ServiceFileName(invoice.invoiceNumber), cache[invoice.companyId], rows, Summarize(rows)))
  }

  /**
   * `createPDF` corrected: the same company lookup and file, with absent
   * charges counted as none, so each row's amount is its stored item's value
   * at the per-10 g rate.
   */
  function CreatePdf(cache: map<string, CompanyCache.Doc>, invoice: InvoiceService.Invoice): (r: Result<PdfFile, string>)
    ensures r.Err? <==> invoice.companyId !in cache
    ensures r.Err? ==> r.error == "Company not found"
    ensures r.Ok? ==> r.value.fileName == ServiceFileName(invoice.invoiceNumber) &&
                      r.value.company == cache[invoice.companyId] &&
                      r.value.summary == Summarize(r.value.rows) &&
                      |r.value.rows| == |invoice.items|
    ensures r.Ok? ==> forall i :: 0 <= i < |invoice.items| ==>
      -0.005 <= r.value.rows[i].amount - ServiceValue(FromStored(invoice.items[i])) <= 0.005
  {
    if invoice.companyId !in cache then Err("Company not found")
    else
      var rows := ServiceRows(StoredItems(invoice.items));
      StoredRowsAmounts(invoice.items);
      Ok(PdfFile(ServiceFileName(invoice.invoiceNumber), cache[invoice.companyId], rows, Summarize(rows)))
  }

  /** Two invoices with different numbers are written to different files. */
  lemma ServiceFileNameInjective(a: string, b: string)
    ensures ServiceFileName(a) == ServiceFileName(b) ==> a == b
  {
    if ServiceFileName(a) == ServiceFileName(b) {
      assert a == ServiceFileName(a)[..|a|];
    }
  }
}
