/**
 * The invoice service's PDF controller: the item table's arithmetic, the
 * totals and tax lines under it, the output file name, and the per-day
 * invoice numbering backed by a stored counter per date.
 *
 * Table cells are kept as the numbers their text denotes: a cell printed
 * with `toFixed(2)` is `Round2` of the amount and the weight cell printed
 * with `toFixed(3)` is `Round3` of the weight; `calculateTotal` reads the
 * cells back with `parseFloat`, so it sums exactly those numbers.
 */
module PdfController {
  import opened Wrappers
  import opened Text
  import opened Money

  // ---------------------------------------------------------------------
  // Table rows
  // ---------------------------------------------------------------------

  /** One item of the posted invoice, as the table reads it. */
  datatype Item = Item(
    kind: string, description: string, hsnCode: string, purity: string,
    grossWeight: real, rate: real, makingCharges: real, otherCharges: Option<real>)

  /** `item.otherCharges || 0`: an absent (or zero) charge counts as nothing. */
  function OrZero(o: Option<real>): real {
    match o
    case Some(v) => v
    case None => 0.0
  }

  /**
   * One table row: four text cells, then the weight, rate, value, making
   * charges, other charges and amount cells (columns 4 to 9).
   */
  datatype Row = Row(
    kind: string, description: string, hsnCode: string, purity: string,
    weight: real, rate: real, value: real, making: real, other: real, amount: real)

  /** The number a numeric cell holds; columns are counted from 0. */
  function Column(row: Row, k: nat): real
    requires 4 <= k <= 9
  {
    match k
    case 4 => row.weight
    case 5 => row.rate
    case 6 => row.value
    case 7 => row.making
    case 8 => row.other
    case _ => row.amount
  }

  /** `calculateGST`: `pct` percent of `value`. */
  function CalculateGst(value: real, pct: real): real {
    value * pct / 100.0
  }

  /**
   * A table row from the line's value (`totalRate`), its making-charge
   * percentage and its optional other charges; the amount is
   * making + other + value, and every money cell is printed to the paisa.
   */
  function PricedRow(kind: string, description: string, hsnCode: string, purity: string,
                     weight: real, rate: real, value: real, makingPct: real,
                     otherCharges: Option<real>): (r: Row)
    ensures r.kind == kind && r.description == description
    ensures r.hsnCode == hsnCode && r.purity == purity
    ensures -0.0005 <= r.weight - weight <= 0.0005
    ensures -0.005 <= r.value - value <= 0.005
    ensures -0.005 <= r.making - value * makingPct / 100.0 <= 0.005
    ensures -0.005 <= r.other - OrZero(otherCharges) <= 0.005
    ensures -0.005 <= r.amount - LineCost(value, makingPct, otherCharges) <= 0.005
    ensures InPaise(r.rate) && InPaise(r.value) && InPaise(r.making)
    ensures InPaise(r.other) && InPaise(r.amount)
  {
    var making := value * makingPct / 100.0;
    var amount := making + OrZero(otherCharges) + value;
    Round2InPaise(rate);
    Round2InPaise(value);
    Round2InPaise(making);
    Round2InPaise(OrZero(otherCharges));
    Round2InPaise(amount);
    Row(kind, description, hsnCode, purity, Round3(weight), Round2(rate), Round2(value),
        Round2(making), Round2(OrZero(otherCharges)), Round2(amount))
  }

  /** What a line of the given value costs before any rounding. */
  function LineCost(value: real, makingPct: real, otherCharges: Option<real>): real {
    value + value * makingPct / 100.0 + OrZero(otherCharges)
  }

  /** `totalRate`: the rate times the gross weight. */
  function LineValue(item: Item): real {
    item.rate * item.grossWeight
  }

  /** The controller's row, valued at rate x gross weight. */
  function RowOf(item: Item): (r: Row)
    ensures r.kind == item.kind && r.description == item.description
    ensures r.hsnCode == item.hsnCode && r.purity == item.purity
    ensures -0.005 <= r.value - LineValue(item) <= 0.005
    ensures -0.005 <= r.amount - ExactAmount(item) <= 0.005
    ensures InPaise(r.amount) && InPaise(r.making)
  {
    PricedRow(item.kind, item.description, item.hsnCode, item.purity, item.grossWeight,
              item.rate, LineValue(item), item.makingCharges, item.otherCharges)
  }

  /** What a line costs before any rounding. */
  function ExactAmount(item: Item): real {
    LineCost(LineValue(item), item.makingCharges, item.otherCharges)
  }

  function Rows(items: seq<Item>): (rows: seq<Row>)
    ensures |rows| == |items|
    ensures forall i :: 0 <= i < |items| ==> rows[i] == RowOf(items[i])
  {
    seq(|items|, i requires 0 <= i < |items| => RowOf(items[i]))
  }

  // ---------------------------------------------------------------------
  // Column totals
  // ---------------------------------------------------------------------

  /** The `reduce` of `calculateTotal`, before its `toFixed(2)`. */
  function ColumnSum(rows: seq<Row>, k: nat): real
    requires 4 <= k <= 9
  {
    if rows == [] then 0.0 else ColumnSum(rows[..|rows| - 1], k) + Column(rows[|rows| - 1], k)
  }

  /** `parseFloat(calculateTotal(rows, k))`. */
  function CalculateTotal(rows: seq<Row>, k: nat): (t: real)
    requires 4 <= k <= 9
    ensures rows == [] ==> t == 0.0
    ensures -0.005 <= t - ColumnSum(rows, k) <= 0.005
    ensures InPaise(t)
  {
    Round2InPaise(ColumnSum(rows, k));
    Round2(ColumnSum(rows, k))
  }

  /** A column of whole paise adds up to whole paise. */
  lemma {:induction false} ColumnSumInPaise(rows: seq<Row>, k: nat)
    requires 4 <= k <= 9
    requires forall i :: 0 <= i < |rows| ==> InPaise(Column(rows[i], k))
    ensures InPaise(ColumnSum(rows, k))
  {
    if rows == [] {
      CentsOfCents(0);
    } else {
      ColumnSumInPaise(rows[..|rows| - 1], k);
      PaiseAdd(ColumnSum(rows[..|rows| - 1], k), Column(rows[|rows| - 1], k));
    }
  }

  /**
   * Totalling a money column loses nothing: the cells are already whole
   * paise, so the printed total is their exact sum.
   */
  lemma AmountTotalExact(items: seq<Item>)
    ensures CalculateTotal(Rows(items), 9) == ColumnSum(Rows(items), 9)
    ensures CalculateTotal(Rows(items), 7) == ColumnSum(Rows(items), 7)
  {
    var rows := Rows(items);
    ColumnSumInPaise(rows, 9);
    ColumnSumInPaise(rows, 7);
    CentsOfCents(Cents(ColumnSum(rows, 9)));
    CentsOfCents(Cents(ColumnSum(rows, 7)));
  }

  /** The exact cost of all lines. */
  function ExactTotal(items: seq<Item>): real {
    if items == [] then 0.0 else ExactTotal(items[..|items| - 1]) + ExactAmount(items[|items| - 1])
  }

  /** Rounding each row costs at most half a paisa per line. */
  lemma {:induction false} AmountTotalDrift(items: seq<Item>)
    ensures -0.005 * |items| as real <= ColumnSum(Rows(items), 9) - ExactTotal(items) <= 0.005 * |items| as real
  {
    if items != [] {
      var init := items[..|items| - 1];
      AmountTotalDrift(init);
      assert Rows(items)[..|items| - 1] == Rows(init);
    }
  }

  // ---------------------------------------------------------------------
  // Totals and taxes
  // ---------------------------------------------------------------------

  /** The half rate charged as SGST and again as CGST, in percent. */
  const HalfGstPercent: real := 1.5

  /**
   * The figures printed under the table: the weight and making-charge
   * column totals, the amount total, the SGST and CGST lines (one and the
   * same `gstAmount`) and the grand total `totalWithGST`.
   */
  datatype Summary = Summary(
    totalWeight: real, totalMaking: real, totalAmount: real,
    sgst: real, cgst: real, totalWithGst: real)

  function Summarize(rows: seq<Row>): (s: Summary)
    ensures s.sgst == s.cgst
    ensures s.totalAmount == CalculateTotal(rows, 9)
    ensures s.totalWithGst == s.totalAmount * 1.03
    ensures s.totalWithGst == s.totalAmount + s.sgst + s.cgst
    ensures rows == [] ==> s == Summary(0.0, 0.0, 0.0, 0.0, 0.0, 0.0)
  {
    var totalAmount := CalculateTotal(rows, 9);
    var gst := CalculateGst(totalAmount, HalfGstPercent);
    Summary(CalculateTotal(rows, 4), CalculateTotal(rows, 7), totalAmount, gst, gst,
            totalAmount + CalculateGst(totalAmount, HalfGstPercent) * 2.0)
  }

  /** The controller's totals for a list of items. */
  function InvoiceSummary(items: seq<Item>): Summary {
    Summarize(Rows(items))
  }

  /**
   * The grand total is 103% of the sum of the printed row amounts, and
   * within half a paisa per line of 103% of the unrounded cost.
   */
  lemma {:induction false} GrandTotal(items: seq<Item>)
    ensures InvoiceSummary(items).totalAmount == ColumnSum(Rows(items), 9)
    ensures -0.00515 * |items| as real <= InvoiceSummary(items).totalWithGst - ExactTotal(items) * 1.03
                                      <= 0.00515 * |items| as real
  {
    AmountTotalExact(items);
    AmountTotalDrift(items);
  }

  // ---------------------------------------------------------------------
  // File name
  // ---------------------------------------------------------------------

  /** `invoice_${invoiceNumber}.pdf`. */
  function FileName(invoiceNumber: string): (f: string)
    ensures |f| == |invoiceNumber| + 12
    ensures f[..8] == "invoice_" && f[|f| - 4..] == ".pdf"
    ensures f[8..|f| - 4] == invoiceNumber
  {
    "invoice_" + invoiceNumber + ".pdf"
  }

  /** Distinct invoice numbers never share a file. */
  lemma FileNameInjective(a: string, b: string)
    ensures FileName(a) == FileName(b) ==> a == b
  {
    if FileName(a) == FileName(b) {
      assert a == FileName(a)[8..|FileName(a)| - 4];
    }
  }

  // ---------------------------------------------------------------------
  // Daily invoice numbers
  // ---------------------------------------------------------------------

  /**
   * `${date}-${String(n).padStart(4, "0")}`: the date, a dash, and the
   * counter in at least four digits, which read back as the counter.
   */
  function DailyNumber(date: string, n: nat): (s: string)
    ensures |s| >= |date| + 5
    ensures s[..|date| + 1] == date + "-"
    ensures AllDigits(s[|date| + 1..]) && DigitsValue(s[|date| + 1..]) == n
  {
    var padded := PadStart(NatToString(n), 4, '0');
    PadStartValue(NatToString(n), 4);
    NatToStringRoundTrip(n);
    assert (date + "-" + padded)[|date| + 1..] == padded;
    date + "-" + padded
  }

  /** The first number of a day ends in "-0001". */
  lemma FirstOfDay(date: string)
    ensures DailyNumber(date, 1) == date + "-0001"
  {
    assert NatToString(1) == "1";
  }

  /** Four digits or more are printed in full, without padding or truncation. */
  lemma NoTruncation(date: string, n: nat)
    requires n >= 1000
    ensures DailyNumber(date, n) == date + "-" + NatToString(n)
  {
    FourDigits(n);
  }

  lemma FourDigits(n: nat)
    requires n >= 1000
    ensures |NatToString(n)| >= 4
  {
    assert |NatToString(n)| == |NatToString(n / 10)| + 1;
    assert |NatToString(n / 10)| == |NatToString(n / 10 / 10)| + 1;
    assert |NatToString(n / 10 / 10)| == |NatToString(n / 10 / 10 / 10)| + 1;
  }

  /**
   * Numbers issued for dates of one length (`yyyyMMdd`) are equal only for
   * the same date and the same counter value.
   */
  lemma DailyNumberInjective(d1: string, m: nat, d2: string, n: nat)
    requires |d1| == |d2|
    ensures DailyNumber(d1, m) == DailyNumber(d2, n) ==> d1 == d2 && m == n
  {
    if DailyNumber(d1, m) == DailyNumber(d2, n) {
      assert d1 == DailyNumber(d1, m)[..|d1|];
    }
  }

  /** The stored counters, one per date (`DailySequence`, default 0). */
  class DailySequence {
    var counters: map<string, nat>

    constructor ()
      ensures counters == map[]
    {
      counters := map[];
    }

    /** The stored counter for `date`; a date never seen reads as 0. */
    function Counter(date: string): nat
      reads this
    {
      if date in counters then counters[date] else 0
    }

    /**
     * `generateInvoiceNumber`: increment the date's counter by one (creating
     * it at 0 first when absent) and print the new value.
     */
    method GenerateInvoiceNumber(date: string) returns (number: string)
      modifies this
      ensures counters == old(counters)[date := old(Counter(date)) + 1]
      ensures Counter(date) == old(Counter(date)) + 1
      ensures forall d :: d != date ==> Counter(d) == old(Counter(d))
      ensures number == DailyNumber(date, Counter(date))
    {
      var value := Counter(date) + 1;
      counters := counters[date := value];
      number := DailyNumber(date, value);
    }
  }

  /**
   * Two calls for the same date never hand out the same number: the later
   * one prints a strictly larger counter.
   */
  lemma SuccessiveNumbersDiffer(date: string, before: nat, after: nat)
    requires before < after
    ensures DailyNumber(date, before) != DailyNumber(date, after)
  {
    DailyNumberInjective(date, before, date, after);
  }
}
