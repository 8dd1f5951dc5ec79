/**
 * The invoice service's draft-invoice issuance: invoice numbers counted from
 * the stored invoices, line items snapshotted from the tenant's product
 * cache, the `customer.create.command` sent to the customer service, and
 * the later patch that links the created customer back to its invoice.
 *
 * The company and product caches are read-only here and are passed in;
 * the invoice collection and the commands sent are the state that changes.
 * Documents with free-form fields (a request's customer, a command's
 * payload) are maps from field names to text.
 */
module InvoiceService {
  import opened Wrappers
  import opened Text
  import CompanyCache

  type Fields = map<string, string>

  /** One requested line: which product, and the weight, quantity and rate charged. */
  datatype RequestItem = RequestItem(productId: string, weight: real, quantity: real, rate: real)

  /**
   * The body of the issuance request: its items and customer, and the
   * invoice-schema fields a client may also send, which `...data` carries
   * into the saved draft.
   */
  datatype InvoiceRequest = InvoiceRequest(
    items: seq<RequestItem>, customer: Fields,
    filePath: Option<string>, subtotal: Option<real>, totalAmount: Option<real>, createdAt: Option<int>)

  /** A product of the product cache. */
  datatype CachedProduct = CachedProduct(
    id: string, tenantId: string, name: string,
    category: Option<string>, karat: Option<string>, hsnNumber: Option<string>)

  /** A stored line item: the product's details copied at issuance time. */
  datatype InvoiceItem = InvoiceItem(
    productId: string, name: string,
    category: Option<string>, karat: Option<string>, hsnNumber: Option<string>,
    weight: real, quantity: real, rate: real, total: real)

  /** A stored invoice; `customer` holds the fields of the customer sub-document. */
  datatype Invoice = Invoice(
    invoiceNumber: string, companyId: string, tenantId: string,
    customer: Fields, items: seq<InvoiceItem>, tax: real,
    filePath: Option<string>, subtotal: Option<real>, totalAmount: Option<real>,
    createdAt: int, updatedAt: int)

  /** A command sent to the customer service. */
  datatype Command = Command(topic: string, payload: Fields)

  /** Why issuance stops: no cached company, a product not in the cache, or a taken number. */
  datatype Failure = NoCompany | UnknownProduct(productId: string) | DuplicateNumber(invoiceNumber: string)

  // ---------------------------------------------------------------------
  // Invoice numbers
  // ---------------------------------------------------------------------

  /** `INV_${count + 1}` for a collection holding `count` invoices, over all tenants. */
  function InvoiceNumber(index: nat): string {
    "INV_" + NatToString(index)
  }

  /** A number is "INV_" followed by the decimal digits of its index. */
  lemma InvoiceNumberDigits(index: nat)
    ensures var s := InvoiceNumber(index);
      |s| > 4 && s[..4] == "INV_" && AllDigits(s[4..]) && DigitsValue(s[4..]) == index
  {
    NatToStringRoundTrip(index);
    assert InvoiceNumber(index)[4..] == NatToString(index);
  }

  /** Different counts give different numbers. */
  lemma InvoiceNumberInjective(m: nat, n: nat)
    ensures InvoiceNumber(m) == InvoiceNumber(n) ==> m == n
  {
    if InvoiceNumber(m) == InvoiceNumber(n) {
      InvoiceNumberDigits(m);
      InvoiceNumberDigits(n);
      assert InvoiceNumber(m)[4..] == InvoiceNumber(n)[4..];
    }
  }

  // ---------------------------------------------------------------------
  // Item snapshots
  // ---------------------------------------------------------------------

  /** `ProductCacheModel.find({ tenantId })`. */
  function TenantProducts(products: seq<CachedProduct>, tenantId: string): (r: seq<CachedProduct>)
    ensures forall p :: p in r <==> p in products && p.tenantId == tenantId
  {
    if products == [] then []
    else (if products[0].tenantId == tenantId then [products[0]] else []) + TenantProducts(products[1..], tenantId)
  }

  /** `products.find((p) => p._id.toString() === productId)`: the first product with that id. */
  function FindProduct(products: seq<CachedProduct>, productId: string): (r: Option<CachedProduct>)
    ensures r.None? <==> forall p :: p in products ==> p.id != productId
    ensures r.Some? ==> r.value in products && r.value.id == productId
  {
    if products == [] then None
    else if products[0].id == productId then Some(products[0])
    else FindProduct(products[1..], productId)
  }

  /** The stored line: product details from the cache, quantities from the request. */
  function Snapshot(product: CachedProduct, item: RequestItem): (s: InvoiceItem)
    ensures s.productId == product.id && s.name == product.name
    ensures s.category == product.category && s.karat == product.karat && s.hsnNumber == product.hsnNumber
    ensures s.weight == item.weight && s.quantity == item.quantity && s.rate == item.rate
  {
    InvoiceItem(product.id, product.name, product.category, product.karat, product.hsnNumber,
                item.weight, item.quantity, item.rate, item.weight * item.quantity * item.rate)
  }

  /** The line total stored with each item is weight x quantity x rate. */
  lemma SnapshotTotal(product: CachedProduct, item: RequestItem)
    ensures Snapshot(product, item).total == item.weight * item.quantity * item.rate
    ensures item.weight >= 0.0 && item.quantity >= 0.0 && item.rate >= 0.0 ==> Snapshot(product, item).total >= 0.0
  {
    assert item.weight * item.quantity >= 0.0 || item.weight < 0.0 || item.quantity < 0.0;
  }

  /**
   * The `items.map` of issuance: each requested line snapshotted from the
   * product with its id, or the first line whose product is missing (the
   * map dereferences `undefined` there).
   */
  function SnapshotItems(products: seq<CachedProduct>, items: seq<RequestItem>): Result<seq<InvoiceItem>, string> {
    if items == [] then Ok([])
    else match FindProduct(products, items[0].productId)
      case None => Err(items[0].productId)
      case Some(p) =>
        match SnapshotItems(products, items[1..])
        case Err(id) => Err(id)
        case Ok(rest) => Ok([Snapshot(p, items[0])] + rest)
  }

  /** The snapshot succeeds exactly when every item's product is cached. */
  lemma {:induction false} SnapshotItemsOk(products: seq<CachedProduct>, items: seq<RequestItem>)
    ensures SnapshotItems(products, items).Ok? <==>
      forall i :: 0 <= i < |items| ==> FindProduct(products, items[i].productId).Some?
    decreases |items|
  {
    if items != [] {
      var tail := items[1..];
      SnapshotItemsOk(products, tail);
      forall i | 1 <= i < |items| ensures items[i] == tail[i - 1] {
      }
    }
  }

  /** A successful snapshot holds one line per item, in order, built from its cached product. */
  lemma {:induction false} SnapshotItemsValues(products: seq<CachedProduct>, items: seq<RequestItem>)
    requires SnapshotItems(products, items).Ok?
    ensures |SnapshotItems(products, items).value| == |items|
    ensures forall i :: 0 <= i < |items| ==>
      FindProduct(products, items[i].productId).Some? &&
      SnapshotItems(products, items).value[i] == Snapshot(FindProduct(products, items[i].productId).value, items[i])
    decreases |items|
  {
    if items != [] {
      var tail := items[1..];
      var p := FindProduct(products, items[0].productId).value;
      SnapshotItemsValues(products, tail);
      var rest := SnapshotItems(products, tail).value;
      var r := [Snapshot(p, items[0])] + rest;
      assert SnapshotItems(products, items).value == r;
      forall i | 0 <= i < |items|
        ensures FindProduct(products, items[i].productId).Some?
        ensures r[i] == Snapshot(FindProduct(products, items[i].productId).value, items[i])
      {
        if i > 0 {
          assert items[i] == tail[i - 1];
          assert r[i] == rest[i - 1];
        }
      }
    }
  }

  /** A failed snapshot names the product id of an item whose product is not cached. */
  lemma {:induction false} SnapshotItemsMissing(products: seq<CachedProduct>, items: seq<RequestItem>)
    requires SnapshotItems(products, items).Err?
    ensures exists i ::
      0 <= i < |items| && items[i].productId == SnapshotItems(products, items).error &&
      FindProduct(products, items[i].productId).None?
    decreases |items|
  {
    var tail := items[1..];
    if FindProduct(products, items[0].productId).Some? {
      SnapshotItemsMissing(products, tail);
      var id := SnapshotItems(products, tail).error;
      var j :| 0 <= j < |tail| && tail[j].productId == id && FindProduct(products, tail[j].productId).None?;
      assert items[j + 1] == tail[j];
    }
  }

  // ---------------------------------------------------------------------
  // Documents built by issuance
  // ---------------------------------------------------------------------

  /** The fields the invoice schema keeps in its customer sub-document. */
  const CustomerKeys: set<string> := {"_id", "name", "phone", "email", "address"}

  /** The request's customer as stored: the schema drops every other field. */
  function CustomerDoc(customer: Fields): (c: Fields)
    ensures c.Keys == customer.Keys * CustomerKeys
    ensures forall k :: k in c ==> c[k] == customer[k]
  {
    map k | k in customer.Keys * CustomerKeys :: customer[k]
  }

  /** `{ ...customer, tenantId, companyId, invoiceNumber }`. */
  function CustomerCommand(customer: Fields, tenantId: string, companyId: string, invoiceNumber: string): (c: Command)
    ensures c.topic == "customer.create.command"
    ensures forall k :: k in c.payload <==> k in customer || k == "tenantId" || k == "companyId" || k == "invoiceNumber"
    ensures c.payload["tenantId"] == tenantId && c.payload["companyId"] == companyId
    ensures c.payload["invoiceNumber"] == invoiceNumber
    ensures forall k :: k in customer && k != "tenantId" && k != "companyId" && k != "invoiceNumber" ==> c.payload[k] == customer[k]
  {
    Command("customer.create.command",
            customer["tenantId" := tenantId]["companyId" := companyId]["invoiceNumber" := invoiceNumber])
  }

  /**
   * The saved draft, `{ ...data, companyId, tenantId, total, tax, invoiceNumber, items }`:
   * the request's own schema fields are kept, its `tax` is the constant 2
   * whatever the items, and the constant `total` names no schema field and
   * is dropped. `createdAt` defaults to the save time `now`, and the
   * schema's timestamps set `updatedAt` to it.
   */
  function Draft(invoiceNumber: string, companyId: string, tenantId: string,
                 data: InvoiceRequest, items: seq<InvoiceItem>, now: int): (inv: Invoice)
    ensures inv.invoiceNumber == invoiceNumber && inv.companyId == companyId && inv.tenantId == tenantId
    ensures inv.customer == CustomerDoc(data.customer) && inv.items == items
    ensures inv.tax == 2.0
    ensures inv.filePath == data.filePath && inv.subtotal == data.subtotal && inv.totalAmount == data.totalAmount
    ensures inv.createdAt == (if data.createdAt.Some? then data.createdAt.value else now) && inv.updatedAt == now
  {
    Invoice(invoiceNumber, companyId, tenantId, CustomerDoc(data.customer), items, 2.0,
            data.filePath, data.subtotal, data.totalAmount, data.createdAt.GetOr(now), now)
  }

  /** Whether some stored invoice has this number. */
  predicate NumberTaken(invoices: seq<Invoice>, invoiceNumber: string) {
    exists i :: 0 <= i < |invoices| && invoices[i].invoiceNumber == invoiceNumber
  }

  /** Whether a cached company document belongs to the tenant. */
  predicate OfTenant(doc: CompanyCache.Doc, tenantId: string) {
    "tenantId" in doc && doc["tenantId"] == CompanyCache.Str(tenantId)
  }

  /** The answer `CompanyCacheModel.findOne({ tenantId })` may give. */
  predicate CompanyLookup(companies: map<string, CompanyCache.Doc>, tenantId: string, hit: Option<string>) {
    match hit
    case Some(id) => id in companies && OfTenant(companies[id], tenantId)
    case None => forall id :: id in companies ==> !OfTenant(companies[id], tenantId)
  }

  /** The index `findOneAndUpdate({ invoiceNumber })` matches: the first invoice with that number. */
  function FirstWithNumber(invoices: seq<Invoice>, invoiceNumber: string): (r: Option<nat>)
    ensures r.None? <==> !NumberTaken(invoices, invoiceNumber)
    ensures r.Some? ==> (r.value < |invoices| && invoices[r.value].invoiceNumber == invoiceNumber &&
      forall j :: 0 <= j < r.value ==> invoices[j].invoiceNumber != invoiceNumber)
  {
    if invoices == [] then None
    else if invoices[0].invoiceNumber == invoiceNumber then Some(0)
    else match FirstWithNumber(invoices[1..], invoiceNumber)
      case None => None
      case Some(k) => Some(k + 1)
  }

  /**
   * `{ $set: { "customer._id": customerId } }` on one invoice at time `now`:
   * the schema's timestamps add `updatedAt: now` to the update.
   */
  function LinkCustomer(inv: Invoice, customerId: string, now: int): (r: Invoice)
    ensures r.customer.Keys == inv.customer.Keys + {"_id"} && r.customer["_id"] == customerId
    ensures forall k :: k in inv.customer && k != "_id" ==> r.customer[k] == inv.customer[k]
    ensures r.updatedAt == now
    ensures r.(customer := inv.customer, updatedAt := inv.updatedAt) == inv
  {
    inv.(customer := inv.customer["_id" := customerId], updatedAt := now)
  }

  /** The collection after `updateCustomerData`: only the matched invoice is linked. */
  function Patched(invoices: seq<Invoice>, invoiceNumber: string, customerId: string, now: int): (r: seq<Invoice>)
    ensures |r| == |invoices|
    ensures forall i :: 0 <= i < |r| ==> r[i].invoiceNumber == invoices[i].invoiceNumber
    ensures !NumberTaken(invoices, invoiceNumber) ==> r == invoices
    ensures forall i :: 0 <= i < |r| && r[i] != invoices[i] ==> FirstWithNumber(invoices, invoiceNumber) == Some(i)
  {
    match FirstWithNumber(invoices, invoiceNumber)
    case None => invoices
    case Some(k) => invoices[k := LinkCustomer(invoices[k], customerId, now)]
  }

  /** The match depends only on the numbers of the invoices. */
  lemma {:induction false} FirstWithNumberByNumbers(a: seq<Invoice>, b: seq<Invoice>, invoiceNumber: string)
    requires |a| == |b|
    requires forall i :: 0 <= i < |a| ==> a[i].invoiceNumber == b[i].invoiceNumber
    ensures FirstWithNumber(a, invoiceNumber) == FirstWithNumber(b, invoiceNumber)
  {
    if a != [] && a[0].invoiceNumber != invoiceNumber {
      FirstWithNumberByNumbers(a[1..], b[1..], invoiceNumber);
    }
  }

  /** Applying the same customer link twice at the same time leaves the store as applying it once. */
  lemma PatchedIdempotent(invoices: seq<Invoice>, invoiceNumber: string, customerId: string, now: int)
    ensures Patched(Patched(invoices, invoiceNumber, customerId, now), invoiceNumber, customerId, now)
         == Patched(invoices, invoiceNumber, customerId, now)
  {
    var once := Patched(invoices, invoiceNumber, customerId, now);
    FirstWithNumberByNumbers(invoices, once, invoiceNumber);
    match FirstWithNumber(invoices, invoiceNumber)
    case None =>
    case Some(k) =>
      assert LinkCustomer(once[k], customerId, now) == once[k];
  }

  /** A later redelivery of the same link changes only the matched invoice's `updatedAt`. */
  lemma PatchedRestamp(invoices: seq<Invoice>, invoiceNumber: string, customerId: string, t1: int, t2: int, k: nat)
    requires FirstWithNumber(invoices, invoiceNumber) == Some(k)
    ensures var once := Patched(invoices, invoiceNumber, customerId, t1);
      Patched(once, invoiceNumber, customerId, t2) == once[k := once[k].(updatedAt := t2)]
  {
    var once := Patched(invoices, invoiceNumber, customerId, t1);
    FirstWithNumberByNumbers(invoices, once, invoiceNumber);
    assert LinkCustomer(once[k], customerId, t2) == once[k].(updatedAt := t2);
  }

  /** Every invoice carries the number of its position, counting from 1. */
  ghost predicate NumberedByPosition(invoices: seq<Invoice>) {
    forall i :: 0 <= i < |invoices| ==> invoices[i].invoiceNumber == InvoiceNumber(i + 1)
  }

  /** Appending an invoice that carries the next number keeps the numbering. */
  lemma NumberedAppend(invoices: seq<Invoice>, invoice: Invoice)
    requires NumberedByPosition(invoices) && invoice.invoiceNumber == InvoiceNumber(|invoices| + 1)
    ensures NumberedByPosition(invoices + [invoice])
  {
    var longer := invoices + [invoice];
    forall i | 0 <= i < |longer| ensures longer[i].invoiceNumber == InvoiceNumber(i + 1) {
      if i < |invoices| {
        assert longer[i] == invoices[i];
      }
    }
  }

  // ---------------------------------------------------------------------
  // The invoice store
  // ---------------------------------------------------------------------

  /** The invoice collection and the commands sent to the customer service. */
  class InvoiceStore {
    var invoices: seq<Invoice>
    var commands: seq<Command>

    /** Every stored invoice carries the number its position was issued with. */
    ghost predicate Numbered()
      reads this`invoices
    {
      NumberedByPosition(invoices)
    }

    constructor ()
      ensures invoices == [] && commands == [] && Numbered()
    {
      invoices := [];
      commands := [];
    }

    /** `createInvoiceNumber`: one more than the number of stored invoices. */
    method CreateInvoiceNumber() returns (n: string)
      ensures n == InvoiceNumber(|invoices| + 1)
      ensures Numbered() ==> !NumberTaken(invoices, n)
    {
      n := "INV_" + NatToString(|invoices| + 1);
      if Numbered() && NumberTaken(invoices, n) {
        var i :| 0 <= i < |invoices| && invoices[i].invoiceNumber == n;
        InvoiceNumberInjective(i + 1, |invoices| + 1);
      }
    }

    /**
     * `saveInvoiceInDB`: find the tenant's cached company (`companyHit` is
     * the lookup's answer), number the invoice, send the customer command,
     * snapshot the items and save. A missing company stops before anything
     * is sent; a missing product stops after the command has gone out; a
     * number already stored is refused by the unique index.
     */
    method SaveInvoice(tenantId: string, data: InvoiceRequest,
                       companies: map<string, CompanyCache.Doc>, companyHit: Option<string>,
                       productCache: seq<CachedProduct>, now: int)
      returns (r: Result<Invoice, Failure>)
      requires CompanyLookup(companies, tenantId, companyHit)
      modifies this`invoices, this`commands
      ensures companyHit.None? ==> r == Err(NoCompany) && invoices == old(invoices) && commands == old(commands)
      ensures companyHit.Some? ==> (commands == old(commands) +
        [CustomerCommand(data.customer, tenantId, companyHit.value, InvoiceNumber(|old(invoices)| + 1))])
      ensures companyHit.Some? ==>
        match SnapshotItems(TenantProducts(productCache, tenantId), data.items)
        case Err(id) => r == Err(UnknownProduct(id)) && invoices == old(invoices)
        case Ok(items) =>
          var number := InvoiceNumber(|old(invoices)| + 1);
          if NumberTaken(old(invoices), number) then r == Err(DuplicateNumber(number)) && invoices == old(invoices)
          else r == Ok(Draft(number, companyHit.value, tenantId, data, items, now)) &&
               invoices == old(invoices) + [r.value]
      ensures old(Numbered()) ==> Numbered() && (companyHit.Some? ==> r.Ok? || r.error.UnknownProduct?)
    {
      if companyHit.None? {
        return Err(NoCompany);
      }
      var companyId := companyHit.value;
      var products := TenantProducts(productCache, tenantId);
      var invoiceNumber := CreateInvoiceNumber();
      ghost var before := invoices;
      commands := commands + [CustomerCommand(data.customer, tenantId, companyId, invoiceNumber)];
      assert invoices == before;
      r := SaveItems(invoiceNumber, companyId, tenantId, data, products, now);
    }

    /** The rest of `saveInvoiceInDB`, once the number is issued: snapshot the items, then save the draft. */
    method SaveItems(invoiceNumber: string, companyId: string, tenantId: string, data: InvoiceRequest,
                     products: seq<CachedProduct>, now: int)
      returns (r: Result<Invoice, Failure>)
      modifies this`invoices
      ensures match SnapshotItems(products, data.items)
        case Err(id) => r == Err(UnknownProduct(id)) && invoices == old(invoices)
        case Ok(items) =>
          if NumberTaken(old(invoices), invoiceNumber) then r == Err(DuplicateNumber(invoiceNumber)) && invoices == old(invoices)
          else r == Ok(Draft(invoiceNumber, companyId, tenantId, data, items, now)) &&
               invoices == old(invoices) + [r.value]
      ensures old(Numbered()) && invoiceNumber == InvoiceNumber(|old(invoices)| + 1) ==> Numbered()
    {
      var snapshot := SnapshotItems(products, data.items);
      if snapshot.Err? {
        return Err(UnknownProduct(snapshot.error));
      }
      r := Store(Draft(invoiceNumber, companyId, tenantId, data, snapshot.value, now));
    }

    /**
     * `new InvoiceModel(updatedData).save()`: the unique index on
     * `invoiceNumber` refuses a number already stored.
     */
    method Store(invoice: Invoice) returns (r: Result<Invoice, Failure>)
      modifies this`invoices
      ensures NumberTaken(old(invoices), invoice.invoiceNumber) ==>
        r == Err(DuplicateNumber(invoice.invoiceNumber)) && invoices == old(invoices)
      ensures !NumberTaken(old(invoices), invoice.invoiceNumber) ==>
        r == Ok(invoice) && invoices == old(invoices) + [invoice]
      ensures old(Numbered()) && invoice.invoiceNumber == InvoiceNumber(|old(invoices)| + 1) ==> Numbered()
    {
      if NumberTaken(invoices, invoice.invoiceNumber) {
        return Err(DuplicateNumber(invoice.invoiceNumber));
      }
      if NumberedByPosition(invoices) && invoice.invoiceNumber == InvoiceNumber(|invoices| + 1) {
        NumberedAppend(invoices, invoice);
      }
      invoices := invoices + [invoice];
      r := Ok(invoice);
    }

    /**
     * `updateCustomerData` at time `now`: set `customer._id` (and, through
     * the timestamps, `updatedAt`) on the invoice with the number and return
     * it, or return nothing when no invoice has it.
     */
    method UpdateCustomerData(invoiceNumber: string, customerId: string, now: int) returns (r: Option<Invoice>)
      modifies this
      ensures invoices == Patched(old(invoices), invoiceNumber, customerId, now)
      ensures commands == old(commands)
      ensures r.None? <==> !NumberTaken(old(invoices), invoiceNumber)
      ensures r.Some? ==> r.value.invoiceNumber == invoiceNumber && "_id" in r.value.customer && r.value.customer["_id"] == customerId
      ensures r.Some? ==> r.value.updatedAt == now && r.value in invoices
      ensures old(Numbered()) ==> Numbered()
    {
      var k := FirstWithNumber(invoices, invoiceNumber);
      match k {
        case None =>
          r := None;
        case Some(i) =>
          var patched := LinkCustomer(invoices[i], customerId, now);
          invoices := invoices[i := patched];
          r := Some(patched);
      }
    }
  }

  /**
   * Issued numbers never repeat: in a collection every invoice of which
   * carries the number of its position, no two invoices share a number.
   */
  lemma NumbersDistinct(invoices: seq<Invoice>, i: nat, j: nat)
    requires forall k :: 0 <= k < |invoices| ==> invoices[k].invoiceNumber == InvoiceNumber(k + 1)
    requires i < j < |invoices|
    ensures invoices[i].invoiceNumber != invoices[j].invoiceNumber
  {
    InvoiceNumberInjective(i + 1, j + 1);
  }
}
