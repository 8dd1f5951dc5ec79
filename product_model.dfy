/**
 * The product schema: which fields are required, the allowed categories and
 * karats, and the pre-save hook that fills in the tariff heading (HSN code)
 * from the category when the product has none.
 */
module ProductModel {
  import opened Wrappers

  /** A product document; `kind` is the schema's `type` field. */
  datatype Product = Product(
    name: string, kind: string, category: string, karat: Option<string>,
    hsnNumber: Option<string>, companyId: string, tenantId: string)

  const Categories: set<string> := {"GOLD", "SILVER", "DIAMOND", "PLATINUM"}
  const Karats: set<string> := {"14K", "18K", "22K", "24K"}

  /** `HSN_MAPPING[category]`: heading 7113 for jewellery of precious metal, 7102 for diamonds. */
  function HsnFor(category: string): (h: Option<string>)
    ensures category in {"GOLD", "SILVER", "PLATINUM"} ==> h == Some("7113")
    ensures category == "DIAMOND" ==> h == Some("7102")
    ensures h.Some? <==> category in Categories
  {
    match category
    case "GOLD" => Some("7113")
    case "SILVER" => Some("7113")
    case "PLATINUM" => Some("7113")
    case "DIAMOND" => Some("7102")
    case _ => None
  }

  /** Why validation refuses a document. */
  datatype ProductError = Required(field: string) | NotInEnum(field: string, value: string)

  /** A required String field holds a non-empty value. */
  predicate Filled(s: string) { s != "" }

  /** The schema's rules, all together. */
  predicate Valid(p: Product) {
    Filled(p.name) && Filled(p.kind) && p.category in Categories &&
    (p.category == "GOLD" ==> p.karat.Some? && Filled(p.karat.value)) &&
    (p.karat.Some? ==> p.karat.value in Karats) &&
    Filled(p.companyId) && Filled(p.tenantId)
  }

  /** The first rule a document breaks, in the schema's field order, or none. */
  function Validate(p: Product): (e: Option<ProductError>)
    ensures e.None? <==> Valid(p)
  {
    if !Filled(p.name) then Some(Required("name"))
    else if !Filled(p.kind) then Some(Required("type"))
    else if !Filled(p.category) then Some(Required("category"))
    else if p.category !in Categories then Some(NotInEnum("category", p.category))
    else if p.category == "GOLD" && (p.karat.None? || !Filled(p.karat.value)) then Some(Required("karat"))
    else if p.karat.Some? && p.karat.value !in Karats then Some(NotInEnum("karat", p.karat.value))
    else if !Filled(p.companyId) then Some(Required("companyId"))
    else if !Filled(p.tenantId) then Some(Required("tenantId"))
    else None
  }

  /** `!this.hsnNumber`: absent or empty. */
  predicate NoHsn(p: Product) {
    p.hsnNumber.None? || p.hsnNumber == Some("")
  }

  /** The document after the pre-save hook. */
  function WithHsn(p: Product): (q: Product)
    ensures q.(hsnNumber := p.hsnNumber) == p
    ensures !NoHsn(p) ==> q == p
    ensures NoHsn(p) && Filled(p.category) ==> q.hsnNumber == HsnFor(p.category)
  {
    if NoHsn(p) && Filled(p.category) then p.(hsnNumber := HsnFor(p.category)) else p
  }

  /** A document that passes validation always has its heading after the hook, and a heading already set is kept. */
  lemma SavedHasHsn(p: Product)
    requires Valid(p)
    ensures WithHsn(p).hsnNumber.Some? && WithHsn(p).hsnNumber != Some("")
    ensures !NoHsn(p) ==> WithHsn(p).hsnNumber == p.hsnNumber
    ensures NoHsn(p) ==> WithHsn(p).hsnNumber == HsnFor(p.category)
  {
  }

  /** Running the hook twice is running it once. */
  lemma WithHsnIdempotent(p: Product)
    requires Valid(p)
    ensures WithHsn(WithHsn(p)) == WithHsn(p)
  {
  }

  /** Saving: validation first, then the hook; a refused document is not saved. */
  function Save(p: Product): (r: Result<Product, ProductError>)
    ensures r.Ok? <==> Valid(p)
    ensures r.Ok? ==> r.value == WithHsn(p) && r.value.hsnNumber.Some?
    ensures r.Err? ==> Validate(p) == Some(r.error)
  {
    match Validate(p)
    case Some(e) => Err(e)
    case None => Ok(WithHsn(p))
  }

  /** A product document being saved; the hook assigns its `hsnNumber` in place. */
  class ProductDocument {
    var name: string
    var kind: string
    var category: string
    var karat: Option<string>
    var hsnNumber: Option<string>
    var companyId: string
    var tenantId: string

    function Value(): Product
      reads this
    {
      Product(name, kind, category, karat, hsnNumber, companyId, tenantId)
    }

    constructor (p: Product)
      ensures Value() == p
    {
      name, kind, category, karat := p.name, p.kind, p.category, p.karat;
      hsnNumber, companyId, tenantId := p.hsnNumber, p.companyId, p.tenantId;
    }

    /** The pre-save hook. */
    method PreSave()
      modifies this`hsnNumber
      ensures Value() == WithHsn(old(Value()))
    {
      if (hsnNumber.None? || hsnNumber == Some("")) && category != "" {
        hsnNumber := HsnFor(category);
      }
    }
  }
}
