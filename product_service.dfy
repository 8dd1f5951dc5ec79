/**
 * The company service's product operations: creating a product attached to
 * its tenant's company, and listing a tenant's products. The company
 * collection is read in its natural order, as `findOne` does; the product
 * collection is the state that changes.
 */
module ProductService {
  import opened Wrappers
  import opened ProductModel
  import CompanyController

  /**
   * The company `CompanyModel.findOne({ tenantId })` returns. Without
   * `strictQuery` it is the first company holding the tenant's id, and
   * companies of the schema's shape never hold one; with it the filter is
   * dropped and the first company of any tenant is returned.
   */
  function FirstOfTenant(companies: seq<CompanyController.Fields>, tenantId: string, strictQuery: bool): (r: Option<nat>)
    ensures r.Some? ==> r.value < |companies|
    ensures !strictQuery ==>
      (r.None? <==> forall i :: 0 <= i < |companies| ==> CompanyController.Get(companies[i], "tenantId") != Some(tenantId))
    ensures !strictQuery && r.Some? ==> CompanyController.Get(companies[r.value], "tenantId") == Some(tenantId)
    ensures CompanyController.SchemaShaped(companies) && !strictQuery ==> r.None?
    ensures CompanyController.SchemaShaped(companies) && strictQuery ==> r == (if companies == [] then None else Some(0))
  {
    var filter := CompanyController.QueryFilter(map["tenantId" := tenantId], strictQuery);
    if CompanyController.SchemaShaped(companies) then
      CompanyController.TenantQuery(companies, tenantId, strictQuery);
      TenantFilterMatches(companies, tenantId, strictQuery);
      CompanyController.FindOne(companies, filter)
    else
      TenantFilterMatches(companies, tenantId, strictQuery);
      CompanyController.FindOne(companies, filter)
  }

  /** Without `strictQuery`, a company matches `{ tenantId }` exactly when it holds that tenant id. */
  lemma TenantFilterMatches(companies: seq<CompanyController.Fields>, tenantId: string, strictQuery: bool)
    ensures !strictQuery ==> forall i :: 0 <= i < |companies| ==>
      (CompanyController.Matches(companies[i], CompanyController.QueryFilter(map["tenantId" := tenantId], strictQuery)) <==>
       CompanyController.Get(companies[i], "tenantId") == Some(tenantId))
  {
  }

  /** `ProductModel.find({ tenantId })`: the tenant's products, in stored order. */
  function OfTenant(products: seq<Product>, tenantId: string): (r: seq<Product>)
    ensures forall p :: p in r <==> p in products && p.tenantId == tenantId
    ensures |r| <= |products|
  {
    if products == [] then []
    else OfTenant(products[..|products| - 1], tenantId) +
         (if products[|products| - 1].tenantId == tenantId then [products[|products| - 1]] else [])
  }

  /** Why creation fails: no company for the tenant (`company._id` of null), or the schema refuses. */
  datatype CreateError = NoCompany | Invalid(error: ProductError)

  /** The product collection. */
  class ProductStore {
    var products: seq<Product>

    constructor ()
      ensures products == []
    {
      products := [];
    }

    /**
     * `createProductInDB`: the product gets the id of the company `findOne`
     * returns in place of any `companyId` it came with, every other field as
     * given, and is saved through the schema; a null company fails on
     * reading its `_id`.
     */
    method CreateProduct(product: Product, companies: seq<CompanyController.Fields>, strictQuery: bool)
      returns (r: Result<Product, CreateError>)
      modifies this
      ensures match FirstOfTenant(companies, product.tenantId, strictQuery)
        case None => r == Err(NoCompany) && products == old(products)
        case Some(k) =>
          var attached := product.(companyId := CompanyController.Get(companies[k], "_id").GetOr(""));
          match Save(attached)
          case Err(e) => r == Err(Invalid(e)) && products == old(products)
          case Ok(saved) => r == Ok(saved) && products == old(products) + [saved]
    {
      var k := FirstOfTenant(companies, product.tenantId, strictQuery);
      if k.None? {
        return Err(NoCompany);
      }
      var attached := product.(companyId := CompanyController.Get(companies[k.value], "_id").GetOr(""));
      var saved := Save(attached);
      if saved.Err? {
        return Err(Invalid(saved.error));
      }
      products := products + [saved.value];
      r := Ok(saved.value);
    }

    /** `getAllProducts`: every product of the tenant and no other, in stored order. */
    method GetAllProducts(tenantId: string) returns (found: seq<Product>)
      ensures found == OfTenant(products, tenantId)
    {
      found := [];
      var i := 0;
      while i < |products|
        invariant 0 <= i <= |products|
        invariant found == OfTenant(products[..i], tenantId)
      {
        assert products[..i + 1][..i] == products[..i];
        if products[i].tenantId == tenantId {
          found := found + [products[i]];
        }
        i := i + 1;
      }
      assert products[..i] == products;
    }
  }

  /** A created product keeps every field it was given except `companyId`. */
  lemma CreatedKeepsFields(product: Product, companyId: string)
    requires Valid(product.(companyId := companyId))
    ensures var saved := Save(product.(companyId := companyId)).value;
      saved.name == product.name && saved.kind == product.kind && saved.category == product.category &&
      saved.karat == product.karat && saved.tenantId == product.tenantId && saved.companyId == companyId &&
      (!NoHsn(product) ==> saved.hsnNumber == product.hsnNumber)
  {
  }

  /** Listing after creating adds exactly the new product at the end of its tenant's list. */
  lemma {:induction false} ListAfterCreate(products: seq<Product>, saved: Product)
    ensures OfTenant(products + [saved], saved.tenantId) == OfTenant(products, saved.tenantId) + [saved]
    ensures forall t :: t != saved.tenantId ==> OfTenant(products + [saved], t) == OfTenant(products, t)
  {
    assert (products + [saved])[..|products|] == products;
    forall t | t != saved.tenantId
      ensures OfTenant(products + [saved], t) == OfTenant(products, t)
    {
      assert (products + [saved])[..|products|] == products;
    }
  }
}
