/**
 * The company service's company controller: adding a company (duplicate
 * check, then an address, a bank and the company stored in turn), reading
 * one by tenant or by id, and updating one by id.
 *
 * Records are maps from field names to text; each stored record carries its
 * id under "_id". The inserts obey their schemas' required fields and
 * unique indexes. The company schema is strict: a stored or updated company
 * keeps only the paths the schema declares, and a query's filter on an
 * undeclared path is either passed on as it is or dropped, as Mongoose's
 * `strictQuery` option says. The three store services catch their own errors and
 * return `undefined`: a refused address or bank then fails the handler on
 * reading `_id` of `undefined` ("Error adding company"), and a refused
 * company is answered 200 with no record. So no duplicate-key error
 * (code 11000) ever reaches the handler's catch block.
 *
 * Two defects of the handlers as written are modelled beside the intended
 * behaviour: `db` is never imported, so `addCompany`, `getCompanyById` and
 * `updateCompany` throw on their first line (and again in `finally`); and
 * `userAuthorized` returns an unawaited query, which is always truthy.
 */
module CompanyController {
  import opened Wrappers
  import opened Text

  type Fields = map<string, string>

  /** The HTTP answer: status, message and the record sent back, if any. */
  datatype Response = Response(status: nat, message: string, body: Option<Fields>)

  /**
   * A handler either answers, or sends its answer from `catch` and then its
   * promise rejects with the error the `finally` block throws.
   */
  datatype Outcome = Answered(response: Response) | SentThenThrew(response: Response, error: string)

  /** The three handlers that open with `await db.connect()`. */
  datatype Handler = AddCompanyHandler | GetCompanyByIdHandler | UpdateCompanyHandler

  /** The message each handler's `catch` block answers with. */
  function CatchMessage(h: Handler): string {
    match h
    case AddCompanyHandler => "Error adding company"
    case GetCompanyByIdHandler => "Error getting company"
    case UpdateCompanyHandler => "Error updating company"
  }

  /** A field of a record; absent fields compare equal to each other, as `undefined` query values match missing fields. */
  function Get(r: Fields, k: string): Option<string> {
    if k in r then Some(r[k]) else None
  }

  /** Every listed field is present and not empty (Mongoose's `required` for strings). */
  predicate HasAll(r: Fields, keys: seq<string>) {
    forall i :: 0 <= i < |keys| ==> keys[i] in r && r[keys[i]] != ""
  }

  /** The fields of `r` named in `keys`. */
  function Project(r: Fields, keys: set<string>): (p: Fields)
    ensures p.Keys == r.Keys * keys && forall k :: k in p ==> p[k] == r[k]
  {
    map k | k in r.Keys * keys :: r[k]
  }

  const AddressFields: set<string> := {"city", "state", "street", "landmark", "pincode", "statecode"}
  const BankFields: set<string> := {"bankName", "branch", "ifsc", "accountNumber"}

  /** The paths the company schema declares. */
  const CompanyPaths: set<string> :=
    {"_id", "name", "address", "gstin", "hallMarkNumber", "email", "phone", "state", "stateCode",
     "bankDetails", "termsConditions", "createdAt", "user"}

  /** Every stored company holds declared paths only. */
  predicate SchemaShaped(companies: seq<Fields>) {
    forall i :: 0 <= i < |companies| ==> companies[i].Keys <= CompanyPaths
  }

  /** Appending a company of the schema's shape keeps the collection in shape. */
  lemma ShapedAppend(companies: seq<Fields>, c: Fields)
    requires c.Keys <= CompanyPaths
    ensures SchemaShaped(companies) ==> SchemaShaped(companies + [c])
  {
    if SchemaShaped(companies) {
      var all := companies + [c];
      forall i | 0 <= i < |all| ensures all[i].Keys <= CompanyPaths {
        if i < |companies| {
          assert all[i] == companies[i];
        }
      }
    }
  }

  /** The filter a query sends: with `strictQuery` its undeclared paths are dropped. */
  function QueryFilter(filter: Fields, strictQuery: bool): (f: Fields)
    ensures strictQuery ==> f.Keys == filter.Keys * CompanyPaths
    ensures !strictQuery ==> f.Keys == filter.Keys
    ensures forall k :: k in f ==> f[k] == filter[k]
  {
    if strictQuery then Project(filter, CompanyPaths) else filter
  }

  /** A record matches a filter when it holds every filtered field with the filtered value. */
  predicate Matches(r: Fields, filter: Fields) {
    forall k :: k in filter ==> k in r && r[k] == filter[k]
  }

  /** `findOne(filter)`: the first matching record, if any. */
  function FindOne(records: seq<Fields>, filter: Fields): (r: Option<nat>)
    ensures r.None? <==> forall i :: 0 <= i < |records| ==> !Matches(records[i], filter)
    ensures r.Some? ==> r.value < |records| && Matches(records[r.value], filter)
    ensures r.Some? ==> forall j :: 0 <= j < r.value ==> !Matches(records[j], filter)
  {
    if records == [] then None
    else if Matches(records[0], filter) then Some(0)
    else match FindOne(records[1..], filter)
      case None => None
      case Some(k) =>
        assert forall j :: 1 <= j <= k ==> records[j] == records[1..][j - 1];
        Some(k + 1)
  }

  /**
   * `findOne({ tenantId })` on companies of the schema's shape: without
   * `strictQuery` the filter names a path no company holds, so nothing is
   * found; with it the filter is dropped and the first company of any
   * tenant is found.
   */
  lemma TenantQuery(companies: seq<Fields>, tenantId: string, strictQuery: bool)
    requires SchemaShaped(companies)
    ensures var found := FindOne(companies, QueryFilter(map["tenantId" := tenantId], strictQuery));
      (!strictQuery ==> found.None?) &&
      (strictQuery ==> found == (if companies == [] then None else Some(0)))
  {
    TenantUndeclared();
    var f := QueryFilter(map["tenantId" := tenantId], strictQuery);
    if strictQuery {
      assert f == map[];
      if companies != [] {
        assert Matches(companies[0], f);
      }
    } else {
      forall i | 0 <= i < |companies| ensures !Matches(companies[i], f) {
        assert "tenantId" in f && "tenantId" !in companies[i];
      }
    }
  }

  /** The company schema has no `tenantId` and no `bank` path. */
  lemma TenantUndeclared()
    ensures "tenantId" !in CompanyPaths && "bank" !in CompanyPaths
  {
  }

  /** `findOne({ $or: [{ gstin }, { name }, { hallMarkNumber }] })` finds something. */
  predicate Clashes(companies: seq<Fields>, body: Fields) {
    exists i :: 0 <= i < |companies| &&
      (Get(companies[i], "gstin") == Get(body, "gstin") ||
       Get(companies[i], "name") == Get(body, "name") ||
       Get(companies[i], "hallMarkNumber") == Get(body, "hallMarkNumber"))
  }

  /** `/^[0-9a-fA-F]{24}$/`. */
  predicate IsObjectId(id: string) {
    |id| == 24 && forall i :: 0 <= i < |id| ==> IsHexDigit(id[i])
  }

  predicate IsHexDigit(c: char) {
    '0' <= c <= '9' || 'a' <= c <= 'f' || 'A' <= c <= 'F'
  }

  /** The first record with this id, if any. */
  function IndexOfId(records: seq<Fields>, id: string): (r: Option<nat>)
    ensures r.None? <==> forall i :: 0 <= i < |records| ==> Get(records[i], "_id") != Some(id)
    ensures r.Some? ==> r.value < |records| && Get(records[r.value], "_id") == Some(id)
  {
    if records == [] then None
    else if Get(records[0], "_id") == Some(id) then Some(0)
    else match IndexOfId(records[1..], id)
      case None => None
      case Some(k) => Some(k + 1)
  }

  /** `userAuthorized` as evidently intended: the company with this id has the user's email. */
  function Authorized(companies: seq<Fields>, id: string, userEmail: string): (ok: bool)
    ensures ok <==> IndexOfId(companies, id).Some? && Get(companies[IndexOfId(companies, id).value], "email") == Some(userEmail)
  {
    match IndexOfId(companies, id)
    case None => false
    case Some(k) => Get(companies[k], "email") == Some(userEmail)
  }

  /** `userAuthorized` as written: the query object it returns is always truthy. */
  function AuthorizedAsWritten(companies: seq<Fields>, id: string, userEmail: string): bool {
    true
  }

  /** As written, the 403 branch is dead: a user who does not own the company passes. */
  lemma AuthorizationNeverRefuses(companies: seq<Fields>, id: string, userEmail: string)
    requires IndexOfId(companies, id).Some?
    requires Get(companies[IndexOfId(companies, id).value], "email") != Some(userEmail)
    ensures AuthorizedAsWritten(companies, id, userEmail) && !Authorized(companies, id, userEmail)
  {
  }

  /** The companies, addresses and banks collections. */
  class CompanyStore {
    var companies: seq<Fields>
    var addresses: seq<Fields>
    var banks: seq<Fields>

    constructor ()
      ensures companies == [] && addresses == [] && banks == []
    {
      companies := [];
      addresses := [];
      banks := [];
    }

    /**
     * `addCompany`: the request's email is replaced by the user's; a clash on
     * gstin, name or hallmark number is refused; then the address, the bank
     * and the company are stored in turn, the company holding the new
     * address id (its schema has no path for the bank id). `addressId`,
     * `bankId` and `companyId` are the fresh ids the store assigns and `now`
     * the insert time. A refused address or bank (missing field,
     * or an account number already stored) answers 400 "Error adding
     * company"; a refused company answers 200 with no record.
     */
    method AddCompany(request: Fields, userEmail: string, addressId: string, bankId: string, companyId: string, now: string)
      returns (res: Response)
      modifies this
      ensures SchemaShaped(old(companies)) ==> SchemaShaped(companies)
      ensures var body := request["email" := userEmail];
        if Clashes(old(companies), body) then
          res == Response(400, "Company/email already exists", None) &&
          companies == old(companies) && addresses == old(addresses) && banks == old(banks)
        else if !HasAll(body, ["street", "city", "state", "statecode", "pincode"]) then
          res == Response(400, "Error adding company", None) &&
          companies == old(companies) && addresses == old(addresses) && banks == old(banks)
        else if !HasAll(body, ["bankName", "branch", "accountNumber", "ifsc"]) then
          res == Response(400, "Error adding company", None) &&
          companies == old(companies) && addresses == old(addresses) + [AddressOf(body, addressId)] && banks == old(banks)
        else if (exists i :: 0 <= i < |old(banks)| && Get(old(banks)[i], "accountNumber") == Get(body, "accountNumber")) then
          res == Response(400, "Error adding company", None) &&
          companies == old(companies) && addresses == old(addresses) + [AddressOf(body, addressId)] && banks == old(banks)
        else if !HasAll(body, ["name", "gstin", "hallMarkNumber", "email", "user"]) then
          res == Response(200, "Successfully added company", None) &&
          companies == old(companies) && addresses == old(addresses) + [AddressOf(body, addressId)] &&
          banks == old(banks) + [BankOf(body, bankId)]
        else
          res == Response(200, "Successfully added company", Some(CompanyOf(body, addressId, companyId, now))) &&
          companies == old(companies) + [CompanyOf(body, addressId, companyId, now)] &&
          addresses == old(addresses) + [AddressOf(body, addressId)] && banks == old(banks) + [BankOf(body, bankId)]
    {
      var body := request["email" := userEmail];
      if Clashes(companies, body) {
        return Response(400, "Company/email already exists", None);
      }
      if !HasAll(body, ["street", "city", "state", "statecode", "pincode"]) {
        return Response(400, "Error adding company", None);
      }
      addresses := addresses + [AddressOf(body, addressId)];
      if !HasAll(body, ["bankName", "branch", "accountNumber", "ifsc"]) {
        return Response(400, "Error adding company", None);
      }
      if exists i :: 0 <= i < |banks| && Get(banks[i], "accountNumber") == Get(body, "accountNumber") {
        return Response(400, "Error adding company", None);
      }
      banks := banks + [BankOf(body, bankId)];
      if !HasAll(body, ["name", "gstin", "hallMarkNumber", "email", "user"]) {
        return Response(200, "Successfully added company", None);
      }
      var company := CompanyOf(body, addressId, companyId, now);
      ShapedAppend(companies, company);
      companies := companies + [company];
      res := Response(200, "Successfully added company", Some(company));
    }

    /**
     * `addCompany`, `getCompanyById` and `updateCompany` as written: the
     * first statement, `await db.connect()`, names an undefined `db`, so the
     * `ReferenceError` is thrown inside `try` before the request is read.
     * The `catch` block answers 400 with the handler's error message (the
     * error is not a duplicate-key error), and then the `finally` block's
     * `db.disconnect()` throws the same error again, so the handler's
     * promise rejects. Nothing is stored.
     */
    method HandlerAsWritten(h: Handler, request: Fields, userEmail: string) returns (o: Outcome)
      ensures o.SentThenThrew?
      ensures o.response == Response(400, CatchMessage(h), None)
      ensures o.error == "db is not defined"
    {
      var error := "db is not defined";
      var sent := Response(400, CatchMessage(h), None);
      o := SentThenThrew(sent, error);
    }

    /**
     * `getCompany`: `findOne({ tenantId })`, answered 200 "No Company found"
     * when it finds nothing and 200 with the company otherwise. Companies of
     * the schema's shape hold no `tenantId`, so without `strictQuery` the
     * answer is always "No Company found", and with it the first company of
     * any tenant is sent.
     */
    method GetCompany(tenantId: string, strictQuery: bool) returns (res: Response)
      ensures match FindOne(companies, QueryFilter(map["tenantId" := tenantId], strictQuery))
        case None => res == Response(200, "No Company found", Some(map[]))
        case Some(k) => res == Response(200, "Successfully found company", Some(companies[k]))
      ensures SchemaShaped(companies) && !strictQuery ==> res == Response(200, "No Company found", Some(map[]))
      ensures SchemaShaped(companies) && strictQuery && companies != [] ==>
        res == Response(200, "Successfully found company", Some(companies[0]))
    {
      var filter := QueryFilter(map["tenantId" := tenantId], strictQuery);
      if SchemaShaped(companies) {
        TenantQuery(companies, tenantId, strictQuery);
      }
      var i := 0;
      while i < |companies|
        invariant 0 <= i <= |companies|
        invariant forall j :: 0 <= j < i ==> !Matches(companies[j], filter)
      {
        if Matches(companies[i], filter) {
          return Response(200, "Successfully found company", Some(companies[i]));
        }
        i := i + 1;
      }
      res := Response(200, "No Company found", Some(map[]));
    }

    /**
     * `getCompanyById` with `db` in scope and the ownership check awaited:
     * a malformed id is refused before any lookup, then a user who does not
     * own the company, then a missing company.
     */
    method GetCompanyById(id: string, userEmail: string) returns (res: Response)
      ensures !IsObjectId(id) ==> res == Response(400, "Invalid ID format", None)
      ensures IsObjectId(id) && !Authorized(companies, id, userEmail) ==>
        res == Response(403, "Unauthorized to access this company", None)
      ensures IsObjectId(id) && Authorized(companies, id, userEmail) ==>
        res == Response(200, "Founded company", Some(companies[IndexOfId(companies, id).value]))
    {
      if !IsObjectId(id) {
        return Response(400, "Invalid ID format", None);
      }
      if !Authorized(companies, id, userEmail) {
        return Response(403, "Unauthorized to access this company", None);
      }
      var k := IndexOfId(companies, id);
      if k.None? {
        // the owner check has just found the company, so the 404 cannot happen
        assert false;
      }
      res := Response(200, "Founded company", Some(companies[k.value]));
    }

    /**
     * `getCompanyById` with `db` in scope but the ownership check as
     * written: never 403, and 404 for a missing company.
     */
    method GetCompanyByIdUnchecked(id: string, userEmail: string) returns (res: Response)
      ensures !IsObjectId(id) ==> res == Response(400, "Invalid ID format", None)
      ensures IsObjectId(id) ==> res.status != 403
      ensures IsObjectId(id) && IndexOfId(companies, id).None? ==> res == Response(404, "Company not found", None)
      ensures IsObjectId(id) && IndexOfId(companies, id).Some? ==>
        res == Response(200, "Founded company", Some(companies[IndexOfId(companies, id).value]))
    {
      if !IsObjectId(id) {
        return Response(400, "Invalid ID format", None);
      }
      if !AuthorizedAsWritten(companies, id, userEmail) {
        // a query object is truthy, so the 403 cannot happen
        assert false;
      }
      var k := IndexOfId(companies, id);
      if k.None? {
        return Response(404, "Company not found", None);
      }
      res := Response(200, "Founded company", Some(companies[k.value]));
    }

    /**
     * `updateCompany` with `db` in scope and the ownership check awaited:
     * the request's declared fields are set on the company (strict mode drops
     * the others, and the immutable `_id` is not set), every other field and
     * every other company stay as they were.
     */
    method UpdateCompany(id: string, userEmail: string, update: Fields) returns (res: Response)
      modifies this
      ensures addresses == old(addresses) && banks == old(banks)
      ensures SchemaShaped(old(companies)) ==> SchemaShaped(companies)
      ensures !IsObjectId(id) ==> res == Response(400, "Invalid ID format", None) && companies == old(companies)
      ensures IsObjectId(id) && !Authorized(old(companies), id, userEmail) ==>
        res == Response(403, "Unauthorized to access this company", None) && companies == old(companies)
      ensures IsObjectId(id) && Authorized(old(companies), id, userEmail) ==>
        var k := IndexOfId(old(companies), id).value;
        companies == old(companies)[k := old(companies)[k] + Project(update, CompanyPaths - {"_id"})] &&
        res == Response(200, "successfully updated company", Some(companies[k]))
    {
      if !IsObjectId(id) {
        return Response(400, "Invalid ID format", None);
      }
      if !Authorized(companies, id, userEmail) {
        return Response(403, "Unauthorized to access this company", None);
      }
      var k := IndexOfId(companies, id);
      if k.None? {
        // the owner check has just found the company, so the 404 cannot happen
        assert false;
      }
      var updated := companies[k.value] + Project(update, CompanyPaths - {"_id"});
      companies := companies[k.value := updated];
      res := Response(200, "successfully updated company", Some(updated));
    }
  }

  /** The stored address: the request's address fields under a new id. */
  function AddressOf(body: Fields, id: string): (a: Fields)
    ensures a.Keys == (body.Keys * AddressFields) + {"_id"} && a["_id"] == id
    ensures forall k :: k in AddressFields && k in body ==> a[k] == body[k]
  {
    Project(body, AddressFields)["_id" := id]
  }

  /** The stored bank: the request's bank fields under a new id. */
  function BankOf(body: Fields, id: string): (b: Fields)
    ensures b.Keys == (body.Keys * BankFields) + {"_id"} && b["_id"] == id
    ensures forall k :: k in BankFields && k in body ==> b[k] == body[k]
  {
    Project(body, BankFields)["_id" := id]
  }

  /**
   * `new CompanyModel({ ...req.body, address: address._id, bank: bank._id })`
   * under a new id: strict mode keeps the declared paths only, so neither
   * `bank` nor any other undeclared request field is stored, and `createdAt`
   * defaults to the time of the insert.
   */
  function CompanyOf(body: Fields, addressId: string, id: string, now: string): (c: Fields)
    ensures c.Keys <= CompanyPaths
    ensures "address" in c && "_id" in c && "createdAt" in c
    ensures c["address"] == addressId && c["_id"] == id
    ensures c["createdAt"] == (if "createdAt" in body then body["createdAt"] else now)
    ensures forall k :: k in body && k in CompanyPaths && k !in {"address", "_id"} ==> k in c && c[k] == body[k]
    ensures forall k :: k in c && k !in {"address", "_id", "createdAt"} ==> k in body
  {
    var declared := Project(body, CompanyPaths)["address" := addressId]["_id" := id];
    if "createdAt" in body then declared else declared["createdAt" := now]
  }

  /** On success the stored company carries the authenticated user's email, whatever the request said. */
  lemma StoredEmailIsUsers(request: Fields, userEmail: string, addressId: string, companyId: string, now: string)
    ensures "email" in CompanyOf(request["email" := userEmail], addressId, companyId, now)
    ensures CompanyOf(request["email" := userEmail], addressId, companyId, now)["email"] == userEmail
  {
    EmailDeclared();
  }

  /** The company schema declares `email`. */
  lemma EmailDeclared()
    ensures "email" in CompanyPaths
  {
  }

  /** One shared field is enough for the duplicate check to refuse. */
  lemma OneMatchSuffices(companies: seq<Fields>, body: Fields, i: nat)
    requires i < |companies|
    requires Get(companies[i], "hallMarkNumber") == Get(body, "hallMarkNumber")
    ensures Clashes(companies, body)
  {
  }

  /** Twenty-four hex digits in either case are a well-formed id; anything else is not. */
  lemma ObjectIdExamples()
    ensures IsObjectId("64b7f0c2a1B3d4E5f6A7b8C9")
    ensures !IsObjectId("64b7f0c2a1b3d4e5f6a7b8c")
    ensures !IsObjectId("64b7f0c2a1b3d4e5f6a7b8cg")
  {
    assert !IsHexDigit("64b7f0c2a1b3d4e5f6a7b8cg"[23]);
  }
}
