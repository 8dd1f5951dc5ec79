/**
 * The customer service's `createCustomerInDB`: every call inserts a new
 * customer built from the command's fields plus a creation time, then
 * replies with `customer.created` carrying the new id and the invoice
 * number the command came with.
 *
 * The insert goes through the customer schema: `name`, `address`,
 * `companyId` and `tenantId` are required, `phone` is stored as a Number
 * under a unique index, and fields the schema does not name (such as the
 * invoice number) are not stored. A missing or empty phone is stored as
 * null, and the unique index treats two nulls as equal.
 */
module CustomerService {
  import opened Wrappers
  import opened Text

  type Fields = map<string, string>

  /** A stored customer. */
  datatype Customer = Customer(
    id: string, name: string, address: string, phone: Option<nat>, email: Option<string>,
    companyId: string, tenantId: string, createdAt: int)

  /** Why the insert is refused. */
  datatype CustomerError = MissingField(field: string) | PhoneNotNumber | DuplicatePhone(phone: Option<nat>)

  /** An event sent on `customer-events`. */
  datatype CustomerEvent = CustomerEvent(event: string, payload: Fields)

  /** A required String field is present and not empty. */
  predicate Present(data: Fields, field: string) {
    field in data && data[field] != ""
  }

  /**
   * The phone as the Number the schema casts it to: a missing or empty phone
   * is null, and a string of digits is its decimal value.
   */
  function PhoneValue(data: Fields): (r: Result<Option<nat>, CustomerError>)
    ensures "phone" !in data || data["phone"] == "" ==> r == Ok(None)
    ensures "phone" in data && data["phone"] != "" ==> (r.Ok? <==> AllDigits(data["phone"]))
    ensures r.Ok? && r.value.Some? ==> "phone" in data && r.value.value == DigitsValue(data["phone"])
  {
    if "phone" !in data || data["phone"] == "" then Ok(None)
    else if AllDigits(data["phone"]) then Ok(Some(DigitsValue(data["phone"])))
    else Err(PhoneNotNumber)
  }

  /** The first failing rule of the schema, or the document it would store. */
  function Checked(data: Fields, now: int, id: string): (r: Result<Customer, CustomerError>)
    ensures r.Ok? <==> (Present(data, "name") && Present(data, "address") && Present(data, "companyId") &&
                        Present(data, "tenantId") && PhoneValue(data).Ok?)
    ensures r.Ok? ==> r.value.id == id && r.value.name == data["name"] && r.value.address == data["address"] &&
                      r.value.companyId == data["companyId"] && r.value.tenantId == data["tenantId"] &&
                      r.value.createdAt == now && r.value.phone == PhoneValue(data).value &&
                      r.value.email == (if "email" in data then Some(data["email"]) else None)
  {
    if !Present(data, "name") then Err(MissingField("name"))
    else if !Present(data, "address") then Err(MissingField("address"))
    else if !Present(data, "companyId") then Err(MissingField("companyId"))
    else if !Present(data, "tenantId") then Err(MissingField("tenantId"))
    else match PhoneValue(data)
      case Err(e) => Err(e)
      case Ok(phone) =>
        Ok(Customer(id, data["name"], data["address"], phone,
                    if "email" in data then Some(data["email"]) else None,
                    data["companyId"], data["tenantId"], now))
  }

  /** Whether a stored customer already has this phone (null included). */
  predicate PhoneTaken(customers: seq<Customer>, phone: Option<nat>) {
    exists i :: 0 <= i < |customers| && customers[i].phone == phone
  }

  /** `{ _id, invoiceNumber }`; an absent invoice number is left out of the JSON. */
  function CreatedEvent(id: string, data: Fields): (e: CustomerEvent)
    ensures e.event == "customer.created"
    ensures e.payload.Keys == {"_id"} + (if "invoiceNumber" in data then {"invoiceNumber"} else {})
    ensures e.payload["_id"] == id
    ensures "invoiceNumber" in data ==> e.payload["invoiceNumber"] == data["invoiceNumber"]
  {
    CustomerEvent("customer.created",
      map["_id" := id] + (if "invoiceNumber" in data then map["invoiceNumber" := data["invoiceNumber"]] else map[]))
  }

  /** The customer collection and the events sent. */
  class CustomerStore {
    var customers: seq<Customer>
    var events: seq<CustomerEvent>

    /** The unique index: no two stored customers share a phone. */
    ghost predicate Valid()
      reads this
    {
      forall i, j :: 0 <= i < j < |customers| ==> customers[i].phone != customers[j].phone
    }

    constructor ()
      ensures customers == [] && events == [] && Valid()
    {
      customers := [];
      events := [];
    }

    /**
     * `createCustomerInDB`: insert the customer, then emit its id and
     * invoice number. `newId` is the fresh id the store assigns. A refused
     * insert emits nothing.
     */
    method CreateCustomer(data: Fields, now: int, newId: string) returns (r: Result<Customer, CustomerError>)
      modifies this
      ensures old(Valid()) ==> Valid()
      ensures match Checked(data, now, newId)
        case Err(e) => r == Err(e) && customers == old(customers) && events == old(events)
        case Ok(c) =>
          if PhoneTaken(old(customers), c.phone) then
            r == Err(DuplicatePhone(c.phone)) && customers == old(customers) && events == old(events)
          else
            r == Ok(c) && customers == old(customers) + [c] && events == old(events) + [CreatedEvent(newId, data)]
    {
      var checked := Checked(data, now, newId);
      if checked.Err? {
        return Err(checked.error);
      }
      var c := checked.value;
      if PhoneTaken(customers, c.phone) {
        return Err(DuplicatePhone(c.phone));
      }
      assert forall i :: 0 <= i < |customers| ==> customers[i].phone != c.phone;
      customers := customers + [c];
      events := events + [CreatedEvent(newId, data)];
      r := Ok(c);
    }

    /**
     * No de-duplication beyond the index: two commands whose phones differ
     * from each other and from every stored customer's store two customers
     * and emit two events, whatever their names or addresses.
     */
    method TwoCommandsTwoCustomers(data1: Fields, data2: Fields, t1: int, t2: int, id1: string, id2: string)
      returns (r1: Result<Customer, CustomerError>, r2: Result<Customer, CustomerError>)
      modifies this
      requires Checked(data1, t1, id1).Ok? && Checked(data2, t2, id2).Ok?
      requires Checked(data1, t1, id1).value.phone != Checked(data2, t2, id2).value.phone
      requires !PhoneTaken(customers, Checked(data1, t1, id1).value.phone)
      requires !PhoneTaken(customers, Checked(data2, t2, id2).value.phone)
      ensures r1 == Checked(data1, t1, id1) && r2 == Checked(data2, t2, id2)
      ensures customers == old(customers) + [Checked(data1, t1, id1).value, Checked(data2, t2, id2).value]
      ensures events == old(events) + [CreatedEvent(id1, data1), CreatedEvent(id2, data2)]
    {
      var c1 := Checked(data1, t1, id1).value;
      var c2 := Checked(data2, t2, id2).value;
      r1 := CreateCustomer(data1, t1, id1);
      assert customers[|customers| - 1] == c1;
      assert !PhoneTaken(customers, c2.phone);
      r2 := CreateCustomer(data2, t2, id2);
    }
  }

  /** Phones that differ only in leading zeros are the same Number, so the second is refused. */
  lemma LeadingZeroPhonesClash()
    ensures PhoneValue(map["phone" := "0987"]) == PhoneValue(map["phone" := "987"])
  {
    var a := "0987";
    var b := "987";
    assert a[..3] == "098" && a[..2] == "09" && a[..1] == "0" && a[..0] == "";
    assert b[..2] == "98" && b[..1] == "9" && b[..0] == "";
    assert DigitsValue("09") == 9;
    assert DigitsValue("098") == 98;
    assert DigitsValue(a) == 987;
    assert DigitsValue("98") == 98;
    assert DigitsValue(b) == 987;
  }
}
