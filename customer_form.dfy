/**
 * The customer page: the customer form's schema, the merge of the submitted
 * form over the customer being edited, and the page's dialog state with the
 * choice between updating and adding on save.
 */
module CustomerForm {
  import opened Wrappers
  import opened Text

  /** A customer record as the page holds it: field name to value. */
  type Fields = map<string, string>

  /** The form's four fields. */
  datatype CustomerInput = CustomerInput(name: string, address: string, phone: string, state: string)

  datatype Field = Name | Address | Phone | State

  /** The message the form shows under one field: the first of its checks that fails. */
  function FieldError(input: CustomerInput, field: Field): (e: Option<string>)
    ensures field == Phone && |input.phone| < 10 ==> e == Some("Phone number must be at least 10 digits")
    ensures field == Phone && |input.phone| >= 10 && !AllDigits(input.phone) ==> e == Some("Phone must contain only digits")
  {
    match field
    case Name => if |input.name| < 3 then Some("Name must be at least 3 characters long") else None
    case Address => if |input.address| < 5 then Some("Please provide a valid address") else None
    case Phone =>
      if |input.phone| < 10 then Some("Phone number must be at least 10 digits")
      else if !AllDigits(input.phone) then Some("Phone must contain only digits")
      else None
    case State => if |input.state| < 2 then Some("State is required") else None
  }

  /** The schema: name of 3 or more characters, address of 5 or more, a phone of 10 or more digits, state of 2 or more. */
  predicate Valid(input: CustomerInput) {
    |input.name| >= 3 && |input.address| >= 5 && |input.phone| >= 10 && AllDigits(input.phone) && |input.state| >= 2
  }

  /** The form's errors, one message per failing field. */
  function Errors(input: CustomerInput): (errors: map<Field, string>)
    ensures forall field :: field in errors ==> Some(errors[field]) == FieldError(input, field)
    ensures forall field :: field !in errors ==> FieldError(input, field).None?
  {
    map field: Field | FieldError(input, field).Some? :: FieldError(input, field).value
  }

  /** The form submits exactly when no field shows an error. */
  lemma ErrorsEmptyIffValid(input: CustomerInput)
    ensures Errors(input) == map[] <==> Valid(input)
  {
    var e := Errors(input);
    if Valid(input) {
      forall field: Field ensures field !in e {
      }
      assert e.Keys == {};
    } else if |input.name| < 3 {
      assert Name in e;
    } else if |input.address| < 5 {
      assert Address in e;
    } else if |input.phone| < 10 || !AllDigits(input.phone) {
      assert Phone in e;
    } else {
      assert State in e;
    }
  }

  const FormKeys: set<string> := {"name", "address", "phone", "state"}

  /** The form's values as record fields. */
  function InputFields(input: CustomerInput): (r: Fields)
    ensures r.Keys == FormKeys
    ensures r["name"] == input.name && r["address"] == input.address
    ensures r["phone"] == input.phone && r["state"] == input.state
  {
    map["name" := input.name, "address" := input.address, "phone" := input.phone, "state" := input.state]
  }

  /** The form's starting values: the customer being edited, or four empty fields. */
  function DefaultValues(customer: Option<Fields>): (r: Fields)
    ensures customer.Some? ==> r == customer.value
    ensures customer.None? ==> r.Keys == FormKeys && forall k :: k in r ==> r[k] == ""
  {
    match customer
    case Some(c) => c
    case None => InputFields(CustomerInput("", "", "", ""))
  }

  /** `{ ...customer, ...data }`: the form's fields win, every other field of the customer is kept. */
  function Merged(customer: Option<Fields>, input: CustomerInput): (r: Fields)
    ensures r.Keys == FormKeys + (if customer.Some? then customer.value.Keys else {})
    ensures forall k :: k in FormKeys ==> r[k] == InputFields(input)[k]
    ensures customer.Some? ==> forall k :: k in customer.value && k !in FormKeys ==> r[k] == customer.value[k]
  {
    customer.GetOr(map[]) + InputFields(input)
  }

  /** `customerData._id` is truthy: present and not empty. */
  predicate HasId(record: Fields) {
    "_id" in record && record["_id"] != ""
  }

  /** Which request `handleSave` makes. */
  datatype SavePath = UpdatePath | AddPath

  /** Saving an edited customer with an id updates it under that id; saving a new one adds. */
  lemma SavedEditKeepsId(c: Fields, input: CustomerInput)
    requires HasId(c)
    ensures HasId(Merged(Some(c), input)) && Merged(Some(c), input)["_id"] == c["_id"]
    ensures !HasId(Merged(None, input))
  {
    assert "_id" !in FormKeys;
  }

  /** The page's dialog state. */
  class CustomerPage {
    var isFormOpen: bool
    var editingCustomer: Option<Fields>

    constructor ()
      ensures !isFormOpen && editingCustomer == None
    {
      isFormOpen := false;
      editingCustomer := None;
    }

    /** `handleAddNew`: an empty form. */
    method HandleAddNew()
      modifies this
      ensures isFormOpen && editingCustomer == None
    {
      editingCustomer := None;
      isFormOpen := true;
    }

    /** `handleEdit`: the form filled from this customer. */
    method HandleEdit(c: Fields)
      modifies this
      ensures isFormOpen && editingCustomer == Some(c)
    {
      editingCustomer := Some(c);
      isFormOpen := true;
    }

    /** The form's Cancel button. */
    method Cancel()
      modifies this
      ensures !isFormOpen && editingCustomer == old(editingCustomer)
    {
      isFormOpen := false;
    }

    /** `handleSave`: update when the record has an id, add otherwise; the form closes either way. */
    method HandleSave(record: Fields) returns (path: SavePath)
      modifies this
      ensures path == UpdatePath <==> HasId(record)
      ensures !isFormOpen && editingCustomer == old(editingCustomer)
    {
      if HasId(record) {
        path := UpdatePath;
      } else {
        path := AddPath;
      }
      isFormOpen := false;
    }

    /**
     * Submitting the form: a form with errors submits nothing and the dialog
     * stays as it is; a valid one is merged over the edited customer and saved.
     */
    method Submit(input: CustomerInput) returns (saved: Option<(Fields, SavePath)>)
      modifies this
      ensures !Valid(input) ==> saved == None && isFormOpen == old(isFormOpen)
      ensures Valid(input) ==> saved.Some? && saved.value.0 == Merged(old(editingCustomer), input) && !isFormOpen
      ensures Valid(input) ==> (saved.value.1 == UpdatePath <==> HasId(saved.value.0))
      ensures editingCustomer == old(editingCustomer)
    {
      if !Valid(input) {
        return None;
      }
      var record := Merged(editingCustomer, input);
      var path := HandleSave(record);
      saved := Some((record, path));
    }
  }
}
