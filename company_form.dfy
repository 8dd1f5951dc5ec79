/**
 * The three-step company wizard: company identity, then contact details,
 * then bank details. Each step checks its own required fields before moving
 * on; the last step submits. The form data is a record whose
 * `bankDetails` entry is a nested record, edited through dotted field names
 * such as `bankDetails.ifsc`.
 */
module CompanyForm {
  import opened Wrappers
  import opened Text

  /** A value in the form data: text, a list (as stored on a company), or a nested record. */
  datatype Value = Str(s: string) | List(items: seq<string>) | Obj(fields: map<string, string>)

  type FormData = map<string, Value>

  /** The blank form. */
  function InitialData(): (d: FormData)
    ensures d.Keys == {"name", "address", "gstin", "hallMarkNumber", "email", "phone", "state", "stateCode",
                       "bankDetails", "termsConditions"}
    ensures d["bankDetails"] == Obj(map["name" := "", "branch" := "", "accountNumber" := "", "ifsc" := ""])
    ensures forall k :: k in d && k != "bankDetails" ==> d[k] == Str("")
  {
    map["name" := Str(""), "address" := Str(""), "gstin" := Str(""), "hallMarkNumber" := Str(""),
        "email" := Str(""), "phone" := Str(""), "state" := Str(""), "stateCode" := Str(""),
        "bankDetails" := Obj(map["name" := "", "branch" := "", "accountNumber" := "", "ifsc" := ""]),
        "termsConditions" := Str("")]
  }

  /**
   * `company[key]?.join(sep) || ""`: an absent entry gives "", a list its
   * joined text; any other value has no `join`, and the call throws (None).
   */
  function JoinedOrEmpty(company: FormData, key: string, sep: string): (r: Option<string>)
    ensures key !in company ==> r == Some("")
    ensures key in company && company[key].List? ==> r == Some(Join(company[key].items, sep))
    ensures r.None? <==> key in company && !company[key].List?
  {
    if key !in company then Some("")
    else match company[key]
      case List(items) => Some(Join(items, sep))
      case _ => None
  }

  /**
   * The form data when the wizard opens: the blank form overlaid with the
   * company, phones joined with ", " and terms with a newline. None when
   * the company's phones or terms are not lists.
   */
  function Opened(company: Option<FormData>): (r: Option<FormData>)
    ensures company.None? ==> r == Some(InitialData())
    ensures company.Some? ==> (r.Some? <==>
      JoinedOrEmpty(company.value, "phone", ", ").Some? && JoinedOrEmpty(company.value, "termsConditions", "\n").Some?)
  {
    match company
    case None => Some(InitialData())
    case Some(c) =>
      match (JoinedOrEmpty(c, "phone", ", "), JoinedOrEmpty(c, "termsConditions", "\n"))
      case (Some(phone), Some(terms)) =>
        Some((InitialData() + c)["phone" := Str(phone)]["termsConditions" := Str(terms)])
      case _ => None
  }

  /**
   * An opened company: the defaults' and the company's fields, the company's
   * winning, with the phones and terms joined.
   */
  lemma OpenedContents(company: FormData)
    requires Opened(Some(company)).Some?
    ensures var r := Opened(Some(company)).value;
      (forall k :: k in r <==> k in InitialData() || k in company) &&
      r["phone"] == Str(JoinedOrEmpty(company, "phone", ", ").value) &&
      r["termsConditions"] == Str(JoinedOrEmpty(company, "termsConditions", "\n").value) &&
      (forall k :: k in company && k != "phone" && k != "termsConditions" ==> r[k] == company[k]) &&
      (forall k :: k in InitialData() && k !in company ==> r[k] == InitialData()[k])
  {
    var phone := JoinedOrEmpty(company, "phone", ", ").value;
    var terms := JoinedOrEmpty(company, "termsConditions", "\n").value;
    OverlayContents(InitialData(), company, phone, terms);
  }

  /** The defaults overlaid with the company, then the joined phones and terms set. */
  lemma OverlayContents(defaults: FormData, company: FormData, phone: string, terms: string)
    requires "phone" in defaults && "termsConditions" in defaults
    ensures var r := (defaults + company)["phone" := Str(phone)]["termsConditions" := Str(terms)];
      (forall k :: k in r <==> k in defaults || k in company) &&
      r["phone"] == Str(phone) && r["termsConditions"] == Str(terms) &&
      (forall k :: k in company && k != "phone" && k != "termsConditions" ==> r[k] == company[k]) &&
      (forall k :: k in defaults && k !in company && k != "phone" && k != "termsConditions" ==> r[k] == defaults[k])
  {
  }

  /** `!formData[field]` is false: present and not the empty string (a list or a record is always truthy). */
  predicate Truthy(form: FormData, field: string) {
    field in form && form[field] != Str("")
  }

  /** `formData.bankDetails[child]` is truthy. */
  predicate BankTruthy(form: FormData, child: string) {
    "bankDetails" in form && form["bankDetails"].Obj? &&
    child in form["bankDetails"].fields && form["bankDetails"].fields[child] != ""
  }

  /** Whether the field a step requires is filled in; dotted names read the bank details. */
  predicate Filled(form: FormData, field: string) {
    match field
    case "bankDetails.name" => BankTruthy(form, "name")
    case "bankDetails.accountNumber" => BankTruthy(form, "accountNumber")
    case "bankDetails.ifsc" => BankTruthy(form, "ifsc")
    case _ => Truthy(form, field)
  }

  /** The fields each step requires. */
  function Required(step: nat): (r: set<string>)
    ensures step == 1 ==> r == {"name", "gstin", "address"}
    ensures step == 2 ==> r == {"email", "phone", "state"}
    ensures step == 3 ==> r == {"bankDetails.name", "bankDetails.accountNumber", "bankDetails.ifsc"}
    ensures step > 3 ==> r == {}
  {
    if step == 1 then {"name", "gstin", "address"}
    else if step == 2 then {"email", "phone", "state"}
    else if step == 3 then {"bankDetails.name", "bankDetails.accountNumber", "bankDetails.ifsc"}
    else {}
  }

  function Message(field: string): string {
    match field
    case "name" => "Company name is required"
    case "gstin" => "GSTIN is required"
    case "address" => "Address is required"
    case "email" => "Email is required"
    case "phone" => "Phone is required"
    case "state" => "State is required"
    case "bankDetails.name" => "Bank name is required"
    case "bankDetails.accountNumber" => "Account number is required"
    case "bankDetails.ifsc" => "IFSC code is required"
    case _ => ""
  }

  /** `validateStep`'s error map: one message per required field of the step that is not filled in. */
  function StepErrors(step: nat, form: FormData): (errors: map<string, string>)
    ensures forall field :: field in errors <==> field in Required(step) && !Filled(form, field)
    ensures forall field :: field in errors ==> errors[field] == Message(field)
  {
    map field | field in Required(step) && !Filled(form, field) :: Message(field)
  }

  /** A step passes exactly when its required fields are filled in. */
  lemma StepPassesIffFilled(step: nat, form: FormData)
    ensures StepErrors(step, form) == map[] <==> forall field :: field in Required(step) ==> Filled(form, field)
  {
    var e := StepErrors(step, form);
    if forall field :: field in Required(step) ==> Filled(form, field) {
      assert e.Keys == {};
    } else {
      var field :| field in Required(step) && !Filled(form, field);
      assert field in e;
    }
  }

  /** `field.includes(".")` for the one-character needle. */
  predicate HasDot(field: string) {
    exists i :: 0 <= i < |field| && field[i] == '.'
  }

  /** The two names of a dotted field: the first two pieces of `field.split(".")`. */
  function DottedParts(field: string): (r: (string, string))
    requires HasDot(field)
  {
    var i :| 0 <= i < |field| && field[i] == '.';
    SplitAtSeparator(field, {'.'}, i);
    var parts := Split(field, {'.'});
    (parts[0], parts[1])
  }

  /**
   * `handleInputChange`'s new form data. A dotted field sets one entry of the
   * nested record (a parent that is not a record starts from an empty one);
   * a plain field sets one top-level entry.
   */
  function UpdateField(form: FormData, field: string, value: string): (r: FormData)
    ensures HasDot(field) ==>
      var (parent, child) := DottedParts(field);
      r.Keys == form.Keys + {parent} &&
      r[parent].Obj? && child in r[parent].fields && r[parent].fields[child] == value &&
      (parent in form && form[parent].Obj? ==>
        r[parent].fields.Keys == form[parent].fields.Keys + {child} &&
        forall c :: c in form[parent].fields && c != child ==> r[parent].fields[c] == form[parent].fields[c]) &&
      forall k :: k in form && k != parent ==> r[k] == form[k]
    ensures !HasDot(field) ==>
      r.Keys == form.Keys + {field} && r[field] == Str(value) &&
      forall k :: k in form && k != field ==> r[k] == form[k]
  {
    if HasDot(field) then
      var (parent, child) := DottedParts(field);
      var siblings := if parent in form && form[parent].Obj? then form[parent].fields else map[];
      form[parent := Obj(siblings[child := value])]
    else
      form[field := Str(value)]
  }

  /** The wizard's state. `pending` is the data a final submit hands to its timer; `closed` is set when the timer calls `onClose`. */
  class CompanyWizard {
    var step: nat
    var formData: FormData
    var errors: map<string, string>
    var isLoading: bool
    var pending: Option<FormData>
    var submitted: seq<FormData>
    var closed: bool

    /** There are three steps. */
    ghost predicate Valid()
      reads this`step
    {
      1 <= step <= 3
    }

    constructor ()
      ensures Valid() && step == 1 && formData == map[] && errors == map[]
      ensures !isLoading && pending == None && submitted == [] && !closed
    {
      step := 1;
      formData := map[];
      errors := map[];
      isLoading := false;
      pending := None;
      submitted := [];
      closed := false;
    }

    /**
     * The effect run when the wizard opens or its company changes: fresh
     * form data, step 1, no errors. When the company's phones or terms are
     * not lists the effect throws before changing anything.
     */
    method Open(company: Option<FormData>) returns (threw: bool)
      modifies this`step, this`formData, this`errors
      ensures threw <==> Opened(company).None?
      ensures threw ==> step == old(step) && formData == old(formData) && errors == old(errors)
      ensures !threw ==> Valid() && step == 1 && formData == Opened(company).value && errors == map[]
    {
      var data := Opened(company);
      if data.None? {
        return true;
      }
      formData := data.value;
      step := 1;
      errors := map[];
      threw := false;
    }

    /** `handleInputChange`: one field changes and that field's error is cleared. */
    method HandleInputChange(field: string, value: string)
      modifies this`formData, this`errors
      ensures formData == UpdateField(old(formData), field, value)
      ensures errors == old(errors) - {field}
    {
      formData := UpdateField(formData, field, value);
      if field in errors {
        errors := errors - {field};
      }
    }

    /** `validateStep`. */
    method ValidateStep() returns (ok: bool)
      modifies this`errors
      ensures errors == StepErrors(step, formData)
      ensures ok <==> errors == map[]
    {
      errors := StepErrors(step, formData);
      ok := |errors| == 0;
    }

    /**
     * `handleSubmit`: a step with missing fields stays; steps 1 and 2
     * advance by one; step 3 starts loading and hands the data to the timer.
     */
    method HandleSubmit()
      modifies this`errors, this`step, this`isLoading, this`pending
      ensures old(Valid()) ==> Valid()
      ensures errors == StepErrors(old(step), formData)
      ensures errors != map[] ==> step == old(step) && isLoading == old(isLoading) && pending == old(pending)
      ensures errors == map[] && old(step) < 3 ==> step == old(step) + 1 && isLoading == old(isLoading) && pending == old(pending)
      ensures errors == map[] && old(step) >= 3 ==> step == old(step) && isLoading && pending == Some(formData)
    {
      var ok := ValidateStep();
      if !ok {
        return;
      }
      if step < 3 {
        step := step + 1;
        return;
      }
      isLoading := true;
      pending := Some(formData);
    }

    /** The timer of a final submit: the data it was handed is logged, loading stops and the wizard asks to close. */
    method FinishSubmit()
      requires pending.Some?
      modifies this`isLoading, this`pending, this`submitted, this`closed
      ensures submitted == old(submitted) + [old(pending).value]
      ensures !isLoading && pending == None && closed
    {
      submitted := submitted + [pending.value];
      isLoading := false;
      pending := None;
      closed := true;
    }

    /** The Back button, shown from step 2 on. */
    method Back()
      requires step > 1
      modifies this`step
      ensures step == old(step) - 1
      ensures old(Valid()) ==> Valid()
    {
      step := step - 1;
    }
  }

  /** A name made of two dot-free names joined by a dot splits back into them. */
  lemma DottedPartsOf(parent: string, child: string)
    requires NoneIn(parent, {'.'}) && NoneIn(child, {'.'})
    ensures HasDot(parent + "." + child)
    ensures DottedParts(parent + "." + child) == (parent, child)
  {
    var field := parent + "." + child;
    assert field[|parent|] == '.';
    assert field == parent + ("." + child);
    SplitPrefix(parent, "." + child, {'.'});
    assert ("." + child)[0] == '.' && ("." + child)[1..] == child;
    assert Split("." + child, {'.'}) == [""] + Split(child, {'.'});
    SplitPrefix(child, "", {'.'});
    assert child + "" == child;
    assert Split(child, {'.'}) == [child];
    var tail := Split("." + child, {'.'});
    assert tail == ["", child];
    assert parent + tail[0] == parent;
    assert Split(field, {'.'}) == [parent + tail[0]] + tail[1..];
  }

  /** Editing a bank detail keeps the other bank details and every top-level entry. */
  lemma EditBankDetail(form: FormData, value: string)
    requires "bankDetails" in form && form["bankDetails"].Obj?
    ensures var r := UpdateField(form, "bankDetails.ifsc", value);
      r.Keys == form.Keys && r["bankDetails"].Obj? &&
      "ifsc" in r["bankDetails"].fields && r["bankDetails"].fields["ifsc"] == value &&
      (forall c :: c in form["bankDetails"].fields && c != "ifsc" ==> r["bankDetails"].fields[c] == form["bankDetails"].fields[c]) &&
      forall k :: k in form && k != "bankDetails" ==> r[k] == form[k]
  {
    IfscField();
  }

  lemma IfscField()
    ensures HasDot("bankDetails.ifsc") && DottedParts("bankDetails.ifsc") == ("bankDetails", "ifsc")
  {
    var parent, child := "bankDetails", "ifsc";
    assert NoneIn(parent, {'.'}) && NoneIn(child, {'.'});
    DottedPartsOf(parent, child);
    assert parent + "." + child == "bankDetails.ifsc";
  }

  /** Passing all three steps means all nine required fields are filled in. */
  lemma AllStepsPass(form: FormData)
    requires StepErrors(1, form) == map[] && StepErrors(2, form) == map[] && StepErrors(3, form) == map[]
    ensures Truthy(form, "name") && Truthy(form, "gstin") && Truthy(form, "address")
    ensures Truthy(form, "email") && Truthy(form, "phone") && Truthy(form, "state")
    ensures BankTruthy(form, "name") && BankTruthy(form, "accountNumber") && BankTruthy(form, "ifsc")
  {
    StepPassesIffFilled(1, form);
    StepPassesIffFilled(2, form);
    StepPassesIffFilled(3, form);
    assert Filled(form, "bankDetails.name") && Filled(form, "bankDetails.accountNumber") && Filled(form, "bankDetails.ifsc");
  }

  /** A freshly opened blank wizard fails step 1 on all three of its fields. */
  lemma BlankFailsFirstStep()
    ensures StepErrors(1, Opened(None).value).Keys == {"name", "gstin", "address"}
  {
    var f := InitialData();
    assert Opened(None).value == f;
    BlankFirstFields();
    assert Required(1) == {"name", "gstin", "address"};
    forall field | field in Required(1) ensures !Filled(f, field) {
    }
    AllMissing(1, f);
  }

  /** When every required field of a step is missing, every one of them is reported. */
  lemma AllMissing(step: nat, form: FormData)
    requires forall field :: field in Required(step) ==> !Filled(form, field)
    ensures StepErrors(step, form).Keys == Required(step)
  {
    var e := StepErrors(step, form);
    forall field | field in Required(step) ensures field in e {
    }
  }

  lemma BlankFirstFields()
    ensures !Filled(InitialData(), "name") && !Filled(InitialData(), "gstin") && !Filled(InitialData(), "address")
  {
    var f := InitialData();
    assert f["name"] == Str("") && f["gstin"] == Str("") && f["address"] == Str("");
  }
}
