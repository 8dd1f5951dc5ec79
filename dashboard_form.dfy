/**
 * The company dialog on the dashboard: the form schema (GSTIN and IFSC
 * formats, digits-only phone and account number, required fields), the
 * conversion of the submitted form into the company sent to the server
 * (phones and terms split into lists), and the form filled in from a
 * stored company when it is edited.
 *
 * A field's error is the first of its checks that fails, in the order the
 * schema lists them, as the form shows one message per field.
 */
module DashboardForm {
  import opened Wrappers
  import opened Text

  // ---------------------------------------------------------------------
  // Formats
  // ---------------------------------------------------------------------

  /** `[1-9A-Z]`. */
  predicate IsNonZeroDigitOrUpper(c: char) { ('1' <= c <= '9') || IsUpper(c) }

  /** `[0-9A-Z]`. */
  predicate IsDigitOrUpper(c: char) { IsDigit(c) || IsUpper(c) }

  /**
   * `/^\d{2}[A-Z]{5}\d{4}[A-Z]{1}[1-9A-Z]{1}Z[0-9A-Z]{1}$/`: state code,
   * PAN (five letters, four digits, a letter), entity number, 'Z', check
   * character.
   */
  predicate GstinPattern(s: string) {
    |s| == 15 &&
    (forall i :: 0 <= i < 2 ==> IsDigit(s[i])) &&
    (forall i :: 2 <= i < 7 ==> IsUpper(s[i])) &&
    (forall i :: 7 <= i < 11 ==> IsDigit(s[i])) &&
    IsUpper(s[11]) && IsNonZeroDigitOrUpper(s[12]) && s[13] == 'Z' && IsDigitOrUpper(s[14])
  }

  /** `/^[A-Z]{4}0[A-Z0-9]{6}$/`: bank code, a zero, branch code. */
  predicate IfscPattern(s: string) {
    |s| == 11 &&
    (forall i :: 0 <= i < 4 ==> IsUpper(s[i])) &&
    s[4] == '0' &&
    (forall i :: 5 <= i < 11 ==> IsDigitOrUpper(s[i]))
  }

  // ---------------------------------------------------------------------
  // Field checks
  // ---------------------------------------------------------------------

  /** `z.string().min(1, message)`. */
  function RequiredError(s: string, message: string): (e: Option<string>)
    ensures e.None? <==> s != ""
    ensures e.Some? ==> e.value == message
  {
    if s == "" then Some(message) else None
  }

  /** `.min(1).length(15).regex(gstin)`: the first failing check's message. */
  function GstinError(s: string): (e: Option<string>)
    ensures e.None? <==> GstinPattern(s)
    ensures s == "" ==> e == Some("GSTIN is required")
    ensures s != "" && |s| != 15 ==> e == Some("GSTIN must be 15 characters")
    ensures |s| == 15 && !GstinPattern(s) ==> e == Some("Invalid GSTIN format")
  {
    if s == "" then Some("GSTIN is required")
    else if |s| != 15 then Some("GSTIN must be 15 characters")
    else if !GstinPattern(s) then Some("Invalid GSTIN format")
    else None
  }

  /** `.min(1).regex(/^\d+$/)`: the required message, or the digits message. */
  function DigitsError(s: string, required: string, digitsOnly: string): (e: Option<string>)
    ensures e.None? <==> AllDigits(s)
    ensures s == "" ==> e == Some(required)
    ensures s != "" && !AllDigits(s) ==> e == Some(digitsOnly)
  {
    if s == "" then Some(required)
    else if !AllDigits(s) then Some(digitsOnly)
    else None
  }

  /** `.min(1).regex(ifsc)`. */
  function IfscError(s: string): (e: Option<string>)
    ensures e.None? <==> IfscPattern(s)
    ensures s == "" ==> e == Some("IFSC is required")
  {
    if s == "" then Some("IFSC is required")
    else if !IfscPattern(s) then Some("Invalid IFSC format")
    else None
  }

  /**
   * `.email(...).min(1, ...)`: the address check comes first and refuses the
   * empty string, so an empty email shows the address message.
   * `wellFormed` is the answer of the library's address pattern.
   */
  function EmailError(s: string, wellFormed: bool): (e: Option<string>)
    ensures e.None? <==> s != "" && wellFormed
    ensures e.Some? ==> e.value == "Invalid email address"
  {
    if s == "" || !wellFormed then Some("Invalid email address") else None
  }

  // ---------------------------------------------------------------------
  // The form
  // ---------------------------------------------------------------------

  /** The terms field: the textarea's text, a list already split, or absent. */
  datatype Terms = TermsText(text: string) | TermsList(items: seq<string>) | NoTerms

  /** The form's values; `phone` is one text field, the bank details are nested. */
  datatype CompanyForm = CompanyForm(
    name: string, address: string, gstin: string, hallMarkNumber: string, email: string,
    phone: string, state: string, stateCode: string,
    bankName: string, branch: string, accountNumber: string, ifsc: string,
    terms: Terms)

  /**
   * Every rule of the schema. `termsConditions` is an optional array of
   * strings, which text would fail; the textarea's `setValueAs` turns its
   * text into a list before validation runs, so no terms rule is stated.
   */
  predicate Valid(f: CompanyForm, emailWellFormed: bool) {
    f.name != "" && f.address != "" && GstinPattern(f.gstin) && f.hallMarkNumber != "" &&
    f.email != "" && emailWellFormed && AllDigits(f.phone) && f.state != "" && f.stateCode != "" &&
    f.bankName != "" && f.branch != "" && AllDigits(f.accountNumber) && IfscPattern(f.ifsc)
  }

  /** The schema's fields; `Path` gives the key the form reports an error under. */
  datatype Field =
    | Name | Address | Gstin | HallMarkNumber | Email | Phone | State | StateCode
    | BankName | Branch | AccountNumber | Ifsc
  {
    function Path(): string {
      match this
      case Name => "name"
      case Address => "address"
      case Gstin => "gstin"
      case HallMarkNumber => "hallMarkNumber"
      case Email => "email"
      case Phone => "phone"
      case State => "state"
      case StateCode => "stateCode"
      case BankName => "bankDetails.name"
      case Branch => "bankDetails.branch"
      case AccountNumber => "bankDetails.accountNumber"
      case Ifsc => "bankDetails.ifsc"
    }
  }

  /** The message the form shows under one field, if any. */
  function FieldError(f: CompanyForm, emailWellFormed: bool, field: Field): (e: Option<string>)
  {
    match field
    case Name => RequiredError(f.name, "Company Name is required")
    case Address => RequiredError(f.address, "Address is required")
    case Gstin => GstinError(f.gstin)
    case HallMarkNumber => RequiredError(f.hallMarkNumber, "Hallmark Number is required")
    case Email => EmailError(f.email, emailWellFormed)
    case Phone => DigitsError(f.phone, "Phone is required", "Phone must contain only digits")
    case State => RequiredError(f.state, "State is required")
    case StateCode => RequiredError(f.stateCode, "State Code is required")
    case BankName => RequiredError(f.bankName, "Bank Name is required")
    case Branch => RequiredError(f.branch, "Branch is required")
    case AccountNumber =>
      DigitsError(f.accountNumber, "Account Number is required", "Account Number must contain only digits")
    case Ifsc => IfscError(f.ifsc)
  }

  /** The form's errors, one message per failing field. */
  function Errors(f: CompanyForm, emailWellFormed: bool): (errors: map<Field, string>)
    ensures forall field :: field in errors ==> Some(errors[field]) == FieldError(f, emailWellFormed, field)
    ensures forall field :: field !in errors ==> FieldError(f, emailWellFormed, field).None?
  {
    map field: Field | FieldError(f, emailWellFormed, field).Some? :: FieldError(f, emailWellFormed, field).value
  }

  /** The schema accepts the form exactly when no field shows an error, and each format rule reports under its own field. */
  lemma ErrorsEmptyIffValid(f: CompanyForm, emailWellFormed: bool)
    ensures Errors(f, emailWellFormed) == map[] <==> Valid(f, emailWellFormed)
    ensures Gstin in Errors(f, emailWellFormed) <==> !GstinPattern(f.gstin)
    ensures Phone in Errors(f, emailWellFormed) <==> !AllDigits(f.phone)
    ensures AccountNumber in Errors(f, emailWellFormed) <==> !AllDigits(f.accountNumber)
    ensures Ifsc in Errors(f, emailWellFormed) <==> !IfscPattern(f.ifsc)
  {
    EmptyIffValid(f, emailWellFormed);
    FormatErrors(f, emailWellFormed);
  }

  lemma FormatErrors(f: CompanyForm, emailWellFormed: bool)
    ensures Gstin in Errors(f, emailWellFormed) <==> !GstinPattern(f.gstin)
    ensures Phone in Errors(f, emailWellFormed) <==> !AllDigits(f.phone)
    ensures AccountNumber in Errors(f, emailWellFormed) <==> !AllDigits(f.accountNumber)
    ensures Ifsc in Errors(f, emailWellFormed) <==> !IfscPattern(f.ifsc)
  {
    InErrors(f, emailWellFormed, Gstin);
    InErrors(f, emailWellFormed, Phone);
    InErrors(f, emailWellFormed, AccountNumber);
    InErrors(f, emailWellFormed, Ifsc);
  }

  lemma InErrors(f: CompanyForm, emailWellFormed: bool, field: Field)
    ensures field in Errors(f, emailWellFormed) <==> FieldError(f, emailWellFormed, field).Some?
  {
  }

  lemma EmptyIffValid(f: CompanyForm, emailWellFormed: bool)
    ensures Errors(f, emailWellFormed) == map[] <==> Valid(f, emailWellFormed)
  {
    var e := Errors(f, emailWellFormed);
    if Valid(f, emailWellFormed) {
      forall field: Field ensures field !in e {
      }
      assert e.Keys == {};
    } else {
      var field := FailingField(f, emailWellFormed);
      assert field in e;
    }
  }

  /** A field that shows an error on a form the schema refuses. */
  lemma FailingField(f: CompanyForm, emailWellFormed: bool) returns (field: Field)
    requires !Valid(f, emailWellFormed)
    ensures FieldError(f, emailWellFormed, field).Some?
  {
    if f.name == "" { field := Name; }
    else if f.address == "" { field := Address; }
    else if !GstinPattern(f.gstin) { field := Gstin; }
    else if f.hallMarkNumber == "" { field := HallMarkNumber; }
    else if f.email == "" || !emailWellFormed { field := Email; }
    else if !AllDigits(f.phone) { field := Phone; }
    else if f.state == "" { field := State; }
    else if f.stateCode == "" { field := StateCode; }
    else if f.bankName == "" { field := BankName; }
    else if f.branch == "" { field := Branch; }
    else if !AllDigits(f.accountNumber) { field := AccountNumber; }
    else { field := Ifsc; }
  }

  /** A pattern-matching GSTIN is exactly 15 characters, so the first two checks never decide on their own. */
  lemma GstinLengthImplied(s: string)
    ensures GstinPattern(s) ==> |s| == 15 && s != ""
    ensures GstinError(s).Some? ==> !GstinPattern(s)
  {
  }

  /** The email's own required message is never the one shown. */
  lemma EmailRequiredNeverShown(s: string, wellFormed: bool)
    ensures EmailError(s, wellFormed) != Some("Email is required")
    ensures s == "" ==> EmailError(s, wellFormed) == Some("Invalid email address")
  {
  }

  /** A sample GSTIN and IFSC pass, and a lower-case GSTIN does not. */
  lemma FormatExamples()
    ensures GstinPattern("27AAPFU0939F1ZV")
    ensures !GstinPattern("27aapfu0939f1zv")
    ensures IfscPattern("SBIN0001234")
    ensures !IfscPattern("SBIN1001234")
  {
    var g := "27AAPFU0939F1ZV";
    assert forall i :: 0 <= i < 2 ==> IsDigit(g[i]);
    assert forall i :: 2 <= i < 7 ==> IsUpper(g[i]);
    assert forall i :: 7 <= i < 11 ==> IsDigit(g[i]);
    var l := "27aapfu0939f1zv";
    assert !IsUpper(l[2]);
    var f := "SBIN0001234";
    assert forall i :: 0 <= i < 4 ==> IsUpper(f[i]);
    assert forall i :: 5 <= i < 11 ==> IsDigitOrUpper(f[i]);
    assert "SBIN1001234"[4] == '1';
  }

  // ---------------------------------------------------------------------
  // Submitting and editing
  // ---------------------------------------------------------------------

  const Comma: set<char> := {','}
  const CommaOrNewline: set<char> := {'\n', ','}

  /** The phone field as a list: split on ',', trimmed, empty entries dropped. */
  function PhoneList(phone: string): (r: seq<string>)
    ensures forall k :: 0 <= k < |r| ==> r[k] != "" && IsTrimmed(r[k]) && NoneIn(r[k], Comma)
  {
    SplitClean(phone, Comma)
  }

  /** The terms textarea's `setValueAs`: text is split on newline or comma; anything else becomes []. */
  function TermsOnInput(t: Terms): (r: seq<string>)
    ensures t.TermsText? ==> r == SplitClean(t.text, CommaOrNewline)
    ensures !t.TermsText? ==> r == []
  {
    match t
    case TermsText(s) => SplitClean(s, CommaOrNewline)
    case _ => []
  }

  /**
   * The terms in `onSubmit`: text is split the same way; a list or nothing
   * is passed through. Through the form the text case does not arise, as
   * `setValueAs` has already turned text into a list.
   */
  function TermsOnSubmit(t: Terms): (r: Terms)
    ensures t.TermsText? ==> r == TermsList(TermsOnInput(t))
    ensures !t.TermsText? ==> r == t
  {
    match t
    case TermsText(s) => TermsList(SplitClean(s, CommaOrNewline))
    case _ => t
  }

  /** The company as the server receives it. */
  datatype CompanyData = CompanyData(
    name: string, address: string, gstin: string, hallMarkNumber: string, email: string,
    phone: seq<string>, state: string, stateCode: string,
    bankName: string, branch: string, accountNumber: string, ifsc: string,
    terms: Terms)

  /** The request `onSubmit` dispatches. */
  datatype Request = Update(id: string, data: CompanyData) | Add(data: CompanyData)

  /** `companyDataToSend`: the form with phones and terms turned into lists. */
  function ToSend(f: CompanyForm): (d: CompanyData)
    ensures d.phone == PhoneList(f.phone) && d.terms == TermsOnSubmit(f.terms)
    ensures d.name == f.name && d.gstin == f.gstin && d.email == f.email && d.accountNumber == f.accountNumber
    ensures d.ifsc == f.ifsc
  {
    CompanyData(f.name, f.address, f.gstin, f.hallMarkNumber, f.email, PhoneList(f.phone), f.state,
      f.stateCode, f.bankName, f.branch, f.accountNumber, f.ifsc, TermsOnSubmit(f.terms))
  }

  /** Submitting updates the selected company under its own id, or adds a new one when none is selected. */
  function Submit(f: CompanyForm, selectedId: Option<string>): (r: Request)
    ensures r.Update? <==> selectedId.Some?
    ensures r.Update? ==> r.id == selectedId.value
    ensures r.data == ToSend(f)
  {
    match selectedId
    case Some(id) => Update(id, ToSend(f))
    case None => Add(ToSend(f))
  }

  /** A stored company, as the dashboard lists it. */
  datatype Company = Company(id: string, data: CompanyData)

  /** `openFormDialog(company)`: phones joined with ", ", terms as stored (absent terms become []). */
  function EditForm(c: Company): (f: CompanyForm)
    ensures f.phone == Join(c.data.phone, ", ")
    ensures f.terms == (if c.data.terms.NoTerms? then TermsList([]) else c.data.terms)
    ensures f.name == c.data.name && f.gstin == c.data.gstin && f.ifsc == c.data.ifsc
  {
    var d := c.data;
    CompanyForm(d.name, d.address, d.gstin, d.hallMarkNumber, d.email, Join(d.phone, ", "), d.state,
      d.stateCode, d.bankName, d.branch, d.accountNumber, d.ifsc,
      if d.terms.NoTerms? then TermsList([]) else d.terms)
  }

  /** `openFormDialog()` with no company: every field empty, no terms. */
  function NewForm(): (f: CompanyForm)
    ensures f.name == "" && f.phone == "" && f.gstin == "" && f.terms == TermsList([])
    ensures forall ok :: !Valid(f, ok)
  {
    CompanyForm("", "", "", "", "", "", "", "", "", "", "", "", TermsList([]))
  }

  /** Splitting the ", "-joined phones gives back the stored list when its entries are clean. */
  lemma PhonesRoundTrip(phones: seq<string>)
    requires forall k :: 0 <= k < |phones| ==> phones[k] != "" && IsTrimmed(phones[k]) && NoneIn(phones[k], Comma)
    ensures PhoneList(Join(phones, ", ")) == phones
  {
    var sep := ", ";
    CommaSpace(sep);
    SplitCleanJoinSep(phones, sep, Comma);
  }

  /** ", " is a comma followed by padding that holds no comma. */
  lemma CommaSpace(sep: string)
    requires sep == ", "
    ensures |sep| > 0 && sep[0] in Comma
    ensures forall i :: 1 <= i < |sep| ==> IsSpace(sep[i]) && sep[i] !in Comma
  {
    assert |sep| == 2 && sep[0] == ',' && sep[1] == ' ';
  }

  /** Re-submitting an edited company unchanged sends its own id and its own phone list. */
  lemma EditThenSubmit(c: Company)
    requires forall k :: 0 <= k < |c.data.phone| ==>
      c.data.phone[k] != "" && IsTrimmed(c.data.phone[k]) && NoneIn(c.data.phone[k], Comma)
    ensures Submit(EditForm(c), Some(c.id)) == Update(c.id, ToSend(EditForm(c)))
    ensures ToSend(EditForm(c)).phone == c.data.phone
  {
    PhonesRoundTrip(c.data.phone);
  }

  /** Two or more phones joined with ", " contain a comma, so the digits-only rule refuses them. */
  lemma {:induction false} JoinedPhonesNotDigits(phones: seq<string>)
    requires |phones| >= 2
    ensures !AllDigits(Join(phones, ", "))
  {
    var s := Join(phones, ", ");
    assert s == phones[0] + ", " + Join(phones[1..], ", ");
    assert s[|phones[0]|] == ',';
  }

  /** So editing a company with two or more phones can never pass the schema. */
  lemma MultiPhoneEditInvalid(c: Company, emailWellFormed: bool)
    requires |c.data.phone| >= 2
    ensures !Valid(EditForm(c), emailWellFormed)
    ensures Phone in Errors(EditForm(c), emailWellFormed)
  {
    JoinedPhonesNotDigits(c.data.phone);
    ErrorsEmptyIffValid(EditForm(c), emailWellFormed);
  }

  /** Text terms are split the same way on input and on submit; a stored list survives submit but not input. */
  lemma TermsPaths(t: Terms)
    ensures t.TermsText? ==> TermsOnSubmit(t) == TermsList(TermsOnInput(t))
    ensures t.TermsList? ==> TermsOnSubmit(t) == t && TermsOnInput(t) == []
  {
  }
}
