/**
 * The sign-in and onboarding card: two tabs, a two-step onboarding flow,
 * the per-step required-field check, and what a submit does.
 *
 * A field is missing when it is absent or empty (both are falsy). An error
 * cleared by editing its field is stored as null, which shows nothing; the
 * model drops the entry instead.
 */
module Authentication {
  type Fields = map<string, string>

  datatype Tab = Login | Onboard

  /** `formData[field]`, with an absent field read as empty. */
  function Get(form: Fields, field: string): string {
    if field in form then form[field] else ""
  }

  /** The fields the current tab and step require. */
  function Required(tab: Tab, step: nat): (r: set<string>)
    ensures tab == Login ==> r == {"email", "password"}
    ensures tab == Onboard && step == 1 ==> r == {"name", "username", "email", "password"}
    ensures tab == Onboard && step == 2 ==> r == {"tenantName", "companyName"}
  {
    match tab
    case Login => {"email", "password"}
    case Onboard =>
      if step == 1 then {"name", "username", "email", "password"}
      else if step == 2 then {"tenantName", "companyName"}
      else {}
  }

  /** The message shown when a required field is missing. */
  function Message(field: string): string {
    match field
    case "email" => "Email is required"
    case "password" => "Password is required"
    case "name" => "Name is required"
    case "username" => "Username is required"
    case "tenantName" => "Tenant name is required"
    case "companyName" => "Company name is required"
    case _ => ""
  }

  /** The error map `validateStep` builds: one entry per required field that is missing. */
  function StepErrors(tab: Tab, step: nat, form: Fields): (errors: map<string, string>)
    ensures forall field :: field in errors <==> field in Required(tab, step) && Get(form, field) == ""
    ensures forall field :: field in errors ==> errors[field] == Message(field)
  {
    map field | field in Required(tab, step) && Get(form, field) == "" :: Message(field)
  }

  /** The step passes exactly when every required field is filled in. */
  lemma StepPassesIffFilled(tab: Tab, step: nat, form: Fields)
    ensures StepErrors(tab, step, form) == map[] <==> forall field :: field in Required(tab, step) ==> Get(form, field) != ""
  {
    var e := StepErrors(tab, step, form);
    if forall field :: field in Required(tab, step) ==> Get(form, field) != "" {
      assert e.Keys == {};
    } else {
      var field :| field in Required(tab, step) && Get(form, field) == "";
      assert field in e;
    }
  }

  /** The initial form: six empty fields. */
  function EmptyForm(): (form: Fields)
    ensures form.Keys == {"email", "password", "name", "username", "tenantName", "companyName"}
    ensures forall field :: field in form ==> form[field] == ""
  {
    map["email" := "", "password" := "", "name" := "", "username" := "", "tenantName" := "", "companyName" := ""]
  }

  /** The card's state, and the login requests it has dispatched. */
  class Onboarding {
    var activeTab: Tab
    var step: nat
    var formData: Fields
    var errors: map<string, string>
    var isLoading: bool
    var navigatedToDashboard: bool
    var requests: seq<Fields>

    /** Only steps 1 and 2 exist. */
    ghost predicate Valid()
      reads this
    {
      1 <= step <= 2
    }

    constructor ()
      ensures Valid()
      ensures activeTab == Login && step == 1 && formData == EmptyForm() && errors == map[]
      ensures !isLoading && !navigatedToDashboard && requests == []
    {
      activeTab := Login;
      step := 1;
      formData := EmptyForm();
      errors := map[];
      isLoading := false;
      navigatedToDashboard := false;
      requests := [];
    }

    /** `handleInputChange`: sets one field and clears that field's error only. */
    method HandleInputChange(field: string, value: string)
      modifies this`formData, this`errors
      ensures formData == old(formData)[field := value]
      ensures errors == old(errors) - {field}
      ensures forall f :: f != field && f in old(errors) ==> f in errors && errors[f] == old(errors)[f]
    {
      formData := formData[field := value];
      if field in errors {
        errors := errors - {field};
      }
    }

    /** `validateStep`: records the step's errors and says whether there are none. */
    method ValidateStep() returns (ok: bool)
      modifies this`errors
      ensures errors == StepErrors(activeTab, step, formData)
      ensures ok <==> errors == map[]
    {
      errors := StepErrors(activeTab, step, formData);
      ok := |errors| == 0;
    }

    /**
     * `handleSubmit`. A step with missing fields stops there. Onboarding
     * step 1 moves to step 2 without a request. Otherwise the form is sent
     * as a login request; `success` is the answer's `success` flag, and only
     * a successful answer stops the loading state and opens the dashboard.
     */
    method HandleSubmit(success: bool)
      modifies this
      ensures old(Valid()) ==> Valid()
      ensures activeTab == old(activeTab) && formData == old(formData)
      ensures errors == StepErrors(old(activeTab), old(step), old(formData))
      ensures errors != map[] ==>
        step == old(step) && requests == old(requests) &&
        isLoading == old(isLoading) && navigatedToDashboard == old(navigatedToDashboard)
      ensures errors == map[] && old(activeTab) == Onboard && old(step) == 1 ==>
        step == 2 && requests == old(requests) &&
        isLoading == old(isLoading) && navigatedToDashboard == old(navigatedToDashboard)
      ensures errors == map[] && !(old(activeTab) == Onboard && old(step) == 1) ==>
        step == old(step) && requests == old(requests) + [old(formData)] &&
        isLoading == !success && navigatedToDashboard == (old(navigatedToDashboard) || success)
    {
      var ok := ValidateStep();
      if !ok {
        return;
      }
      if activeTab == Onboard && step == 1 {
        step := 2;
        return;
      }
      isLoading := true;
      requests := requests + [formData];
      if success {
        isLoading := false;
        navigatedToDashboard := true;
      }
    }

    /** Both submit buttons carry `disabled={isLoading}`. */
    predicate SubmitEnabled()
      reads this
    {
      !isLoading
    }

    /**
     * As written, a refused login leaves the loading state on, and neither
     * a tab switch nor Back clears it: both submit buttons stay disabled.
     */
    method FailedLoginLocksOut(tab: Tab)
      modifies this
      requires StepErrors(activeTab, step, formData) == map[] && !(activeTab == Onboard && step == 1)
      ensures requests == old(requests) + [old(formData)]
      ensures !SubmitEnabled() && navigatedToDashboard == old(navigatedToDashboard)
      ensures activeTab == tab && step == 1
    {
      HandleSubmit(false);
      SwitchTab(tab);
      Back();
    }

    /**
     * `handleSubmit` with the loading state cleared once the login settles,
     * whatever its answer, so a refused login can be retried.
     */
    method HandleSubmitSettled(success: bool)
      modifies this
      ensures old(Valid()) ==> Valid()
      ensures activeTab == old(activeTab) && formData == old(formData)
      ensures errors == StepErrors(old(activeTab), old(step), old(formData))
      ensures errors != map[] ==>
        step == old(step) && requests == old(requests) &&
        isLoading == old(isLoading) && navigatedToDashboard == old(navigatedToDashboard)
      ensures errors == map[] && old(activeTab) == Onboard && old(step) == 1 ==>
        step == 2 && requests == old(requests) &&
        isLoading == old(isLoading) && navigatedToDashboard == old(navigatedToDashboard)
      ensures errors == map[] && !(old(activeTab) == Onboard && old(step) == 1) ==>
        step == old(step) && requests == old(requests) + [old(formData)] &&
        SubmitEnabled() && navigatedToDashboard == (old(navigatedToDashboard) || success)
    {
      var ok := ValidateStep();
      if !ok {
        return;
      }
      if activeTab == Onboard && step == 1 {
        step := 2;
        return;
      }
      isLoading := true;
      requests := requests + [formData];
      isLoading := false;
      if success {
        navigatedToDashboard := true;
      }
    }

    /** A tab button: that tab, step 1, no errors. */
    method SwitchTab(tab: Tab)
      modifies this`activeTab, this`step, this`errors
      ensures Valid()
      ensures activeTab == tab && step == 1 && errors == map[]
    {
      activeTab := tab;
      step := 1;
      errors := map[];
    }

    /** The Back button of onboarding step 2. */
    method Back()
      modifies this`step
      ensures Valid() && step == 1
    {
      step := 1;
    }
  }

  /** Onboarding asks for six fields over its two steps, and a login needs only two of them. */
  lemma OnboardingCoversLogin(form: Fields)
    requires StepErrors(Onboard, 1, form) == map[]
    ensures StepErrors(Login, 1, form) == map[]
  {
    StepPassesIffFilled(Onboard, 1, form);
    StepPassesIffFilled(Login, 1, form);
  }
}
