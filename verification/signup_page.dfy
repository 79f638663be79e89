/** The sign-up page: its form state, field edits, the ordered form checks and
    the submit gate in front of the sign-up service. */
module SignupPage {
  import opened Common
  import opened Records
  import opened Text
  import AuthService

  datatype Form = Form(email: string, password: string, displayName: string, confirmPassword: string)

  /** The four named inputs of the form. */
  datatype Field = Email | Password | DisplayName | ConfirmPassword

  /** The form, the error banner (empty when hidden) and the busy flag. */
  datatype Page = Page(form: Form, error: string, loading: bool)

  /** The page as first rendered: empty fields, no banner, not busy. */
  function InitialPage(): (p: Page)
    ensures p.error == "" && !p.loading
    ensures ValidateForm(p.form) == Some(RequiredText)
  {
    Page(Form("", "", "", ""), "", false)
  }

  function Get(f: Form, field: Field): string {
    match field
    case Email => f.email
    case Password => f.password
    case DisplayName => f.displayName
    case ConfirmPassword => f.confirmPassword
  }

  /** `handleInputChange`: sets the named field and hides any error. */
  function HandleInputChange(p: Page, field: Field, value: string): (r: Page)
    ensures Get(r.form, field) == value
    ensures forall other: Field | other != field :: Get(r.form, other) == Get(p.form, other)
    ensures r.error == "" && r.loading == p.loading
  {
    var f := p.form;
    var f' := match field
      case Email => f.(email := value)
      case Password => f.(password := value)
      case DisplayName => f.(displayName := value)
      case ConfirmPassword => f.(confirmPassword := value);
    p.(form := f', error := "")
  }

  const RequiredText: string := "Email and password are required"
  const MismatchText: string := "Passwords do not match"
  const TooShortText: string := "Password must be at least 6 characters long"

  /** `validateForm`: the first failed check's message, or `None` when the
      form may be submitted. */
  function ValidateForm(f: Form): (r: Option<string>)
    ensures r == None <==>
      f.email != "" && f.password != "" && f.password == f.confirmPassword && Utf16Length(f.password) >= 6
    ensures f.email == "" || f.password == "" ==> r == Some(RequiredText)
    ensures f.email != "" && f.password != "" && f.password != f.confirmPassword ==> r == Some(MismatchText)
    ensures r == Some(TooShortText) <==>
      f.email != "" && f.password != "" && f.password == f.confirmPassword && Utf16Length(f.password) < 6
  {
    if f.email == "" || f.password == "" then Some(RequiredText)
    else if f.password != f.confirmPassword then Some(MismatchText)
    else if Utf16Length(f.password) < 6 then Some(TooShortText)
    else None
  }

  /** The checks look at neither the display name nor the email's format:
      only at whether the email is empty. */
  lemma ValidateFormIgnoresNameAndEmailFormat(f: Form, name: string, email: string)
    requires (email == "") == (f.email == "")
    ensures ValidateForm(f.(displayName := name, email := email)) == ValidateForm(f)
  {
  }

  /** A short password that does not match its confirmation is reported as a
      mismatch: the mismatch check comes first. */
  lemma MismatchReportedBeforeLength(f: Form)
    requires f.email != "" && f.password != "" && f.password != f.confirmPassword
    requires Utf16Length(f.password) < 6
    ensures ValidateForm(f) == Some(MismatchText)
  {
  }

  /** What a submit did: the page afterwards, the sign-up run if the service
      was called, and whether the page navigated to the dashboard. */
  datatype Submission = Submission(page: Page, signup: Option<AuthService.Outcome>, navigated: bool)

  /** `handleSignup`. A failed check only shows its message. Otherwise the
      service is called with the form's fields (the backend's answers are
      parameters); success navigates, failure shows the service's message,
      and `loading` ends false. */
  function HandleSignup(
    p: Page, create: Result<User, AuthService.Thrown>,
    nameUpdate: Option<AuthService.Thrown>, docWrite: Option<AuthService.Thrown>): (r: Submission)
    ensures ValidateForm(p.form).Some? ==>
      r == Submission(p.(error := ValidateForm(p.form).value), None, false)
    ensures ValidateForm(p.form) == None ==>
      && r.signup == Some(AuthService.Signup(
           p.form.email, p.form.password, p.form.displayName, create, nameUpdate, docWrite))
      && !r.page.loading
      && r.page.form == p.form
      && (r.navigated <==> r.signup.value.result.AuthOk?)
      && (r.navigated ==> r.page.error == "")
      && (!r.navigated ==> r.page.error == r.signup.value.result.error)
  {
    match ValidateForm(p.form)
    case Some(msg) => Submission(p.(error := msg), None, false)
    case None =>
      var busy := p.(loading := true, error := "");
      var out := AuthService.Signup(p.form.email, p.form.password, p.form.displayName, create, nameUpdate, docWrite);
      match out.result
      case AuthOk(_) => Submission(busy.(loading := false), Some(out), true)
      case AuthErr(e) => Submission(busy.(error := e, loading := false), Some(out), false)
  }

  /** A form that passes the page's checks also passes the service's password
      rule: the service either reaches the backend or refuses the email's
      format. */
  lemma SubmittedPasswordPassesServiceRule(p: Page, create: Result<User, AuthService.Thrown>,
    nameUpdate: Option<AuthService.Thrown>, docWrite: Option<AuthService.Thrown>)
    requires ValidateForm(p.form) == None
    ensures AuthService.ValidatePassword(p.form.password)
    ensures var out := HandleSignup(p, create, nameUpdate, docWrite).signup.value;
      out.calls != [] || out == AuthService.Outcome(AuthService.AuthErr(AuthService.InvalidEmailText), [])
  {
    var f := p.form;
    assert AuthService.ValidatePassword(f.password);
    var out := AuthService.Signup(f.email, f.password, f.displayName, create, nameUpdate, docWrite);
    assert AuthService.ValidateEmail(f.email) ==> out.calls != [];
  }
}
