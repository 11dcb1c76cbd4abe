/** The sign-in / registration page (src/pages/Auth.tsx): the two form
    schemas, and the submit handlers that call the session. Email syntax
    is the form library's own check and is passed in as `isEmail`. */
module AuthPage {
  import opened Wrappers
  import opened Types
  import opened AuthSession

  datatype Tab = LoginTab | RegisterTab

  datatype LoginForm = LoginForm(email: string, password: string)

  datatype RegisterForm = RegisterForm(
    fullName: string,
    email: string,
    password: string,
    confirmPassword: string,
    businessName: string,
    address: string,
    city: string,
    postcode: string,
    phone: string)

  /** The form fields a validation message can be attached to. */
  datatype Field =
    | FullNameField | EmailField | PasswordField | ConfirmPasswordField | BusinessNameField
    | AddressField | CityField | PostcodeField | PhoneField

  /** One validation message, attached to the field named by `path`. */
  datatype Issue = Issue(path: Field, message: string)

  const EMAIL_MESSAGE: string := "Please enter a valid email address"
  const PASSWORD_MESSAGE: string := "Password must be at least 6 characters"
  const MISMATCH_MESSAGE: string := "Passwords don't match"

  /** A `min(n)` rule on one field: no issue when the value is long enough. */
  function MinLength(path: Field, value: string, n: nat, message: string): (r: seq<Issue>)
    ensures r == [] <==> |value| >= n
    ensures r != [] ==> r == [Issue(path, message)]
  {
    if |value| < n then [Issue(path, message)] else []
  }

  function EmailRule(path: Field, value: string, isEmail: string -> bool): (r: seq<Issue>)
    ensures r == [] <==> isEmail(value)
    ensures r != [] ==> r == [Issue(path, EMAIL_MESSAGE)]
  {
    if isEmail(value) then [] else [Issue(path, EMAIL_MESSAGE)]
  }

  /** The login schema's issues, in field order. */
  function LoginIssues(form: LoginForm, isEmail: string -> bool): (r: seq<Issue>)
    ensures r == [] <==> isEmail(form.email) && |form.password| >= 6
    ensures Issue(EmailField, EMAIL_MESSAGE) in r <==> !isEmail(form.email)
    ensures Issue(PasswordField, PASSWORD_MESSAGE) in r <==> |form.password| < 6
    ensures |r| <= 2
  {
    EmailRule(EmailField, form.email, isEmail) + MinLength(PasswordField, form.password, 6, PASSWORD_MESSAGE)
  }

  /** The registration schema's rules on the person and the password. */
  function PersonIssues(form: RegisterForm, isEmail: string -> bool): (r: seq<Issue>)
    ensures Issue(FullNameField, "Full name is required") in r <==> |form.fullName| < 2
    ensures Issue(EmailField, EMAIL_MESSAGE) in r <==> !isEmail(form.email)
    ensures Issue(PasswordField, PASSWORD_MESSAGE) in r <==> |form.password| < 6
    ensures forall x :: x in r ==> x.path in {FullNameField, EmailField, PasswordField}
    ensures |r| <= 3
  {
    MinLength(FullNameField, form.fullName, 2, "Full name is required")
    + EmailRule(EmailField, form.email, isEmail)
    + MinLength(PasswordField, form.password, 6, PASSWORD_MESSAGE)
  }

  /** The registration schema's rules on the business and its contact details. */
  function BusinessIssues(form: RegisterForm): (r: seq<Issue>)
    ensures Issue(BusinessNameField, "Business name is required") in r <==> |form.businessName| < 2
    ensures Issue(AddressField, "Address is required") in r <==> |form.address| < 5
    ensures Issue(CityField, "City is required") in r <==> |form.city| < 2
    ensures Issue(PostcodeField, "Postcode is required") in r <==> |form.postcode| < 2
    ensures Issue(PhoneField, "Phone number is required") in r <==> |form.phone| < 5
    ensures forall x :: x in r ==> x.path in {BusinessNameField, AddressField, CityField, PostcodeField, PhoneField}
    ensures |r| <= 5
  {
    MinLength(BusinessNameField, form.businessName, 2, "Business name is required")
    + MinLength(AddressField, form.address, 5, "Address is required")
    + MinLength(CityField, form.city, 2, "City is required")
    + MinLength(PostcodeField, form.postcode, 2, "Postcode is required")
    + MinLength(PhoneField, form.phone, 5, "Phone number is required")
  }

  /** The message each registration rule reports on its field. */
  function FieldMessage(f: Field): string {
    match f
    case FullNameField => "Full name is required"
    case EmailField => EMAIL_MESSAGE
    case PasswordField => PASSWORD_MESSAGE
    case ConfirmPasswordField => MISMATCH_MESSAGE
    case BusinessNameField => "Business name is required"
    case AddressField => "Address is required"
    case CityField => "City is required"
    case PostcodeField => "Postcode is required"
    case PhoneField => "Phone number is required"
  }

  /** The `refine` on the registration schema: the two passwords agree. */
  function MismatchRule(form: RegisterForm): (r: seq<Issue>)
    ensures r == [] <==> form.password == form.confirmPassword
    ensures r != [] ==> r == [Issue(ConfirmPasswordField, MISMATCH_MESSAGE)]
  {
    if form.password == form.confirmPassword then [] else [Issue(ConfirmPasswordField, MISMATCH_MESSAGE)]
  }

  /** The whole registration schema: the field rules, then the refinement
      that the two passwords agree, reported on `confirmPassword`. The
      refinement runs even when a field rule failed, since a too-short
      string does not abort the object parse. */
  function RegisterIssues(form: RegisterForm, isEmail: string -> bool): (r: seq<Issue>)
    ensures Issue(ConfirmPasswordField, MISMATCH_MESSAGE) in r <==> form.password != form.confirmPassword
    ensures Issue(FullNameField, "Full name is required") in r <==> |form.fullName| < 2
    ensures Issue(EmailField, EMAIL_MESSAGE) in r <==> !isEmail(form.email)
    ensures Issue(PasswordField, PASSWORD_MESSAGE) in r <==> |form.password| < 6
    ensures Issue(BusinessNameField, "Business name is required") in r <==> |form.businessName| < 2
    ensures Issue(AddressField, "Address is required") in r <==> |form.address| < 5
    ensures Issue(CityField, "City is required") in r <==> |form.city| < 2
    ensures Issue(PostcodeField, "Postcode is required") in r <==> |form.postcode| < 2
    ensures Issue(PhoneField, "Phone number is required") in r <==> |form.phone| < 5
    ensures |r| <= 9
  {
    PersonIssues(form, isEmail) + BusinessIssues(form) + MismatchRule(form)
  }

  /** No issue other than the rules' own is ever reported: each issue
      carries the message of the rule on its field. */
  lemma RegisterIssuesLabelled(form: RegisterForm, isEmail: string -> bool)
    ensures forall x :: x in RegisterIssues(form, isEmail) ==> x.message == FieldMessage(x.path)
  {
    var n := MinLength(FullNameField, form.fullName, 2, "Full name is required");
    var e := EmailRule(EmailField, form.email, isEmail);
    var pw := MinLength(PasswordField, form.password, 6, PASSWORD_MESSAGE);
    var b := MinLength(BusinessNameField, form.businessName, 2, "Business name is required");
    var a := MinLength(AddressField, form.address, 5, "Address is required");
    var c := MinLength(CityField, form.city, 2, "City is required");
    var pc := MinLength(PostcodeField, form.postcode, 2, "Postcode is required");
    var ph := MinLength(PhoneField, form.phone, 5, "Phone number is required");
    var m := MismatchRule(form);
    assert RegisterIssues(form, isEmail) == n + e + pw + (b + a + c + pc + ph) + m;
    forall x | x in RegisterIssues(form, isEmail) ensures x.message == FieldMessage(x.path) {
      assert x in n || x in e || x in pw || x in b || x in a || x in c || x in pc || x in ph || x in m;
    }
  }

  /** Every registration rule at once, written independently of the issue list. */
  predicate RegisterAcceptable(form: RegisterForm, isEmail: string -> bool) {
    |form.fullName| >= 2 && isEmail(form.email) && |form.password| >= 6 &&
    form.confirmPassword == form.password && |form.businessName| >= 2 &&
    |form.address| >= 5 && |form.city| >= 2 && |form.postcode| >= 2 && |form.phone| >= 5
  }

  /** The form passes exactly when every rule holds. */
  lemma {:induction false} RegisterIssuesEmptyIff(form: RegisterForm, isEmail: string -> bool)
    ensures RegisterIssues(form, isEmail) == [] <==> RegisterAcceptable(form, isEmail)
  {
    var r := RegisterIssues(form, isEmail);
    if !RegisterAcceptable(form, isEmail) {
      if form.password != form.confirmPassword {
        assert Issue(ConfirmPasswordField, MISMATCH_MESSAGE) in r;
      } else if |form.fullName| < 2 {
        assert Issue(FullNameField, "Full name is required") in r;
      } else if !isEmail(form.email) {
        assert Issue(EmailField, EMAIL_MESSAGE) in r;
      } else if |form.password| < 6 {
        assert Issue(PasswordField, PASSWORD_MESSAGE) in r;
      } else if |form.businessName| < 2 {
        assert Issue(BusinessNameField, "Business name is required") in r;
      } else if |form.address| < 5 {
        assert Issue(AddressField, "Address is required") in r;
      } else if |form.city| < 2 {
        assert Issue(CityField, "City is required") in r;
      } else if |form.postcode| < 2 {
        assert Issue(PostcodeField, "Postcode is required") in r;
      } else {
        assert Issue(PhoneField, "Phone number is required") in r;
      }
    }
  }

  /** `const { confirmPassword, ...userData } = data`: the account fields
      of the form, handed to `register` with the password beside them. */
  function ToUserData(form: RegisterForm): UserData {
    UserData(Some(form.email), Some(form.fullName), Some(form.businessName), Some(form.address),
             Some(form.city), Some(form.postcode), Some(form.phone))
  }

  /** A registration that goes through creates a pending account carrying
      the form's fields, and the confirmation field has no say in it. */
  lemma RegisteredAccountCarriesForm(accounts: seq<User>, form: RegisterForm, confirm: string, id: string, now: int)
    ensures RegisterDecision(accounts, ToUserData(form), id, now) ==
            RegisterDecision(accounts, ToUserData(form.(confirmPassword := confirm)), id, now)
    ensures var d := RegisterDecision(accounts, ToUserData(form), id, now);
            d.Success? ==>
              d.value.email == form.email && d.value.fullName == form.fullName &&
              d.value.businessName == form.businessName && d.value.address == form.address &&
              d.value.city == form.city && d.value.postcode == form.postcode &&
              d.value.phone == form.phone && d.value.id == id && !d.value.isApproved &&
              d.value.subscriptionStatus == Pending
  {
  }

  class AuthScreen {
    var activeTab: Tab
    var isSubmitting: bool
    /** The route the page last navigated to, if any. */
    var navigatedTo: Option<string>

    constructor ()
      ensures activeTab == LoginTab && !isSubmitting && navigatedTo == None
    {
      activeTab := LoginTab;
      isSubmitting := false;
      navigatedTo := None;
    }

    /** The tab strip's `onValueChange`. */
    method SelectTab(tab: Tab)
      modifies this`activeTab
      ensures activeTab == tab
    {
      activeTab := tab;
    }

    /** `loginForm.handleSubmit(onLoginSubmit)`: an invalid form reports its
        issues and calls nothing; a valid one signs in and goes to the
        dashboard only when the session accepted the email. */
    method SubmitLogin(session: Session, form: LoginForm, isEmail: string -> bool)
      returns (issues: seq<Issue>, outcome: Option<Outcome<AuthError>>)
      modifies this`isSubmitting, this`navigatedTo, session`user, session`storage, session`isLoading
      ensures issues == LoginIssues(form, isEmail)
      ensures issues != [] ==>
                outcome == None && navigatedTo == old(navigatedTo) && isSubmitting == old(isSubmitting) &&
                session.user == old(session.user) && session.storage == old(session.storage) &&
                session.isLoading == old(session.isLoading)
      ensures issues == [] ==>
                outcome.Some? && !isSubmitting && !session.isLoading &&
                session.user == (if LoginDecision(session.accounts, form.email).Success?
                                 then Some(LoginDecision(session.accounts, form.email).value)
                                 else old(session.user)) &&
                session.storage == (if LoginDecision(session.accounts, form.email).Success?
                                    then Holds(LoginDecision(session.accounts, form.email).value)
                                    else old(session.storage)) &&
                (outcome.value == Pass <==> LoginDecision(session.accounts, form.email).Success?) &&
                (outcome.value == Pass ==> navigatedTo == Some("/dashboard") && session.user.Some? &&
                                           session.user.value.email == form.email) &&
                (outcome.value != Pass ==> navigatedTo == old(navigatedTo) && session.user == old(session.user))
      ensures activeTab == old(activeTab)
    {
      issues := LoginIssues(form, isEmail);
      outcome := None;
      if issues != [] {
        return;
      }
      isSubmitting := true;
      var r := session.Login(form.email, form.password);
      outcome := Some(r);
      if r == Pass {
        navigatedTo := Some("/dashboard");
      }
      isSubmitting := false;
    }

    /** `registerForm.handleSubmit(onRegisterSubmit)`: a valid form is
        registered without its confirmation field; success switches to the
        sign-in tab, a refusal leaves the tab alone. The signed-in user and
        the stored slot are not touched. */
    method SubmitRegister(session: Session, form: RegisterForm, isEmail: string -> bool, freshId: string, now: int)
      returns (issues: seq<Issue>, result: Option<Result<User, AuthError>>)
      modifies this`isSubmitting, this`activeTab, session`isLoading
      ensures issues == RegisterIssues(form, isEmail)
      ensures issues != [] ==> result == None && activeTab == old(activeTab)
      ensures issues == [] ==>
                result == Some(RegisterDecision(session.accounts, ToUserData(form), freshId, now)) &&
                (result.value.Success? ==> activeTab == LoginTab) &&
                (result.value.Failure? ==> activeTab == old(activeTab))
      ensures session.user == old(session.user) && session.storage == old(session.storage)
      ensures issues != [] ==> isSubmitting == old(isSubmitting) && session.isLoading == old(session.isLoading)
      ensures issues == [] ==> !isSubmitting && !session.isLoading
      ensures navigatedTo == old(navigatedTo)
    {
      issues := RegisterIssues(form, isEmail);
      result := None;
      if issues != [] {
        return;
      }
      isSubmitting := true;
      var r := session.Register(ToUserData(form), form.password, freshId, now);
      result := Some(r);
      if r.Success? {
        activeTab := LoginTab;
      }
      isSubmitting := false;
    }
  }
}
