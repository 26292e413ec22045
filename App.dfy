/** The application shell: the demo sign-in, the registration form and its
    validation, the route guard on the access token, and signing out.  The
    simulated delays, toasts and page redirects are not modelled; the clock
    gives today's date as a parameter. */
module App {
  import opened Text
  import opened Ledger
  import Constants

  // ---------------------------------------------------------------------------
  // Sign-in

  const DemoUsername: string := "demo"
  const DemoPassword: string := "demo123"
  const DemoToken: string := "demo_token"
  const NewUserToken: string := "new_user_token"

  /** The record stored for the demo user (no phone and no accounts). */
  function DemoUser(): User {
    User(DemoUsername, "demo@ai-bank.com", None, "2024-01-01", None)
  }

  datatype LoginOutcome = LoginBlank | LoginSuccess | LoginIncorrect

  /** `PrivateRoute`: the protected pages render exactly when a non-empty
      access token is stored. */
  predicate PrivateRoute(storage: BrowserStorage)
    reads storage
  {
    storage.HasToken()
  }

  /** A username or password that trims to nothing is refused before any
      comparison; only the demo pair, compared untrimmed, signs in. */
  method HandleLogin(storage: BrowserStorage, username: string, password: string)
    returns (outcome: LoginOutcome)
    modifies storage
    ensures outcome == LoginBlank <==> JsTrim(username) == [] || JsTrim(password) == []
    ensures outcome == LoginSuccess <==>
              JsTrim(username) != [] && JsTrim(password) != []
              && username == DemoUsername && password == DemoPassword
    ensures outcome == LoginSuccess ==>
              && storage.accessToken == Some(DemoToken) && storage.user == Some(DemoUser())
              && PrivateRoute(storage)
    ensures outcome != LoginSuccess ==>
              storage.accessToken == old(storage.accessToken) && storage.user == old(storage.user)
    ensures storage.transactions == old(storage.transactions)
  {
    if JsTrim(username) == [] || JsTrim(password) == [] {
      return LoginBlank;
    }
    if username == DemoUsername && password == DemoPassword {
      storage.SetAccessToken(DemoToken);
      storage.SetUser(DemoUser());
      outcome := LoginSuccess;
    } else {
      outcome := LoginIncorrect;
    }
  }

  /** Signing out removes the token and the user record, which closes the
      protected pages. */
  method HandleLogout(storage: BrowserStorage)
    modifies storage
    ensures storage.accessToken == None && storage.user == None
    ensures storage.transactions == old(storage.transactions)
    ensures !PrivateRoute(storage)
  {
    storage.RemoveAccessToken();
    storage.RemoveUser();
  }

  // ---------------------------------------------------------------------------
  // Registration

  datatype RegisterForm = RegisterForm(
    username: string, email: string, password: string, confirmPassword: string,
    phone: string, agreeTerms: bool)

  const EmptyRegisterForm: RegisterForm := RegisterForm("", "", "", "", "", false)

  datatype RegisterField = Username | Email | Password | ConfirmPassword | Phone | AgreeTerms

  const UsernameBlank: string := "username can not be blank"
  const UsernameShort: string := "at least 3 characters"
  const EmailBlank: string := "email can not be blank"
  const EmailFormat: string := "email has wrong format"
  const PasswordBlank: string := "password can not be blank"
  const PasswordShort: string := "at least 6 characters"
  const PasswordsDiffer: string := "passwords are inconsistent"
  const TermsRequired: string := "please accept service terms"

  function FieldKey(f: RegisterField): string {
    match f
    case Username => "username"
    case Email => "email"
    case Password => "password"
    case ConfirmPassword => "confirmPassword"
    case Phone => "phone"
    case AgreeTerms => "agreeTerms"
  }

  predicate NotSpace(c: char) {
    !JsSpace(c)
  }

  /** A non-empty run of non-space characters ends just before index `k`. */
  predicate RunEndsAt(s: string, k: int) {
    exists i :: 0 <= i < k <= |s| && AllSatisfy(s[i..k], NotSpace)
  }

  /** A non-empty run of non-space characters starts at index `k`. */
  predicate RunStartsAt(s: string, k: int) {
    exists e :: 0 <= k < e <= |s| && AllSatisfy(s[k..e], NotSpace)
  }

  /** A match of the unanchored `\S+@\S+\.\S+` somewhere in `s`: a run of
      non-space characters ending just before an '@', a non-empty non-space
      run up to a '.', and a non-space run after it. */
  predicate RegisterEmailMatch(s: string) {
    exists a, b :: 0 < a && a + 1 < b && b + 1 < |s| && s[a] == '@' && s[b] == '.'
                   && RunEndsAt(s, a) && AllSatisfy(s[a + 1..b], NotSpace) && RunStartsAt(s, b + 1)
  }

  /** Every address `validateEmail` accepts passes the registration check. */
  lemma ValidEmailPassesRegistration(s: string)
    requires Constants.ValidateEmail(s)
    ensures RegisterEmailMatch(s)
  {
    Constants.EmailPatternFromShape(s);
    var a, b := Constants.EmailParts(s);
    var pre, mid, post := s[..a], s[a + 1..b], s[b + 1..];
    NoSpaceOrAtIsNoSpace(pre);
    NoSpaceOrAtIsNoSpace(mid);
    NoSpaceOrAtIsNoSpace(post);
    assert s[0..a] == pre && s[b + 1..|s|] == post;
    assert RunEndsAt(s, a) by {
      assert 0 <= 0 < a <= |s| && AllSatisfy(s[0..a], NotSpace);
    }
    assert RunStartsAt(s, b + 1) by {
      assert 0 <= b + 1 < |s| <= |s| && AllSatisfy(s[b + 1..|s|], NotSpace);
    }
  }

  lemma NoSpaceOrAtIsNoSpace(t: string)
    requires AllSatisfy(t, Constants.NotSpaceOrAt)
    ensures AllSatisfy(t, NotSpace)
  {
    forall k | 0 <= k < |t| ensures NotSpace(t[k]) {
      assert Constants.NotSpaceOrAt(t[k]);
    }
  }

  /** The registration check is looser than `validateEmail`: it only needs
      such a run somewhere, so an address with a leading space passes it. */
  lemma RegistrationAcceptsSpaces()
    ensures RegisterEmailMatch(" a@b.c") && !Constants.ValidateEmail(" a@b.c")
  {
    var s := " a@b.c";
    assert s[2] == '@' && s[4] == '.';
    assert AllSatisfy(s[1..2], NotSpace) && AllSatisfy(s[3..4], NotSpace) && AllSatisfy(s[5..6], NotSpace);
    assert RunEndsAt(s, 2) && RunStartsAt(s, 5);
    assert !Constants.NotSpace(s[0]);
  }

  /** A form the validation lets through. */
  predicate RegisterValid(form: RegisterForm) {
    && JsTrim(form.username) != [] && |form.username| >= 3
    && JsTrim(form.email) != [] && RegisterEmailMatch(form.email)
    && |form.password| >= 6 && form.password == form.confirmPassword
    && form.agreeTerms
  }

  /** The message a field's check produces, if it fails. */
  function UsernameError(username: string): (r: Option<string>)
    ensures r.Some? <==> JsTrim(username) == [] || |username| < 3
    ensures r.Some? ==> r.value == if JsTrim(username) == [] then UsernameBlank else UsernameShort
  {
    if JsTrim(username) == [] then Some(UsernameBlank)
    else if |username| < 3 then Some(UsernameShort)
    else None
  }

  function EmailError(email: string): (r: Option<string>)
    ensures r.Some? <==> JsTrim(email) == [] || !RegisterEmailMatch(email)
    ensures r.Some? ==> r.value == if JsTrim(email) == [] then EmailBlank else EmailFormat
  {
    if JsTrim(email) == [] then Some(EmailBlank)
    else if !RegisterEmailMatch(email) then Some(EmailFormat)
    else None
  }

  /** Only the empty password is blank: a password of spaces is merely short
      or accepted by length. */
  function PasswordError(password: string): (r: Option<string>)
    ensures r.Some? <==> |password| < 6
    ensures r.Some? ==> r.value == if password == "" then PasswordBlank else PasswordShort
  {
    if password == "" then Some(PasswordBlank)
    else if |password| < 6 then Some(PasswordShort)
    else None
  }

  function ConfirmError(form: RegisterForm): (r: Option<string>)
    ensures r.Some? <==> form.password != form.confirmPassword
    ensures r.Some? ==> r.value == PasswordsDiffer
  {
    if form.password != form.confirmPassword then Some(PasswordsDiffer) else None
  }

  function TermsError(form: RegisterForm): (r: Option<string>)
    ensures r.Some? <==> !form.agreeTerms
    ensures r.Some? ==> r.value == TermsRequired
  {
    if !form.agreeTerms then Some(TermsRequired) else None
  }

  /** The check of one field. */
  function FieldError(form: RegisterForm, f: RegisterField): Option<string> {
    match f
    case Username => UsernameError(form.username)
    case Email => EmailError(form.email)
    case Password => PasswordError(form.password)
    case ConfirmPassword => ConfirmError(form)
    case Phone => None
    case AgreeTerms => TermsError(form)
  }

  /** A form passes validation exactly when no field's check fails. */
  lemma RegisterValidNoErrors(form: RegisterForm)
    ensures RegisterValid(form) <==> forall f :: FieldError(form, f).None?
  {
    if !RegisterValid(form) {
      assert exists f :: FieldError(form, f).Some? by {
        if UsernameError(form.username).Some? {
          assert FieldError(form, Username).Some?;
        } else if EmailError(form.email).Some? {
          assert FieldError(form, Email).Some?;
        } else if PasswordError(form.password).Some? {
          assert FieldError(form, Password).Some?;
        } else if ConfirmError(form).Some? {
          assert FieldError(form, ConfirmPassword).Some?;
        } else {
          assert FieldError(form, AgreeTerms).Some?;
        }
      }
    }
  }

  const CheckedFields: set<RegisterField> := {Username, Email, Password, ConfirmPassword, AgreeTerms}

  /** `validateForm`: the error map of the registration form, holding the
      message of exactly the fields whose check fails, keyed by the field
      (whose input name is `FieldKey`); it is empty exactly for a valid
      form. */
  function ValidateRegisterForm(form: RegisterForm): (errors: map<RegisterField, string>)
    ensures forall f :: f in errors <==> FieldError(form, f).Some?
    ensures forall f :: f in errors ==> errors[f] == FieldError(form, f).value
    ensures errors == map[] <==> RegisterValid(form)
  {
    RegisterValidNoErrors(form);
    var errors := map f | f in CheckedFields && FieldError(form, f).Some? :: FieldError(form, f).value;
    assert forall f :: FieldError(form, f).Some? ==> f in CheckedFields;
    assert errors == map[] ==> forall f :: FieldError(form, f).None? by {
      if errors == map[] {
        forall f ensures FieldError(form, f).None? {
          assert f !in errors;
        }
      }
    }
    errors
  }

  /** The user record created on registration: the form's name, e-mail and
      phone, joined today, with a checking account of 1000 USD and a savings
      account of 5000 USD. */
  function NewUser(form: RegisterForm, today: string): (r: User)
    ensures r.username == form.username && r.email == form.email && r.phone == Some(form.phone)
    ensures r.joinDate == today
    ensures r.accounts == Some([Account("checking", 1000.0, "USD"), Account("savings", 5000.0, "USD")])
  {
    User(form.username, form.email, Some(form.phone), today,
         Some([Account("checking", 1000.0, "USD"), Account("savings", 5000.0, "USD")]))
  }

  /** The registration page: the form and the error entries on display. */
  class RegisterPage {
    var form: RegisterForm
    var errors: map<RegisterField, string>
    const storage: BrowserStorage

    constructor (storage: BrowserStorage)
      ensures this.storage == storage && form == EmptyRegisterForm && errors == map[]
    {
      this.storage := storage;
      form := EmptyRegisterForm;
      errors := map[];
    }

    /** Sets a text field (or the tick box, through `checked`); an error
        standing against that field is cleared. */
    method HandleChange(f: RegisterField, value: string, checked: bool)
      modifies this
      ensures f == Username ==> form == old(form).(username := value)
      ensures f == Email ==> form == old(form).(email := value)
      ensures f == Password ==> form == old(form).(password := value)
      ensures f == ConfirmPassword ==> form == old(form).(confirmPassword := value)
      ensures f == Phone ==> form == old(form).(phone := value)
      ensures f == AgreeTerms ==> form == old(form).(agreeTerms := checked)
      ensures f in old(errors) && old(errors)[f] != "" ==> errors == old(errors)[f := ""]
      ensures !(f in old(errors) && old(errors)[f] != "") ==> errors == old(errors)
    {
      match f {
        case Username => form := form.(username := value);
        case Email => form := form.(email := value);
        case Password => form := form.(password := value);
        case ConfirmPassword => form := form.(confirmPassword := value);
        case Phone => form := form.(phone := value);
        case AgreeTerms => form := form.(agreeTerms := checked);
      }
      if f in errors && errors[f] != "" {
        errors := errors[f := ""];
      }
    }

    /** Validates; a valid form stores the new user's token and record, which
        opens the protected pages.  An invalid one shows its errors and
        stores nothing. */
    method HandleSubmit(today: string) returns (registered: bool)
      modifies this, storage
      ensures form == old(form)
      ensures registered <==> RegisterValid(form)
      ensures !registered ==> errors == ValidateRegisterForm(old(form)) && errors != map[]
      ensures registered ==> errors == old(errors)
      ensures !registered ==> storage.accessToken == old(storage.accessToken)
                              && storage.user == old(storage.user)
      ensures registered ==> && storage.accessToken == Some(NewUserToken)
                             && storage.user == Some(NewUser(form, today))
                             && PrivateRoute(storage)
      ensures storage.transactions == old(storage.transactions)
    {
      var found := ValidateRegisterForm(form);
      if found != map[] {
        errors := found;
        return false;
      }
      storage.SetAccessToken(NewUserToken);
      storage.SetUser(NewUser(form, today));
      registered := true;
    }
  }
}
