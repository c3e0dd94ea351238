/** The sign-in / sign-up screen (components/AuthScreen.tsx): credential check against
    the roster, donor registration, and the quick demo log-in by role. The lookups and
    the new record are functions; the screen's own state (mode, loading flag, error
    text, form fields) is the class `AuthForm`, whose handlers return the callbacks
    they invoke, in order. */
module AuthScreen {
  import opened Types
  import opened Text
  import opened Seqs

  /** The demo password: the default of the form, the password of a registration left
      blank, and a master key accepted for every account. */
  const MasterPassword: string := "1234"

  /** The registration / log-in form. */
  datatype Form = Form(name: string, email: string, password: string, bloodType: string, location: string)

  /** The form as first shown and as reset when the mode is toggled. */
  const InitialForm: Form := Form("", "", MasterPassword, "", "")

  /** The `name` attribute of the input that changed. */
  datatype Field = NameField | EmailField | PasswordField | BloodTypeField | LocationField

  datatype AuthError = AccountNotFound | IncorrectPassword | EmailAlreadyRegistered | NoAccountForRole(role: UserRole)

  /** The `onLogin` and `onRegister` props, as calls the screen makes. */
  datatype Callback = OnLogin(user: User) | OnRegister(newUser: User)

  /** The role as the source spells it. */
  function RoleName(role: UserRole): string {
    match role
    case Donor => "DONOR"
    case Admin => "ADMIN"
    case Hospital => "HOSPITAL"
  }

  /** The text the screen shows for each error: never empty, so an error is always
      visible, and the missing-role message starts "No ". */
  function Message(e: AuthError): (m: string)
    ensures m != ""
    ensures e.NoAccountForRole? ==> IsPrefix("No ", m)
  {
    match e
    case AccountNotFound => "Account not found. Please create an account first."
    case IncorrectPassword => "Incorrect password. The default is 1234."
    case EmailAlreadyRegistered => "This email is already registered. Please sign in."
    case NoAccountForRole(role) => "No " + Lower(RoleName(role)) + " account found."
  }

  /** The missing-role message names the role in lower case: "No donor account found.",
      "No admin account found.", "No hospital account found.". */
  lemma LowerRoleName(role: UserRole)
    ensures Lower(RoleName(role)) == match role
      case Donor => "donor"
      case Admin => "admin"
      case Hospital => "hospital"
  {
    var n := RoleName(role);
    var l := Lower(n);
    forall i | 0 <= i < |n| ensures l[i] == (n[i] as int + 32) as char {
      assert IsUpper(n[i]);
    }
  }

  /** The e-mail as typed, lowercased then trimmed. */
  function NormalizeEmail(s: string): string {
    Trim(Lower(s))
  }

  /** The password as typed, trimmed. */
  function NormalizePassword(s: string): string {
    Trim(s)
  }

  /** A stored account matches a normalised e-mail when its e-mail, lowercased, equals it. */
  predicate EmailMatches(u: User, email: string) {
    Lower(u.email) == email
  }

  /** `users.some(u => u.email.toLowerCase() === email)`. */
  predicate EmailTaken(users: seq<User>, email: string) {
    exists i :: 0 <= i < |users| && EmailMatches(users[i], email)
  }

  /** `users.find(u => u.email.toLowerCase() === email)`, as the index of the first match. */
  function FindByEmail(users: seq<User>, email: string): (r: Option<nat>)
    ensures r.Some? <==> EmailTaken(users, email)
    ensures r.Some? ==> r.value < |users| && EmailMatches(users[r.value], email)
    ensures r.Some? ==> forall j :: 0 <= j < r.value ==> !EmailMatches(users[j], email)
  {
    FindFirst((u: User) => EmailMatches(u, email), users)
  }

  /** The stored password, or the master password, unlocks an account. */
  predicate PasswordAccepted(u: User, password: string) {
    u.password == Some(password) || password == MasterPassword
  }

  /** The log-in branch of the form: find the first account with the normalised e-mail,
      then accept its own password or the master password. */
  function Login(users: seq<User>, email: string, password: string): (r: Result<User, AuthError>)
    ensures r == Err(AccountNotFound) <==> !EmailTaken(users, NormalizeEmail(email))
    ensures r.Err? ==> r.error == AccountNotFound || r.error == IncorrectPassword
    ensures r.Ok? ==> r.value in users && EmailMatches(r.value, NormalizeEmail(email))
    ensures r.Ok? ==> PasswordAccepted(r.value, NormalizePassword(password))
  {
    match FindByEmail(users, NormalizeEmail(email))
    case None => Err(AccountNotFound)
    case Some(i) =>
      if PasswordAccepted(users[i], NormalizePassword(password)) then Ok(users[i])
      else Err(IncorrectPassword)
  }

  /** Log-in decides on the first account in roster order whose e-mail matches: it
      succeeds with exactly that account iff the password is accepted for it. */
  lemma LoginUsesFirstMatch(users: seq<User>, email: string, password: string, i: nat)
    requires i < |users| && EmailMatches(users[i], NormalizeEmail(email))
    requires forall j :: 0 <= j < i ==> !EmailMatches(users[j], NormalizeEmail(email))
    ensures Login(users, email, password).Ok? <==> PasswordAccepted(users[i], NormalizePassword(password))
    ensures Login(users, email, password).Ok? ==> Login(users, email, password).value == users[i]
    ensures Login(users, email, password).Err? ==> Login(users, email, password).error == IncorrectPassword
  {
    assert EmailTaken(users, NormalizeEmail(email));
  }

  /** The master password opens every account that can be found: a password that trims
      to "1234" logs in whatever the stored password is. */
  lemma MasterPasswordUnlocksEveryAccount(users: seq<User>, email: string, password: string)
    requires EmailTaken(users, NormalizeEmail(email))
    requires NormalizePassword(password) == MasterPassword
    ensures Login(users, email, password).Ok?
  {
  }

  /** The donor record a registration creates: role DONOR, zeroed counters,
      "Never" donated, active. */
  predicate IsFreshDonor(u: User) {
    u.role == Donor && u.totalDonations == 0 && u.livesSaved == 0
    && u.lastDonationDate == "Never" && u.status == Active
  }

  /** The record built from the form: the normalised e-mail, the trimmed name, the
      chosen blood type or "Unknown", the trimmed location or "Unknown", the trimmed
      password or "1234" when it is blank. */
  function NewDonor(form: Form, id: string): (u: User)
    ensures IsFreshDonor(u) && u.id == id
    ensures u.email == NormalizeEmail(form.email) && u.name == Trim(form.name)
    ensures u.password.Some? && u.password.value != ""
    ensures u.bloodType != "" && (form.bloodType != "" ==> u.bloodType == form.bloodType)
    ensures u.location.Some? && u.location.value != ""
    ensures !IsBlank(form.location) ==> u.location == Some(Trim(form.location))
    ensures !IsBlank(form.password) ==> u.password == Some(NormalizePassword(form.password))
    ensures form.bloodType == "" ==> u.bloodType == "Unknown"
    ensures IsBlank(form.location) ==> u.location == Some("Unknown")
    ensures IsBlank(form.password) ==> u.password == Some(MasterPassword)
  {
    var pass := NormalizePassword(form.password);
    var location := Trim(form.location);
    User(
      id := id,
      name := Trim(form.name),
      email := NormalizeEmail(form.email),
      password := Some(if pass == "" then MasterPassword else pass),
      bloodType := if form.bloodType == "" then "Unknown" else form.bloodType,
      role := Donor,
      totalDonations := 0,
      livesSaved := 0,
      lastDonationDate := "Never",
      location := Some(if location == "" then "Unknown" else location),
      status := Active)
  }

  /** The registration branch of the form: refuse an e-mail that is already on the
      roster (case-insensitively), otherwise build the new donor. */
  function Register(users: seq<User>, form: Form, id: string): (r: Result<User, AuthError>)
    ensures r.Err? <==> EmailTaken(users, NormalizeEmail(form.email))
    ensures r.Err? ==> r.error == EmailAlreadyRegistered
    ensures r.Ok? ==> r.value == NewDonor(form, id)
  {
    if EmailTaken(users, NormalizeEmail(form.email)) then Err(EmailAlreadyRegistered)
    else Ok(NewDonor(form, id))
  }

  /** A newly stored e-mail matches the normalised form of every variant of itself. */
  lemma NewEmailMatches(form: Form, id: string, email: string)
    requires NormalizeEmail(email) == NormalizeEmail(form.email)
    ensures EmailMatches(NewDonor(form, id), NormalizeEmail(email))
  {
    LowerOfTrimmedLower(form.email);
  }

  /** Register, then log in: once the new account is appended, logging in with any
      case or whitespace variant of its e-mail and the same non-blank password returns
      exactly the new account. */
  lemma RegisterThenLogin(users: seq<User>, form: Form, id: string, email: string)
    requires Register(users, form, id).Ok?
    requires NormalizeEmail(email) == NormalizeEmail(form.email)
    requires !IsBlank(form.password)
    ensures Login(users + [Register(users, form, id).value], email, form.password)
      == Ok(Register(users, form, id).value)
  {
    var u := Register(users, form, id).value;
    var roster := users + [u];
    NewEmailMatches(form, id, email);
    forall j | 0 <= j < |users| ensures !EmailMatches(roster[j], NormalizeEmail(email)) {
      assert roster[j] == users[j];
    }
    LoginUsesFirstMatch(roster, email, form.password, |users|);
  }

  /** A registration whose password was blank stores "1234": the same blank password
      is then refused, and "1234" is accepted. */
  lemma RegisterBlankPassword(users: seq<User>, form: Form, id: string)
    requires Register(users, form, id).Ok?
    requires IsBlank(form.password)
    ensures Register(users, form, id).value.password == Some(MasterPassword)
    ensures Login(users + [Register(users, form, id).value], form.email, form.password) == Err(IncorrectPassword)
    ensures Login(users + [Register(users, form, id).value], form.email, MasterPassword) == Ok(Register(users, form, id).value)
  {
    var u := Register(users, form, id).value;
    var roster := users + [u];
    NewEmailMatches(form, id, form.email);
    forall j | 0 <= j < |users| ensures !EmailMatches(roster[j], NormalizeEmail(form.email)) {
      assert roster[j] == users[j];
    }
    assert u.password == Some(MasterPassword);
    LoginUsesFirstMatch(roster, form.email, form.password, |users|);
    assert NormalizePassword(MasterPassword) == MasterPassword by {
      assert LeadingSpaces(MasterPassword) == 0;
      assert TrailingStart(MasterPassword) == 4;
    }
    LoginUsesFirstMatch(roster, form.email, MasterPassword, |users|);
  }

  /** Once registered, the same e-mail in any case or spacing cannot be registered again. */
  lemma RegisterTwiceFails(users: seq<User>, form: Form, id: string, again: Form, id2: string)
    requires Register(users, form, id).Ok?
    requires NormalizeEmail(again.email) == NormalizeEmail(form.email)
    ensures Register(users + [Register(users, form, id).value], again, id2) == Err(EmailAlreadyRegistered)
  {
    var roster := users + [Register(users, form, id).value];
    NewEmailMatches(form, id, again.email);
    assert EmailMatches(roster[|users|], NormalizeEmail(again.email));
  }

  /** `users.find(u => u.role === role)`: the demo log-in account. */
  function DemoLogin(users: seq<User>, role: UserRole): (r: Result<User, AuthError>)
    ensures r.Ok? <==> exists i :: 0 <= i < |users| && users[i].role == role
    ensures r.Err? ==> r.error == NoAccountForRole(role)
    ensures r.Ok? ==> r.value.role == role
    ensures r.Ok? ==> (exists i :: 0 <= i < |users| && users[i] == r.value
                         && forall j :: 0 <= j < i ==> users[j].role != role)
  {
    match FindFirst((u: User) => u.role == role, users)
    case None => Err(NoAccountForRole(role))
    case Some(i) => Ok(users[i])
  }

  /** The submit handler's decision: log-in in log-in mode, registration otherwise. */
  function Submit(isLogin: bool, users: seq<User>, form: Form, id: string): (r: Result<User, AuthError>)
    ensures r.Ok? && isLogin ==> r.value in users
    ensures r.Ok? && !isLogin ==> IsFreshDonor(r.value) && !EmailTaken(users, r.value.email)
    ensures r.Err? ==> !r.error.NoAccountForRole? && (r.error == EmailAlreadyRegistered <==> !isLogin)
  {
    if isLogin then Login(users, form.email, form.password) else Register(users, form, id)
  }

  /** The screen's state. */
  class AuthForm {
    var isLogin: bool
    var isLoading: bool
    var error: string
    var form: Form

    constructor ()
      ensures isLogin && !isLoading && error == "" && form == InitialForm
    {
      isLogin := true;
      isLoading := false;
      error := "";
      form := InitialForm;
    }

    /** `handleChange`: store the input's new value and clear the error. */
    method HandleChange(field: Field, value: string)
      modifies this
      ensures error == "" && isLogin == old(isLogin) && isLoading == old(isLoading)
      ensures form == match field
        case NameField => old(form).(name := value)
        case EmailField => old(form).(email := value)
        case PasswordField => old(form).(password := value)
        case BloodTypeField => old(form).(bloodType := value)
        case LocationField => old(form).(location := value)
    {
      form := match field
        case NameField => form.(name := value)
        case EmailField => form.(email := value)
        case PasswordField => form.(password := value)
        case BloodTypeField => form.(bloodType := value)
        case LocationField => form.(location := value);
      error := "";
    }

    /** The link under the form: switch mode, reset every field, clear the error. */
    method ToggleMode()
      modifies this
      ensures isLogin == !old(isLogin) && form == InitialForm && error == ""
      ensures isLoading == old(isLoading)
    {
      isLogin := !isLogin;
      form := InitialForm;
      error := "";
    }

    /** "Back to Login" in registration mode: log-in mode, error cleared, fields kept. */
    method BackToLogin()
      modifies this
      ensures isLogin && error == "" && form == old(form) && isLoading == old(isLoading)
    {
      isLogin := true;
      error := "";
    }

    /** `handleDemoLogin`: log in as the first account with the role (the 600 ms pause
        is one step), or show the missing-role error. */
    method HandleDemoLogin(users: seq<User>, role: UserRole) returns (calls: seq<Callback>)
      modifies this
      ensures isLogin == old(isLogin) && form == old(form)
      ensures DemoLogin(users, role).Ok? ==>
        calls == [OnLogin(DemoLogin(users, role).value)] && !isLoading && error == old(error)
      ensures DemoLogin(users, role).Err? ==>
        calls == [] && error == Message(NoAccountForRole(role)) && isLoading == old(isLoading)
    {
      match DemoLogin(users, role)
      case Ok(u) =>
        isLoading := true;
        isLoading := false;
        calls := [OnLogin(u)];
      case Err(e) =>
        error := Message(e);
        calls := [];
    }

    /** `handleSubmit`: set loading and clear the error, wait (one step), then log in
        or register. A successful log-in calls `onLogin`; a successful registration
        calls `onRegister` and then `onLogin` with the same record; in both the screen
        stays loading until it is replaced. A failure calls nothing, shows its message
        and stops loading. `freshId` stands for `Date.now().toString()`. */
    method HandleSubmit(users: seq<User>, freshId: string) returns (calls: seq<Callback>)
      modifies this
      ensures isLogin == old(isLogin) && form == old(form)
      ensures |calls| <= 2
      ensures Submit(isLogin, users, form, freshId).Ok? ==>
        var u := Submit(isLogin, users, form, freshId).value;
        calls == (if isLogin then [OnLogin(u)] else [OnRegister(u), OnLogin(u)])
        && isLoading && error == ""
      ensures Submit(isLogin, users, form, freshId).Err? ==>
        calls == [] && !isLoading && error == Message(Submit(isLogin, users, form, freshId).error)
    {
      isLoading := true;
      error := "";
      if isLogin {
        match Login(users, form.email, form.password)
        case Err(e) =>
          error := Message(e);
          isLoading := false;
          calls := [];
        case Ok(u) =>
          calls := [OnLogin(u)];
      } else {
        match Register(users, form, freshId)
        case Err(e) =>
          error := Message(e);
          isLoading := false;
          calls := [];
        case Ok(u) =>
          calls := [OnRegister(u), OnLogin(u)];
      }
    }
  }
}
