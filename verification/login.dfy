/** The login screen's credential check and form state. The source resolves
    a submission after a one-second timer; here it resolves at once. */
module Login {
  import opened Wrappers
  import opened Text
  import opened Types

  /** What `onLogin` receives: a display name and a role. */
  datatype User = User(name: string, role: Role)

  /** The one failure the check reports; it does not say which field was wrong. */
  datatype LoginError = InvalidCredentials

  const InvalidCredentialsMessage: string :=
    "Invalid credentials. Try admin/admin, safety/safety, or analyst/analyst."

  /** A row of the fixed credential table. */
  datatype Account = Account(login: string, password: string, user: User)

  /** The three accounts the check accepts, in the order it tries them. */
  const Accounts: seq<Account> := [
    Account("admin", "admin", User("System Admin", Admin)),
    Account("safety", "safety", User("Alex Morgan", SafetyEngineer)),
    Account("analyst", "analyst", User("Sarah Chen", DataAnalyst))
  ]

  /** The three rows: each login is its own password, lowercase and
      without spaces, and the rows name three different roles. */
  lemma AccountsTable()
    ensures |Accounts| == 3
    ensures forall i :: 0 <= i < |Accounts| ==>
      && Accounts[i].login == Accounts[i].password
      && NoUpperAscii(Accounts[i].login)
      && ' ' !in Accounts[i].login
    ensures forall i, j :: 0 <= i < j < |Accounts| ==>
      Accounts[i].login != Accounts[j].login && Accounts[i].user.role != Accounts[j].user.role
  {
  }

  /** A row accepts a pair when the lowercased username equals its login
      and the password equals its password exactly. */
  predicate Accepts(a: Account, username: string, password: string)
  {
    ToLower(username) == a.login && password == a.password
  }

  /** The credential branch of the submit handler: lowercase the username,
      then try the three pairs in turn. */
  function Authenticate(username: string, password: string): (r: Result<User, LoginError>)
    ensures r.Success? <==> exists i :: 0 <= i < |Accounts| && Accepts(Accounts[i], username, password)
    ensures forall i :: 0 <= i < |Accounts| && Accepts(Accounts[i], username, password) ==>
      r == Success(Accounts[i].user)
    ensures r.Failure? ==> r.error == InvalidCredentials
  {
    var lowerUser := ToLower(username);
    if lowerUser == "admin" && password == "admin" then
      assert Accepts(Accounts[0], username, password);
      Success(User("System Admin", Admin))
    else if lowerUser == "safety" && password == "safety" then
      assert Accepts(Accounts[1], username, password);
      Success(User("Alex Morgan", SafetyEngineer))
    else if lowerUser == "analyst" && password == "analyst" then
      assert Accepts(Accounts[2], username, password);
      Success(User("Sarah Chen", DataAnalyst))
    else
      Failure(InvalidCredentials)
  }

  /** The three documented pairs and what they resolve to. */
  lemma KnownAccounts()
    ensures Authenticate("admin", "admin") == Success(User("System Admin", Admin))
    ensures Authenticate("safety", "safety") == Success(User("Alex Morgan", SafetyEngineer))
    ensures Authenticate("analyst", "analyst") == Success(User("Sarah Chen", DataAnalyst))
  {
  }

  /** Only the username is lowercased: replacing it by its lowercase form
      never changes the outcome. */
  lemma UsernameCaseInsensitive(username: string, password: string)
    ensures Authenticate(username, password) == Authenticate(ToLower(username), password)
  {
    ToLowerIdempotent(username);
  }

  /** A successful password is one of the three lowercase passwords, and
      it equals the lowercased username. */
  lemma PasswordMatchedExactly(username: string, password: string)
    requires Authenticate(username, password).Success?
    ensures password == ToLower(username)
    ensures password in {"admin", "safety", "analyst"}
  {
  }

  /** `Admin`/`admin` signs in as the administrator, `admin`/`Admin` does not. */
  lemma CaseExamples()
    ensures Authenticate("Admin", "admin") == Success(User("System Admin", Admin))
    ensures Authenticate("ADMIN", "admin").Success?
    ensures Authenticate("admin", "Admin").Failure?
  {
    CapitalisedAdmin();
    UpperCaseAdmin();
  }

  lemma CapitalisedAdmin() ensures Authenticate("Admin", "admin") == Success(User("System Admin", Admin)) {}

  lemma UpperCaseAdmin() ensures Authenticate("ADMIN", "admin").Success? {}

  /** Login and password must come from the same row. */
  lemma MixedPairsFail(i: nat, j: nat)
    requires i < |Accounts| && j < |Accounts| && i != j
    ensures Authenticate(Accounts[i].login, Accounts[j].password).Failure?
  {
  }

  /** Nothing is trimmed: a username or password holding a space never
      matches, since lowercasing keeps the space and no row has one. */
  lemma SpacesNeverMatch(username: string, password: string)
    requires ' ' in username || ' ' in password
    ensures Authenticate(username, password).Failure?
  {
    ToLowerKeepsSpaces(username);
  }

  lemma PaddedUsernameFails()
    ensures Authenticate(" admin", "admin").Failure?
  {
    SpacesNeverMatch(" admin", "admin");
  }

  /** The login form's own state. */
  datatype Form = Form(error: string, loading: bool)

  /** The form as first shown: no error, not loading. */
  const FreshForm: Form := Form("", false)

  /** What a submission leaves behind: the form, and the user handed to
      `onLogin` if it was called. */
  datatype Submission = Submission(form: Form, signedIn: Option<User>)

  /** Lines 21-22: clear the previous error and show the spinner. */
  function BeginSubmit(f: Form): (g: Form)
    ensures g.error == "" && g.loading
  {
    Form("", true)
  }

  /** Lines 25-35, run when the timer fires: either call `onLogin` once
      (the form stays loading until the screen is replaced), or show the
      fixed message and stop loading. */
  function ResolveSubmit(f: Form, username: string, password: string): (s: Submission)
    ensures s.signedIn == Authenticate(username, password).ToOption()
    ensures s.signedIn.Some? ==> s.form == f
    ensures s.signedIn.None? ==> s.form == Form(InvalidCredentialsMessage, false)
  {
    match Authenticate(username, password)
    case Success(user) => Submission(f, Some(user))
    case Failure(_) => Submission(Form(InvalidCredentialsMessage, false), None)
  }

  /** A press of the submit button. The browser refuses to submit while a
      `required` field is empty or while the button is disabled by
      `loading`; otherwise the handler runs. */
  function Submit(f: Form, username: string, password: string): (s: Submission)
    ensures username == "" || password == "" || f.loading ==> s == Submission(f, None)
    ensures username != "" && password != "" && !f.loading ==>
      && s.signedIn == Authenticate(username, password).ToOption()
      && (s.signedIn.Some? ==> s.form == Form("", true))
      && (s.signedIn.None? ==> s.form == Form(InvalidCredentialsMessage, false))
  {
    if username == "" || password == "" || f.loading then Submission(f, None)
    else ResolveSubmit(BeginSubmit(f), username, password)
  }

  /** A submission yields exactly one outcome: a signed-in user with no
      error shown, or the error message with no user. */
  lemma SubmitHasOneOutcome(f: Form, username: string, password: string)
    requires username != "" && password != "" && !f.loading
    ensures var s := Submit(f, username, password);
      (s.signedIn.Some? && s.form.error == "") || (s.signedIn.None? && s.form.error == InvalidCredentialsMessage)
  {
  }
}
