/** The sign-in form: an empty-field guard, a loading flag held while the
    login call is outstanding, notification and navigation on the outcome,
    and the show-password toggle. The login call itself is awaited, so a
    submission is two steps: `Submit` up to the await and `Settle` when the
    call resolves or throws. */
module Login {
  import opened Shared
  import opened Text
  import AuthContext
  import Session

  const MissingCredentials: Effect :=
    Toast("Missing credentials", "Please enter both email and password.", true)
  const Welcome: Effect :=
    Toast("Welcome back!", "You've successfully signed in to LegalVision.", false)
  const SignInFailed: Effect :=
    Toast("Sign in failed", "An error occurred. Please try again.", true)
  const ToDashboard: Effect := NavigateTo("/dashboard")

  /** How the awaited login call ends. */
  datatype Outcome = Resolved(success: bool) | Threw

  datatype Form = Form(
    email: string,
    password: string,
    showPassword: bool,
    isLoading: bool,
    effects: seq<Effect>)

  const InitialForm: Form := Form("", "", false, false, [])

  /** handleSubmit up to the await. Only emptiness is checked. */
  function Submit(f: Form): Form
  {
    if f.email == "" || f.password == "" then f.(effects := f.effects + [MissingCredentials])
    else f.(isLoading := true)
  }

  /** Whether Submit went on to call login. */
  predicate CallsLogin(f: Form)
  {
    f.email != "" && f.password != ""
  }

  /** handleSubmit after the await, including the finally block. */
  function Settle(f: Form, o: Outcome): Form
  {
    var effects :=
      match o
      case Resolved(true) => f.effects + [Welcome, ToDashboard]
      case Resolved(false) => f.effects
      case Threw => f.effects + [SignInFailed];
    f.(isLoading := false, effects := effects)
  }

  /** The input type of the password field. */
  function PasswordFieldType(showPassword: bool): string
  {
    if showPassword then "text" else "password"
  }

  // ---------------------------------------------------------------------------
  // Properties
  // ---------------------------------------------------------------------------

  /** An empty email or password stops the submission: login is not called,
      a destructive "Missing credentials" notification is issued and the
      loading flag is untouched. Otherwise loading starts and nothing is
      issued yet. */
  lemma SubmitGuard(f: Form)
    ensures !CallsLogin(f) <==> Submit(f).effects == f.effects + [MissingCredentials]
    ensures !CallsLogin(f) ==> Submit(f).isLoading == f.isLoading && MissingCredentials.destructive
    ensures CallsLogin(f) ==> Submit(f).isLoading && Submit(f).effects == f.effects
    ensures Submit(f).email == f.email && Submit(f).password == f.password
  {
    if CallsLogin(f) {
      assert |Submit(f).effects| == |f.effects|;
    }
  }

  /** Whitespace is not emptiness: credentials made only of white space
      reach login just as any other non-empty ones do. */
  lemma WhitespacePasses(f: Form)
    requires f.email != "" && AllSpace(f.email)
    requires f.password != "" && AllSpace(f.password)
    ensures CallsLogin(f) && Submit(f).isLoading && Submit(f).effects == f.effects
    ensures Trim(f.email) == "" && Trim(f.password) == ""
  {
    TrimEmptyIffAllSpace(f.email);
    TrimEmptyIffAllSpace(f.password);
  }

  /** However the call ends, loading is over afterwards; navigation to the
      dashboard and the welcome notification happen exactly when it resolved
      true, and the failure notification exactly when it threw. */
  lemma SettleOutcomes(f: Form, o: Outcome)
    ensures !Settle(f, o).isLoading
    ensures var added := Settle(f, o).effects[|f.effects|..];
      Settle(f, o).effects == f.effects + added
      && (ToDashboard in added <==> o == Resolved(true))
      && (Welcome in added <==> o == Resolved(true))
      && (SignInFailed in added <==> o == Threw)
      && (o == Resolved(false) ==> added == [])
  {
    var t := Settle(f, o);
    assert t.effects[..|f.effects|] == f.effects;
  }

  /** The eye button flips the field between text and password; twice
      restores it. */
  lemma PasswordToggle(show: bool)
    ensures PasswordFieldType(!show) != PasswordFieldType(show)
    ensures PasswordFieldType(show) == "text" <==> show
    ensures PasswordFieldType(!(!show)) == PasswordFieldType(show)
  {
  }

  // ---------------------------------------------------------------------------
  // The page
  // ---------------------------------------------------------------------------

  class LoginPage {
    var email: string
    var password: string
    var showPassword: bool
    var isLoading: bool
    var effects: seq<Effect>

    function State(): Form
      reads this
    {
      Form(email, password, showPassword, isLoading, effects)
    }

    constructor()
      ensures State() == InitialForm
    {
      email, password, showPassword, isLoading, effects := "", "", false, false, [];
    }

    method SetEmail(value: string)
      modifies this
      ensures State() == old(State()).(email := value)
    {
      email := value;
    }

    method SetPassword(value: string)
      modifies this
      ensures State() == old(State()).(password := value)
    {
      password := value;
    }

    method TogglePassword()
      modifies this
      ensures State() == old(State()).(showPassword := !old(showPassword))
    {
      showPassword := !showPassword;
    }

    /** The submit button is disabled while loading. */
    method HandleSubmit() returns (callsLogin: bool)
      requires !isLoading
      modifies this
      ensures callsLogin == CallsLogin(old(State()))
      ensures State() == Submit(old(State()))
    {
      callsLogin := email != "" && password != "";
      if !callsLogin {
        effects := effects + [MissingCredentials];
        return;
      }
      isLoading := true;
    }

    /** The awaited login call has ended. */
    method HandleOutcome(o: Outcome)
      requires isLoading
      modifies this
      ensures State() == Settle(old(State()), o)
    {
      match o {
        case Resolved(success) =>
          if success {
            effects := effects + [Welcome, ToDashboard];
          }
        case Threw =>
          effects := effects + [SignInFailed];
      }
      isLoading := false;
    }

    /** A whole submission against the session store: with both fields
        filled the user is signed in, the page navigates to the dashboard
        after the welcome notification, and loading is over. */
    method SignIn(auth: AuthContext.AuthProvider, now: string)
      requires !isLoading
      modifies this, auth, auth.storage
      ensures !isLoading
      ensures email == old(email) && password == old(password) && showPassword == old(showPassword)
      ensures auth.isLoading == old(auth.isLoading)
      ensures CallsLogin(old(State())) ==>
        effects == old(effects) + [Welcome, ToDashboard]
        && auth.user == Some(AuthContext.LoginRecord(old(email), now))
        && auth.storage.items ==
             old(auth.storage.items)[AuthContext.SessionKey := Session.Encode(AuthContext.LoginRecord(old(email), now))]
      ensures !CallsLogin(old(State())) ==>
        effects == old(effects) + [MissingCredentials]
        && auth.user == old(auth.user) && auth.storage.items == old(auth.storage.items)
    {
      var calls := HandleSubmit();
      if calls {
        var ok := auth.Login(email, password, now);
        HandleOutcome(Resolved(ok));
      }
    }
  }
}
