/** The sign-in and sign-up forms: their submit handlers around the
    session's `login` and `register`, the password-length check and the
    navigation that follows success. */
module AuthPages {
  import opened Common
  import opened Auth

  const MinPasswordLength: nat := 6
  const ShortPasswordMessage: string := "Password must be at least 6 characters long."
  const RegisterFallback: string := "Registration failed. Please try again."
  const LoginFallback: string := "Login failed. Please check your credentials."

  /** The form state both pages keep. */
  datatype FormState = FormState(email: string, password: string, error: string, loading: bool)

  /** The registration outcome: the call made (None when the password check
      stops it), the route navigated to, and the final error. */
  datatype RegisterOutcome = RegisterOutcome(registerCall: Option<(string, string)>, navigatedTo: Option<string>, error: string)

  /** `RegisterPage.handleSubmit` after its awaits settle, from the form's
      email and password and the settlement of `register`. */
  function RegisterSubmit(email: string, password: string, settled: Completion): (r: RegisterOutcome)
    ensures |password| < MinPasswordLength <==> r.registerCall.None?
    ensures r.registerCall.Some? ==> r.registerCall.value == (email, password)
    ensures r.navigatedTo.Some? <==> r.registerCall.Some? && settled.Fulfilled?
    ensures r.navigatedTo.Some? ==> r.navigatedTo.value == "/login" && r.error == ""
    ensures r.registerCall.Some? && settled.Thrown? ==> r.error == ErrorText(settled.error, RegisterFallback)
    ensures r.registerCall.None? ==> r.error == ShortPasswordMessage
  {
    if |password| < MinPasswordLength then RegisterOutcome(None, None, ShortPasswordMessage)
    else match settled
      case Fulfilled => RegisterOutcome(Some((email, password)), Some("/login"), "")
      case Thrown(e) => RegisterOutcome(Some((email, password)), None, ErrorText(e, RegisterFallback))
  }

  class RegisterPage {
    const auth: AuthProvider
    var email: string
    var password: string
    var error: string
    var loading: bool

    function State(): FormState
      reads this
    {
      FormState(email, password, error, loading)
    }

    constructor (auth: AuthProvider)
      ensures this.auth == auth && State() == FormState("", "", "", false)
    {
      this.auth := auth;
      email, password, error, loading := "", "", "", false;
    }

    /** `handleSubmit`; `response` is how the registration request settles.
        `atAwait` is the state rendered while `register` is pending. */
    method HandleSubmit(response: Outcome<()>)
      returns (registerCall: Option<(string, string)>, navigatedTo: Option<string>, ghost atAwait: Option<FormState>)
      modifies this
      ensures email == old(email) && password == old(password) && !loading
      ensures RegisterOutcome(registerCall, navigatedTo, error) == RegisterSubmit(email, password, RegisterStep(response))
      ensures registerCall.Some? <==> atAwait.Some?
      ensures atAwait.Some? ==> atAwait.value == FormState(email, password, "", true)
    {
      error := "";
      loading := true;
      if |password| < MinPasswordLength {
        error := ShortPasswordMessage;
        loading := false;
        return None, None, None;
      }
      registerCall := Some((email, password));
      atAwait := Some(State());
      var settled := auth.Register(email, password, response);
      match settled {
        case Fulfilled =>
          navigatedTo := Some("/login");
        case Thrown(e) =>
          navigatedTo := None;
          error := ErrorText(e, RegisterFallback);
      }
      loading := false;
    }
  }

  /** The sign-in outcome: the route navigated to and the final error. */
  datatype LoginOutcome = LoginOutcome(navigatedTo: Option<string>, error: string)

  /** `LoginPage.handleSubmit` after `login` settles. */
  function LoginSubmit(settled: Completion): (r: LoginOutcome)
    ensures r.navigatedTo.Some? <==> settled.Fulfilled?
    ensures r.navigatedTo.Some? ==> r.navigatedTo.value == "/dashboard" && r.error == ""
    ensures settled.Thrown? ==> r.error == ErrorText(settled.error, LoginFallback) && r.error != ""
  {
    match settled
    case Fulfilled => LoginOutcome(Some("/dashboard"), "")
    case Thrown(e) => LoginOutcome(None, ErrorText(e, LoginFallback))
  }

  /** A token that does not decode fails the sign-in with the fixed fallback
      message (the decode error has no server detail), yet the token stays stored. */
  lemma UndecodableTokenShowsFallback(s: Session, token: string, decode: Decoder)
    requires decode(token).None?
    ensures var r := LoginStep(s, Resolved(token), decode);
      LoginSubmit(r.1) == LoginOutcome(None, LoginFallback) && StoredToken(r.0.items) == Some(token)
  {
  }

  class LoginPage {
    const auth: AuthProvider
    var email: string
    var password: string
    var error: string
    var loading: bool

    function State(): FormState
      reads this
    {
      FormState(email, password, error, loading)
    }

    constructor (auth: AuthProvider)
      ensures this.auth == auth && State() == FormState("", "", "", false)
    {
      this.auth := auth;
      email, password, error, loading := "", "", "", false;
    }

    /** `handleSubmit`: `login(email, password)` then navigation; `response`
        is how the token request settles, `decode` is `jwt_decode`. */
    method HandleSubmit(response: Outcome<string>, decode: Decoder)
      returns (navigatedTo: Option<string>, ghost atAwait: FormState)
      modifies this, auth, auth.storage
      ensures email == old(email) && password == old(password) && !loading
      ensures atAwait == FormState(email, password, "", true)
      ensures var step := LoginStep(old(auth.State()), response, decode);
        && auth.State() == step.0
        && LoginOutcome(navigatedTo, error) == LoginSubmit(step.1)
    {
      error := "";
      loading := true;
      atAwait := State();
      var settled := auth.Login(email, password, response, decode);
      match settled {
        case Fulfilled =>
          navigatedTo := Some("/dashboard");
        case Thrown(e) =>
          navigatedTo := None;
          error := ErrorText(e, LoginFallback);
      }
      loading := false;
    }
  }
}
