/** The login and registration form (app/Login.tsx). */
module LoginPage {
  import opened Wrappers
  import opened JsString
  import opened Domain
  import opened AuthContext

  const NAME_REQUIRED: string := "Please enter your name"

  const FALLBACK_ERROR: string := "Something went wrong"

  /** `email.trim().toLowerCase()`: the trimmed input lower-cased character
      by character; so no surrounding white space, no upper-case ASCII letter,
      and empty exactly when the input is blank. */
  function NormalizeEmail(email: string): (r: string)
    ensures Trimmed(r) && |r| <= |email|
    ensures r == [] <==> AllSpace(email)
    ensures forall i :: 0 <= i < |r| ==> !('A' <= r[i] <= 'Z')
    ensures |r| == |Trim(email)| && forall i :: 0 <= i < |r| ==> r[i] == LowerChar(Trim(email)[i])
  {
    var t := Trim(email);
    LowerKeepsTrimmed(t);
    Lower(t)
  }

  /** Normalising an already normalised email gives it back. */
  lemma NormalizeIdempotent(email: string)
    ensures NormalizeEmail(NormalizeEmail(email)) == NormalizeEmail(email)
  {
    var t := Trim(email);
    LowerKeepsTrimmed(t);
    TrimOfTrimmed(Lower(t));
    LowerIdempotent(t);
  }

  /** `err.response?.data?.message || err.message || 'Something went wrong'`:
      never empty, the server's message when it has one, else the error's own
      message, else the fallback. */
  function ErrorText(f: ErrorInfo): (r: string)
    ensures r != ""
    ensures TruthyOpt(f.serverMessage) ==> r == f.serverMessage.value
    ensures !TruthyOpt(f.serverMessage) ==>
      r == (if TruthyOpt(f.message) then f.message.value else FALLBACK_ERROR)
  {
    if TruthyOpt(f.serverMessage) then f.serverMessage.value
    else if TruthyOpt(f.message) then f.message.value
    else FALLBACK_ERROR
  }

  /** The error `new Error("Please enter your name")` has no response. */
  const NAME_FAILURE: ErrorInfo := ErrorInfo(None, Some(NAME_REQUIRED))

  /** The remote call a submit makes. */
  datatype Call = NoCall | LoginCall(credentials: Credentials) | RegisterCall(registration: Registration)

  /** Which call `handleSubmit` makes: a login in the login view; in the
      registration view no call when the name is empty, else a registration;
      the email is normalised and the password passed as typed. */
  function SubmitCall(isLoginView: bool, name: string, email: string, password: string): (c: Call)
    ensures c.LoginCall? <==> isLoginView
    ensures c.NoCall? <==> !isLoginView && name == ""
    ensures c.LoginCall? ==> c.credentials == Credentials(NormalizeEmail(email), password)
    ensures c.RegisterCall? ==> c.registration == Registration(name, NormalizeEmail(email), password)
  {
    if isLoginView then LoginCall(Credentials(NormalizeEmail(email), password))
    else if name == "" then NoCall
    else RegisterCall(Registration(name, NormalizeEmail(email), password))
  }

  /** A name of white space only passes the check: only the empty name is
      refused. */
  lemma BlankNameNotRefused(name: string, email: string, password: string)
    requires name != "" && AllSpace(name)
    ensures SubmitCall(false, name, email, password).RegisterCall?
  {
  }

  /** The message shown for a missing name is "Please enter your name". */
  lemma NameErrorShown()
    ensures ErrorText(NAME_FAILURE) == NAME_REQUIRED
  {
  }

  class LoginForm {
    var isLoginView: bool
    var name: string
    var email: string
    var password: string
    var error: string
    var loading: bool

    /** The form as first shown: the login view, empty fields, no error. */
    constructor ()
      ensures isLoginView && name == "" && email == "" && password == ""
      ensures error == "" && !loading
    {
      isLoginView := true;
      name, email, password := "", "", "";
      error := "";
      loading := false;
    }

    /** The first two statements of `handleSubmit`. */
    method BeginSubmit()
      modifies this
      ensures error == "" && loading
      ensures isLoginView == old(isLoginView)
      ensures name == old(name) && email == old(email) && password == old(password)
    {
      error := "";
      loading := true;
    }

    /** The login branch of `handleSubmit`, after `BeginSubmit`: `login`
        with the credentials `c`; a rejection's message becomes the error. */
    method SubmitLogin(auth: AuthProvider, loginServer: Credentials -> LoginReply, c: Credentials)
      returns (toDashboard: bool)
      modifies this, auth
      ensures toDashboard == loginServer(c).Accepted?
      ensures loginServer(c).Accepted? ==>
        error == old(error) && auth.user == Some(SessionUser(loginServer(c).data)) &&
        auth.cookies == old(auth.cookies)[TOKEN_COOKIE := Cookie(loginServer(c).data.token, Some(SESSION_DAYS))] &&
        auth.authLoading == old(auth.authLoading)
      ensures loginServer(c).Refused? ==> error == ErrorText(loginServer(c).failure) && unchanged(auth)
      ensures isLoginView == old(isLoginView) && loading == old(loading)
      ensures name == old(name) && email == old(email) && password == old(password)
    {
      var r := auth.Login(c.email, c.password, loginServer);
      toDashboard := r.Success?;
      if r.Failure? {
        error := ErrorText(r.error);
      }
    }

    /** The registration branch of `handleSubmit`, after `BeginSubmit` and the
        name check: `register` with `reg`; success switches to the login view,
        a rejection's message becomes the error. */
    method SubmitRegistration(auth: AuthProvider, registerServer: Registration -> RegisterReply, reg: Registration)
      modifies this
      ensures registerServer(reg).Registered? ==> error == old(error) && isLoginView
      ensures registerServer(reg).RegistrationFailed? ==>
        error == ErrorText(registerServer(reg).failure) && isLoginView == old(isLoginView)
      ensures loading == old(loading)
      ensures name == old(name) && email == old(email) && password == old(password)
    {
      var r := auth.Register(reg.name, reg.email, reg.password, registerServer);
      if r.RegistrationFailed? {
        error := ErrorText(r.failure);
      } else {
        isLoginView := true;
      }
    }

    /** `handleSubmit`: makes the call `SubmitCall` names; a successful login
        leaves the error empty and goes to the dashboard; a successful
        registration switches to the login view; every failure, including the
        missing name, shows its `ErrorText`; `loading` is false at the end. */
    method Submit(auth: AuthProvider, loginServer: Credentials -> LoginReply,
                  registerServer: Registration -> RegisterReply)
      returns (call: Call, toDashboard: bool)
      modifies this, auth
      ensures call == SubmitCall(old(isLoginView), old(name), old(email), old(password))
      ensures !loading
      ensures name == old(name) && email == old(email) && password == old(password)
      ensures toDashboard <==> call.LoginCall? && loginServer(call.credentials).Accepted?
      ensures call.NoCall? ==>
        error == ErrorText(NAME_FAILURE) && !isLoginView && unchanged(auth)
      ensures call.LoginCall? && loginServer(call.credentials).Accepted? ==>
        var d := loginServer(call.credentials).data;
        error == "" && isLoginView &&
        auth.user == Some(SessionUser(d)) &&
        auth.cookies == old(auth.cookies)[TOKEN_COOKIE := Cookie(d.token, Some(SESSION_DAYS))] &&
        auth.authLoading == old(auth.authLoading)
      ensures call.LoginCall? && loginServer(call.credentials).Refused? ==>
        error == ErrorText(loginServer(call.credentials).failure) && isLoginView && unchanged(auth)
      ensures call.RegisterCall? ==> unchanged(auth)
      ensures call.RegisterCall? && registerServer(call.registration).Registered? ==>
        error == "" && isLoginView
      ensures call.RegisterCall? && registerServer(call.registration).RegistrationFailed? ==>
        error == ErrorText(registerServer(call.registration).failure) && !isLoginView
    {
      BeginSubmit();
      call := SubmitCall(isLoginView, name, email, password);
      toDashboard := false;
      match call {
        case LoginCall(c) =>
          toDashboard := SubmitLogin(auth, loginServer, c);
        case NoCall =>
          error := ErrorText(NAME_FAILURE);
        case RegisterCall(reg) =>
          SubmitRegistration(auth, registerServer, reg);
      }
      loading := false;
    }

    /** The view toggle: switches between login and registration and clears
        the error. */
    method ToggleView()
      modifies this
      ensures isLoginView == !old(isLoginView) && error == ""
      ensures name == old(name) && email == old(email) && password == old(password)
      ensures loading == old(loading)
    {
      isLoginView := !isLoginView;
      error := "";
    }
  }
}
