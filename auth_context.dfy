/** The session store (app/context/AuthContext.tsx): the signed-in user, the
    "session not yet resolved" flag and the browser's cookie jar. The login and
    registration endpoints are functions from the request to its outcome. */
module AuthContext {
  import opened Wrappers
  import opened JsString
  import opened Domain

  datatype Credentials = Credentials(email: string, password: string)

  datatype Registration = Registration(name: string, email: string, password: string)

  /** `res.data` of a successful login: the user record and the token. */
  datatype LoginData = LoginData(user: User, token: string)

  datatype LoginReply = Accepted(data: LoginData) | Refused(failure: ErrorInfo)

  datatype RegisterReply = Registered | RegistrationFailed(failure: ErrorInfo)

  /** A cookie's value and its lifetime in days (`None`: a session cookie). */
  datatype Cookie = Cookie(value: string, expiresDays: Option<nat>)

  const TOKEN_COOKIE: string := "token"

  const SESSION_DAYS: nat := 7

  /** `{ ...res.data.user, token: res.data.token }`: every field of the user
      record, with `token` set to the token of the response. */
  function SessionUser(d: LoginData): (u: User)
    ensures u.Keys == d.user.Keys + {TOKEN_FIELD}
    ensures u[TOKEN_FIELD] == d.token
    ensures forall k :: k in d.user && k != TOKEN_FIELD ==> u[k] == d.user[k]
  {
    d.user[TOKEN_FIELD := d.token]
  }

  /** `Cookies.get(name)`. */
  function CookieValue(jar: map<string, Cookie>, name: string): (v: Option<string>)
    ensures v.Some? <==> name in jar
    ensures v.Some? ==> v.value == jar[name].value
  {
    if name in jar then Some(jar[name].value) else None
  }

  /** The user `checkAuth` restores from a jar: `{ token }` when the token
      cookie is set and not empty, and nothing otherwise. */
  function RestoredUser(jar: map<string, Cookie>): (u: Option<User>)
    ensures u.Some? <==> TOKEN_COOKIE in jar && jar[TOKEN_COOKIE].value != ""
    ensures u.Some? ==> u.value.Keys == {TOKEN_FIELD} && u.value[TOKEN_FIELD] == jar[TOKEN_COOKIE].value
  {
    var token := CookieValue(jar, TOKEN_COOKIE);
    if TruthyOpt(token) then Some(map[TOKEN_FIELD := token.value]) else None
  }

  class AuthProvider {
    var user: Option<User>
    var authLoading: bool
    var cookies: map<string, Cookie>

    /** The provider as first rendered: nobody signed in, session unresolved. */
    constructor (jar: map<string, Cookie>)
      ensures user == None && authLoading && cookies == jar
      ensures Consistent()
    {
      user := None;
      authLoading := true;
      cookies := jar;
    }

    /** A signed-in user's token is the one stored in the `token` cookie. */
    predicate Consistent()
      reads this
    {
      user.Some? ==>
        TOKEN_FIELD in user.value && TOKEN_COOKIE in cookies &&
        cookies[TOKEN_COOKIE].value == user.value[TOKEN_FIELD]
    }

    /** `login`: the credentials go to the server as given; on success the
        token is stored for 7 days and the user becomes the response's user
        with that token; on failure the error is passed on and nothing
        changes. */
    method Login(email: string, password: string, server: Credentials -> LoginReply)
      returns (r: Result<LoginData, ErrorInfo>)
      modifies this
      ensures server(Credentials(email, password)).Accepted? ==>
        var d := server(Credentials(email, password)).data;
        r == Success(d) && user == Some(SessionUser(d)) &&
        cookies == old(cookies)[TOKEN_COOKIE := Cookie(d.token, Some(SESSION_DAYS))] &&
        authLoading == old(authLoading)
      ensures server(Credentials(email, password)).Refused? ==>
        r == Result.Failure(server(Credentials(email, password)).failure) && unchanged(this)
      ensures r.Success? ==> Consistent()
      ensures old(Consistent()) ==> Consistent()
    {
      var reply := server(Credentials(email, password));
      match reply
      case Refused(failure) =>
        return Result.Failure(failure);
      case Accepted(data) =>
        cookies := cookies[TOKEN_COOKIE := Cookie(data.token, Some(SESSION_DAYS))];
        user := Some(SessionUser(data));
        return Success(data);
    }

    /** `logout`: the token cookie is removed and nobody is signed in. */
    method Logout()
      modifies this
      ensures user == None && cookies == old(cookies) - {TOKEN_COOKIE}
      ensures authLoading == old(authLoading)
      ensures Consistent()
    {
      cookies := cookies - {TOKEN_COOKIE};
      user := None;
    }

    /** `register`: forwards the request and its outcome and touches neither
        the user nor the cookies. */
    method Register(name: string, email: string, password: string, server: Registration -> RegisterReply)
      returns (r: RegisterReply)
      ensures r == server(Registration(name, email, password))
    {
      r := server(Registration(name, email, password));
    }

    /** `checkAuth`: a non-empty token cookie restores the user `{ token }`;
        otherwise the user is left as it was; the session is resolved either
        way. */
    method CheckAuth()
      modifies this
      ensures !authLoading && cookies == old(cookies)
      ensures user == if RestoredUser(cookies).Some? then RestoredUser(cookies) else old(user)
      ensures old(Consistent()) ==> Consistent()
    {
      var token := CookieValue(cookies, TOKEN_COOKIE);
      if TruthyOpt(token) {
        user := Some(map[TOKEN_FIELD := token.value]);
      }
      authLoading := false;
    }
  }

  /** Mounting the provider and running its effect: the session is resolved,
      the user is `{ token }` exactly when the jar holds a non-empty token
      cookie and nobody otherwise. */
  method Startup(jar: map<string, Cookie>) returns (p: AuthProvider)
    ensures fresh(p)
    ensures !p.authLoading && p.cookies == jar && p.user == RestoredUser(jar)
    ensures p.Consistent()
  {
    p := new AuthProvider(jar);
    p.CheckAuth();
  }
}
