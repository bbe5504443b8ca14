/** The sign-in screen: validation, the login request, and the session it writes. */
module SignIn {
  import opened Wrappers
  import opened Strings
  import opened Storage
  import opened Endpoints
  import opened Http
  import opened Auth
  import Routes
  import ProtectedRoute

  const RequiredMessage := "Email and password are required"
  const LoginFailedMessage := "Login failed"
  const HomePath := "/"

  /** `ENDPOINTS.LOGIN_PANEL`, a key src/api/endpoint.ts does not define. */
  const LoginPanel := Unlisted("LOGIN_PANEL", None)

  /** The fields of `res.data` the screen reads; `user` is its JSON text. Either may be
      absent (`undefined`). */
  datatype LoginData = LoginData(token: Option<string>, user: Option<string>)

  /** What `localStorage.setItem` stores for a value that may be `undefined`: storage
      coerces it to the string `'undefined'`. */
  function Stored(v: Option<string>): (s: string)
    ensures v.Some? ==> s == v.value
    ensures v.None? ==> s == "undefined"
  {
    v.GetOr("undefined")
  }

  /** The login request: a JSON body with the two fields and the default config, so no
      `authRequired` flag and no `Authorization` header. */
  function LoginCall(email: string, password: string): (c: Call)
    ensures c.verb == Post && c.endpoint == LoginPanel
    ensures c.body == Json([("email", JStr(email)), ("password", JStr(password))])
    ensures !FlagSet(c.config.authRequired) && c.config.headers.None?
  {
    Call(Post, LoginPanel, Json([("email", JStr(email)), ("password", JStr(password))]), EmptyConfig)
  }

  /** Storage after a successful login: the token key, then the user key, are written and
      nothing else changes. */
  function SessionWrites(items: map<string, string>, d: LoginData): (m: map<string, string>)
    ensures Lookup(m, TokenKey) == Some(Stored(d.token))
    ensures Lookup(m, UserKey) == Some(Stored(d.user))
    ensures m.Keys == items.Keys + {TokenKey, UserKey}
    ensures forall k :: k in items && k != TokenKey && k != UserKey ==> m[k] == items[k]
  {
    items[TokenKey := Stored(d.token)][UserKey := Stored(d.user)]
  }

  class SignInView {
    var email: string
    var password: string
    var loading: bool
    var error: string

    constructor()
      ensures email == "" && password == "" && !loading && error == ""
    {
      email := "";
      password := "";
      loading := false;
      error := "";
    }

    method ChangeEmail(v: string)
      modifies this
      ensures email == v && password == old(password) && loading == old(loading) && error == old(error)
    {
      email := v;
    }

    method ChangePassword(v: string)
      modifies this
      ensures password == v && email == old(email) && loading == old(loading) && error == old(error)
    {
      password := v;
    }

    /** `handleLogin` up to the awaited request: an empty field only sets the error;
        otherwise loading starts, the error is cleared and the request is issued. */
    method BeginLogin() returns (call: Option<Call>)
      modifies this
      ensures email == old(email) && password == old(password)
      ensures (old(email) == "" || old(password) == "") ==>
        call == None && error == RequiredMessage && loading == old(loading)
      ensures old(email) != "" && old(password) != "" ==>
        call == Some(LoginCall(email, password)) && loading && error == ""
    {
      if email == "" || password == "" {
        error := RequiredMessage;
        call := None;
        return;
      }
      loading := true;
      error := "";
      call := Some(LoginCall(email, password));
    }

    /** `handleLogin` after the request settles: on success the session is written and
        the router goes home; on failure storage is untouched and the error shows the
        server message or the fallback. Loading ends either way. */
    method FinishLogin(store: LocalStorage, r: Response<LoginData>) returns (navigateTo: Option<string>)
      modifies this, store
      ensures email == old(email) && password == old(password) && !loading
      ensures r.Ok? ==>
        store.items == SessionWrites(old(store.items), r.data) && navigateTo == Some(HomePath) && error == old(error)
      ensures r.Failed? ==>
        store.items == old(store.items) && navigateTo == None && error == OrElse(r.error.message, LoginFailedMessage)
    {
      match r {
        case Ok(d) =>
          store.SetItem(TokenKey, Stored(d.token));
          store.SetItem(UserKey, Stored(d.user));
          navigateTo := Some(HomePath);
        case Failed(e) =>
          error := OrElse(e.message, LoginFailedMessage);
          navigateTo := None;
      }
      loading := false;
    }
  }

  /** A login answered with a usable token for role 1 or 3 lands on the dashboard. */
  lemma LoginReachesDashboard(items: map<string, string>, d: LoginData, decode: Decoder, nowMs: int)
    requires SessionUsable(Some(Stored(d.token)), decode, nowMs)
    requires SessionClaims(Some(Stored(d.token)), decode, nowMs).roleId in {Some(1), Some(3)}
    ensures Routes.Navigate(HomePath, Lookup(SessionWrites(items, d), TokenKey), decode, nowMs) == Routes.Show(Routes.DashboardPage)
  {
    Routes.MatchEntry(0);
    Routes.NavigateDashboard(HomePath, Some(Stored(d.token)), decode, nowMs);
    assert ProtectedRoute.RoleListed(Routes.AdminAndOrganizer, SessionClaims(Some(Stored(d.token)), decode, nowMs).roleId);
  }

  /** A success answer without a token stores `'undefined'`, which has no dot, so the
      dashboard sends the user straight back to sign-in. */
  lemma MissingTokenBouncesToSignIn(items: map<string, string>, user: Option<string>, decode: Decoder, nowMs: int)
    ensures Routes.Navigate(HomePath, Lookup(SessionWrites(items, LoginData(None, user)), TokenKey), decode, nowMs)
      == Routes.Redirected(SignInPath, None)
  {
    var t := Lookup(SessionWrites(items, LoginData(None, user)), TokenKey);
    assert t == Some("undefined");
    NoDotIsExpired("undefined", decode, nowMs);
    Routes.MatchEntry(0);
    Routes.NoSessionRedirectsToSignIn(HomePath, t, decode, nowMs);
  }
}
