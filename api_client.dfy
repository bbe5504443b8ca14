/** The axios wrapper: bearer-token injection on request and storage eviction on
    authentication errors. */
module ApiClient {
  import opened Wrappers
  import opened Strings
  import opened Storage
  import opened Http

  /** The key the wrapper reads the token from. */
  const AccessTokenKey := "accessToken"
  /** The key the error interceptor removes: not the key the token is stored under. */
  const StaleTokenKey := "token"
  const AuthorizationHeader := "Authorization"

  const PermissionDeniedMessage := "Permission denied"
  const TokenMissingMessage := "Token missing"
  const InvalidTokenMessage := "Invalid Token"

  function Bearer(token: string): string
  {
    "Bearer " + token
  }

  /** `config.headers || {}` */
  function HeadersOf(c: Config): Headers
  {
    c.headers.GetOr(map[])
  }

  /** The value a request would carry for header `name`. */
  function HeaderValue(c: Config, name: string): Option<string>
  {
    Lookup(HeadersOf(c), name)
  }

  /** `withAuth`: with a stored, non-empty token, a copy of the config whose headers are
      the old ones plus `Authorization: Bearer <token>` (replacing any earlier value);
      otherwise the config itself. The input is a value and is not changed. */
  function WithAuth(config: Config, token: Option<string>): (r: Config)
    ensures !Truthy(token) ==> r == config
    ensures r.authRequired == config.authRequired && r.rest == config.rest
    ensures Truthy(token) ==> HeaderValue(r, AuthorizationHeader) == Some(Bearer(token.value))
    ensures forall h :: h != AuthorizationHeader ==> HeaderValue(r, h) == HeaderValue(config, h)
  {
    if !Truthy(token) then config
    else config.(headers := Some(HeadersOf(config)[AuthorizationHeader := Bearer(token.value)]))
  }

  /** The config each verb helper (`get`, `post`, `put`, `del`, `patch`) hands to axios:
      `withAuth(config)` when `config.authRequired` is truthy, else `config`. */
  function FinalConfig(config: Config, token: Option<string>): (r: Config)
    ensures !FlagSet(config.authRequired) ==> r == config
    ensures r.authRequired == config.authRequired && r.rest == config.rest
    ensures HeaderValue(r, AuthorizationHeader) ==
      if FlagSet(config.authRequired) && Truthy(token) then Some(Bearer(token.value))
      else HeaderValue(config, AuthorizationHeader)
    ensures forall h :: h != AuthorizationHeader ==> HeaderValue(r, h) == HeaderValue(config, h)
  {
    if FlagSet(config.authRequired) then WithAuth(config, token) else config
  }

  /** The request interceptor's effect on a config: with the flag set, the header is
      added when a token exists and the flag is deleted in every case; without the flag,
      nothing changes. */
  function Intercepted(config: Config, token: Option<string>): (r: Config)
    ensures !FlagSet(config.authRequired) ==> r == config
    ensures FlagSet(config.authRequired) ==> r.authRequired.None?
    ensures r.rest == config.rest
    ensures HeaderValue(r, AuthorizationHeader) ==
      if FlagSet(config.authRequired) && Truthy(token) then Some(Bearer(token.value))
      else HeaderValue(config, AuthorizationHeader)
    ensures forall h :: h != AuthorizationHeader ==> HeaderValue(r, h) == HeaderValue(config, h)
    ensures FlagSet(config.authRequired) && !Truthy(token) ==> r.headers == config.headers
  {
    if !FlagSet(config.authRequired) then config
    else
      var withHeader :=
        if Truthy(token) then config.(headers := Some(HeadersOf(config)[AuthorizationHeader := Bearer(token.value)]))
        else config;
      withHeader.(authRequired := None)
  }

  /** The config object axios passes through its request interceptors, which update it
      in place. */
  class RequestConfig {
    var authRequired: Option<bool>
    var headers: Option<Headers>
    var rest: map<string, string>

    constructor (c: Config)
      ensures Value() == c
    {
      authRequired, headers, rest := c.authRequired, c.headers, c.rest;
    }

    function Value(): Config
      reads this
    {
      Config(authRequired, headers, rest)
    }

    /** The request interceptor: reads the token at the moment it runs. */
    method InterceptRequest(store: LocalStorage)
      modifies this
      ensures Value() == Intercepted(old(Value()), Lookup(store.items, AccessTokenKey))
    {
      if FlagSet(authRequired) {
        var token := store.GetItem(AccessTokenKey);
        if Truthy(token) {
          headers := Some(headers.GetOr(map[])[AuthorizationHeader := Bearer(token.value)]);
        }
        authRequired := None;
      }
    }
  }

  /** What reaches the transport for a config, when the helper and the interceptor read
      the same token. */
  function Outgoing(config: Config, token: Option<string>): Config
  {
    Intercepted(FinalConfig(config, token), token)
  }

  /** The whole request path: the Authorization header is `Bearer <token>` exactly when
      the flag is set and a token exists, the flag itself never leaves, and every other
      header and option is passed through. */
  lemma OutgoingRequest(config: Config, token: Option<string>)
    ensures HeaderValue(Outgoing(config, token), AuthorizationHeader) ==
      if FlagSet(config.authRequired) && Truthy(token) then Some(Bearer(token.value))
      else HeaderValue(config, AuthorizationHeader)
    ensures FlagSet(config.authRequired) ==> Outgoing(config, token).authRequired.None?
    ensures !FlagSet(config.authRequired) ==> Outgoing(config, token) == config
    ensures Outgoing(config, token).rest == config.rest
    ensures forall h :: h != AuthorizationHeader ==> HeaderValue(Outgoing(config, token), h) == HeaderValue(config, h)
  {
  }

  /** `withAuth` followed by the interceptor sets the same Authorization value as either
      step alone: the header is written twice with one value. */
  lemma AuthorizationAgrees(config: Config, token: Option<string>)
    requires FlagSet(config.authRequired)
    ensures HeaderValue(Intercepted(WithAuth(config, token), token), AuthorizationHeader)
         == HeaderValue(WithAuth(config, token), AuthorizationHeader)
    ensures HeaderValue(Intercepted(WithAuth(config, token), token), AuthorizationHeader)
         == HeaderValue(Intercepted(config, token), AuthorizationHeader)
  {
  }

  /** A verb helper call followed by the request interceptor: the call as the transport
      receives it. Only reads storage. */
  method Dispatch(store: LocalStorage, call: Call) returns (sent: Call)
    ensures sent == call.(config := Outgoing(call.config, Lookup(store.items, AccessTokenKey)))
  {
    var token := store.GetItem(AccessTokenKey);
    var finalConfig := if FlagSet(call.config.authRequired) then WithAuth(call.config, token) else call.config;
    var internal := new RequestConfig(finalConfig);
    internal.InterceptRequest(store);
    sent := call.(config := internal.Value());
  }

  /** `error.response?.data?.message?.toLowerCase?.() || ''` */
  function LoweredMessage(e: HttpError): string
  {
    if e.message.Some? then ToLower(e.message.value) else ""
  }

  /** The 401 branch's test on the lower-cased message. */
  predicate MentionsAuthFailure(msg: string)
  {
    Contains(msg, "unauthorized") || Contains(msg, "invalid token") || Contains(msg, "token expired")
  }

  /** Whether the error interceptor removes the `token` key for this error. */
  predicate EvictsStaleKey(e: HttpError)
  {
    if e.message == Some(PermissionDeniedMessage) then false
    else if e.message == Some(TokenMissingMessage) || e.message == Some(InvalidTokenMessage) then true
    else e.status == Some(401) && MentionsAuthFailure(LoweredMessage(e))
  }

  /** The storage the error interceptor leaves. It removes at most the `token` key, so
      the stored session token under `accessToken` survives every error. */
  function AfterError(items: map<string, string>, e: HttpError): (m: map<string, string>)
    ensures m == items || m == items - {StaleTokenKey}
    ensures Lookup(m, AccessTokenKey) == Lookup(items, AccessTokenKey)
    ensures e.message == Some(PermissionDeniedMessage) ==> m == items
    ensures e.message == Some(TokenMissingMessage) || e.message == Some(InvalidTokenMessage) ==> StaleTokenKey !in m
  {
    if EvictsStaleKey(e) then items - {StaleTokenKey} else items
  }

  /** The response interceptor: successes pass through; every error, after its effect on
      storage, is rejected again as the same value. */
  method OnResponse<T>(store: LocalStorage, r: Response<T>) returns (out: Response<T>)
    modifies store
    ensures out == r
    ensures r.Ok? ==> store.items == old(store.items)
    ensures r.Failed? ==> store.items == AfterError(old(store.items), r.error)
  {
    out := r;
    if r.Failed? {
      var e := r.error;
      if e.message == Some(PermissionDeniedMessage) {
        return;
      }
      if e.message == Some(TokenMissingMessage) || e.message == Some(InvalidTokenMessage) {
        store.RemoveItem(StaleTokenKey);
        return;
      }
      if e.status == Some(401) {
        var msg := LoweredMessage(e);
        if Contains(msg, "unauthorized") || Contains(msg, "invalid token") || Contains(msg, "token expired") {
          store.RemoveItem(StaleTokenKey);
        }
      }
    }
  }

  /** `'Permission denied'` is tested first: it never touches storage, even with 401. */
  lemma PermissionDeniedFirst(items: map<string, string>, status: Option<int>)
    ensures AfterError(items, HttpError(status, Some(PermissionDeniedMessage))) == items
  {
  }

  /** The two sentinel messages remove `token` and nothing else, whatever the status. */
  lemma SentinelRemovesStaleKeyOnly(items: map<string, string>, status: Option<int>, message: string)
    requires message == TokenMissingMessage || message == InvalidTokenMessage
    ensures AfterError(items, HttpError(status, Some(message))) == items - {StaleTokenKey}
  {
  }

  /** A 401 whose message mentions an authentication failure in any letter case removes
      `token`; the same message with another status changes nothing. */
  lemma UnauthorizedNeedsStatus401(items: map<string, string>, status: Option<int>, message: string)
    requires message != PermissionDeniedMessage && message != TokenMissingMessage && message != InvalidTokenMessage
    requires MentionsAuthFailure(ToLower(message))
    ensures AfterError(items, HttpError(status, Some(message))) == if status == Some(401) then items - {StaleTokenKey} else items
  {
  }

  /** For instance `'Unauthorized access'` with status 401. */
  lemma UnauthorizedAccessExample(items: map<string, string>)
    ensures AfterError(items, HttpError(Some(401), Some("Unauthorized access"))) == items - {StaleTokenKey}
  {
    var lowered := ToLower("Unauthorized access");
    assert lowered[..12] == "unauthorized";
  }

  /** A transport failure (no response status and no message) changes nothing. */
  lemma NoResponseKeepsStorage(items: map<string, string>)
    ensures AfterError(items, HttpError(None, None)) == items
  {
  }

  /** Every error outside the evicting cases changes nothing: a message other than the
      two sentinels, unless it is a 401 that mentions an authentication failure. */
  lemma OtherErrorsKeepStorage(items: map<string, string>, e: HttpError)
    requires e.message != Some(TokenMissingMessage) && e.message != Some(InvalidTokenMessage)
    requires e.status != Some(401) || !MentionsAuthFailure(LoweredMessage(e))
    ensures AfterError(items, e) == items
  {
  }

  /** The eviction rule in both directions: the interceptor removes `token` from a
      storage that holds it exactly in the evicting cases. */
  lemma EvictionIff(items: map<string, string>, e: HttpError)
    requires StaleTokenKey in items
    ensures StaleTokenKey !in AfterError(items, e) <==>
      e.message != Some(PermissionDeniedMessage) &&
      (e.message == Some(TokenMissingMessage) || e.message == Some(InvalidTokenMessage) ||
       (e.status == Some(401) && MentionsAuthFailure(LoweredMessage(e))))
  {
  }
}
