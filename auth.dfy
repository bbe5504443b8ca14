/** Session storage keys, client-side token decoding, expiry and logout. */
module Auth {
  import opened Wrappers
  import opened Strings
  import opened Storage

  const TokenKey := "accessToken"
  const UserKey := "user"
  const SignInPath := "/sign-in"

  /** The claims the panel reads from a token; other claims are ignored. `exp` is in
      seconds since the epoch; a missing claim is `None`. */
  datatype Claims = Claims(exp: Option<int>, roleId: Option<int>)

  /** `JSON.parse(atob(segment))`, with a thrown exception as `None`. Decoding is not
      modelled; every statement below holds for every decoder. */
  type Decoder = string -> Option<Claims>

  /** `token.split('.')[1]`: the second dot-separated segment, `undefined` when the token
      has no dot. */
  function SecondSegment(token: string): (seg: Option<string>)
    ensures seg.Some? <==> '.' in token
    ensures seg.Some? ==> '.' !in seg.value
  {
    SplitCount(token, '.');
    SplitPartsFree(token, '.');
    var parts := Split(token, '.');
    if |parts| >= 2 then Some(parts[1]) else None
  }

  /** `getTokenPayload`: never fails; `atob(undefined)` throws, so a token without a dot has
      no payload, and otherwise the payload is whatever the second segment decodes to. */
  function GetTokenPayload(token: string, decode: Decoder): Option<Claims>
  {
    match SecondSegment(token)
    case None => None
    case Some(seg) => decode(seg)
  }

  /** `payload?.exp` is truthy: present and non-zero. */
  predicate HasExp(payload: Option<Claims>)
  {
    payload.Some? && payload.value.exp.Some? && payload.value.exp.value != 0
  }

  /** `isTokenExpired` at wall-clock time `nowMs` (milliseconds): `exp < nowMs / 1000`
      over the reals is `exp * 1000 < nowMs`. */
  predicate IsTokenExpired(token: string, decode: Decoder, nowMs: int)
  {
    var payload := GetTokenPayload(token, decode);
    !HasExp(payload) || payload.value.exp.value * 1000 < nowMs
  }

  /** The test `!token || isTokenExpired(token)` negated, shared by the route guard and
      the session timer: a stored, non-empty, unexpired token. */
  predicate SessionUsable(token: Option<string>, decode: Decoder, nowMs: int)
  {
    Truthy(token) && !IsTokenExpired(token.value, decode, nowMs)
  }

  /** The claims of a usable session; decoding cannot fail there. */
  function SessionClaims(token: Option<string>, decode: Decoder, nowMs: int): (c: Claims)
    requires SessionUsable(token, decode, nowMs)
    ensures GetTokenPayload(token.value, decode) == Some(c)
    ensures c.exp.Some? && c.exp.value != 0 && nowMs <= c.exp.value * 1000
  {
    GetTokenPayload(token.value, decode).value
  }

  /** Only the second segment is decoded: a later segment, or its absence, is never
      looked at, and neither is the header. */
  lemma {:induction false} PayloadIgnoresOtherSegments(header: string, claims: string, rest: string, decode: Decoder)
    requires '.' !in header && '.' !in claims
    ensures GetTokenPayload(header + "." + claims + "." + rest, decode) == decode(claims)
    ensures GetTokenPayload(header + "." + claims, decode) == decode(claims)
  {
    assert header + "." + claims + "." + rest == header + ['.'] + (claims + ['.'] + rest);
    SplitAtFirst(header, '.', claims + ['.'] + rest);
    SplitAtFirst(claims, '.', rest);
    SplitAtFirst(header, '.', claims);
    SplitNoSeparator(claims, '.');
  }

  /** A token with no dot at all has no payload and is expired. */
  lemma NoDotIsExpired(token: string, decode: Decoder, nowMs: int)
    requires '.' !in token
    ensures GetTokenPayload(token, decode) == None
    ensures IsTokenExpired(token, decode, nowMs)
  {
  }

  /** Fail closed: no payload, no `exp`, or `exp == 0` counts as expired at every time. */
  lemma ExpiredWithoutExp(token: string, decode: Decoder, nowMs: int)
    requires !HasExp(GetTokenPayload(token, decode))
    ensures IsTokenExpired(token, decode, nowMs)
  {
  }

  /** With a usable `exp`, the token is expired exactly when `exp` seconds lie strictly
      before `nowMs`; at `exp * 1000 == nowMs` it is still valid. */
  lemma ExpiredIff(token: string, decode: Decoder, nowMs: int)
    requires HasExp(GetTokenPayload(token, decode))
    ensures IsTokenExpired(token, decode, nowMs) <==> GetTokenPayload(token, decode).value.exp.value * 1000 < nowMs
    ensures GetTokenPayload(token, decode).value.exp.value * 1000 == nowMs ==> !IsTokenExpired(token, decode, nowMs)
  {
  }

  /** Expiry is permanent: a token expired at `t` is expired at every later time. */
  lemma ExpiryMonotone(token: string, decode: Decoder, t: int, later: int)
    requires t <= later && IsTokenExpired(token, decode, t)
    ensures IsTokenExpired(token, decode, later)
  {
  }

  /** `getToken`: reads the `accessToken` key and nothing else. */
  method GetToken(store: LocalStorage) returns (token: Option<string>)
    ensures token == Lookup(store.items, TokenKey)
  {
    token := store.GetItem(TokenKey);
  }

  /** The storage left by `logout`. */
  function AfterLogout(items: map<string, string>): (m: map<string, string>)
    ensures TokenKey !in m && UserKey !in m
    ensures forall k :: k in items && k != TokenKey && k != UserKey ==> k in m && m[k] == items[k]
    ensures forall k :: k in m ==> k in items
  {
    items - {TokenKey, UserKey}
  }

  /** Logging out twice leaves the same storage as logging out once. */
  lemma LogoutIdempotent(items: map<string, string>)
    ensures AfterLogout(AfterLogout(items)) == AfterLogout(items)
  {
  }

  /** `logout`: removes the token, then the user record, then sends the browser to the
      sign-in page (returned here instead of assigned to `window.location`). */
  method Logout(store: LocalStorage) returns (redirect: string)
    modifies store
    ensures store.items == AfterLogout(old(store.items))
    ensures redirect == SignInPath
  {
    store.RemoveItem(TokenKey);
    store.RemoveItem(UserKey);
    redirect := SignInPath;
  }
}
