/** The route guard: a stored token and an optional role list decide between the sign-in
    page, the not-found page and the protected screen. */
module ProtectedRoute {
  import opened Wrappers
  import opened Strings
  import opened Auth

  const NotFoundPath := "/404"

  /** `<Navigate to=... replace state={{ from }} />` or the children. */
  datatype GuardOutcome = Redirect(to: string, from: Option<string>) | RenderChildren

  /** The role of the payload is in `allowedRoles` (`includes` with strict equality; a
      missing `roleId` matches nothing). */
  predicate RoleListed(roles: seq<int>, roleId: Option<int>)
  {
    roleId.Some? && roleId.value in roles
  }

  /** The guard's decision for the token `getToken()` returned at `location`. The
      null-payload branch is kept as written. */
  function Guard(token: Option<string>, allowedRoles: Option<seq<int>>, location: string, decode: Decoder, nowMs: int): (o: GuardOutcome)
    ensures o == Redirect(SignInPath, None) <==> !SessionUsable(token, decode, nowMs)
    ensures o == RenderChildren <==>
      SessionUsable(token, decode, nowMs)
      && (allowedRoles.None? || RoleListed(allowedRoles.value, SessionClaims(token, decode, nowMs).roleId))
    ensures o.Redirect? && o.to != SignInPath ==> o == Redirect(NotFoundPath, Some(location))
  {
    if !Truthy(token) || IsTokenExpired(token.value, decode, nowMs) then Redirect(SignInPath, None)
    else
      var payload := GetTokenPayload(token.value, decode);
      if payload.None? then Redirect(SignInPath, None)
      else if allowedRoles.Some? && !RoleListed(allowedRoles.value, payload.value.roleId) then
        Redirect(NotFoundPath, Some(location))
      else RenderChildren
  }

  /** The second sign-in redirect (an undecodable token) is dead code: a token that got
      past the expiry test always has a payload. */
  lemma NullPayloadUnreachable(token: Option<string>, decode: Decoder, nowMs: int)
    requires Truthy(token) && !IsTokenExpired(token.value, decode, nowMs)
    ensures GetTokenPayload(token.value, decode).Some?
  {
  }

  /** A missing or empty token, or an expired one, goes to sign-in whatever the roles. */
  lemma NoSessionGoesToSignIn(token: Option<string>, allowedRoles: Option<seq<int>>, location: string, decode: Decoder, nowMs: int)
    requires !Truthy(token) || IsTokenExpired(token.value, decode, nowMs)
    ensures Guard(token, allowedRoles, location, decode, nowMs) == Redirect(SignInPath, None)
  {
  }

  /** A usable session whose role is not listed goes to the not-found page, carrying the
      location it came from. */
  lemma WrongRoleGoesToNotFound(token: Option<string>, roles: seq<int>, location: string, decode: Decoder, nowMs: int)
    requires SessionUsable(token, decode, nowMs)
    requires !RoleListed(roles, SessionClaims(token, decode, nowMs).roleId)
    ensures Guard(token, Some(roles), location, decode, nowMs) == Redirect(NotFoundPath, Some(location))
  {
  }

  /** Without a role list, every usable session renders, whatever its role. */
  lemma NoRolesAdmitsEverySession(token: Option<string>, location: string, decode: Decoder, nowMs: int)
    requires SessionUsable(token, decode, nowMs)
    ensures Guard(token, None, location, decode, nowMs) == RenderChildren
  {
  }

  /** An empty role list (still truthy as an array) rejects every role. */
  lemma EmptyRolesRejectAll(token: Option<string>, location: string, decode: Decoder, nowMs: int)
    ensures Guard(token, Some([]), location, decode, nowMs) != RenderChildren
  {
  }

  /** With roles `[1, 3]`, a usable session of role 2 is turned away. */
  lemma RoleTwoRejected(token: Option<string>, location: string, decode: Decoder, nowMs: int)
    requires SessionUsable(token, decode, nowMs)
    requires SessionClaims(token, decode, nowMs).roleId == Some(2)
    ensures Guard(token, Some([1, 3]), location, decode, nowMs) == Redirect(NotFoundPath, Some(location))
  {
  }
}
