/** The session timer effect run once when the dashboard mounts. */
module UseAuth {
  import opened Wrappers
  import opened Strings
  import opened Storage
  import opened Auth

  /** What the effect does: log out at once, or arm a logout timer with this delay. */
  datatype MountEffect = LogoutNow | ArmLogoutTimer(delayMs: int)

  /** The effect's decision. The clock is read twice: `checkMs` inside `isTokenExpired`,
      and `nowMs` for the delay afterwards. The second decode (without `try`) is the
      `.value` below: its well-formedness is the proof that it cannot throw on this path. */
  function Plan(token: Option<string>, decode: Decoder, checkMs: int, nowMs: int): (e: MountEffect)
    ensures e == LogoutNow <==> !SessionUsable(token, decode, checkMs)
    ensures e.ArmLogoutTimer? ==> nowMs + e.delayMs == SessionClaims(token, decode, checkMs).exp.value * 1000
  {
    if !Truthy(token) || IsTokenExpired(token.value, decode, checkMs) then LogoutNow
    else
      var payload := GetTokenPayload(token.value, decode).value;
      ArmLogoutTimer(payload.exp.value * 1000 - nowMs)
  }

  /** When both readings agree, the delay is never negative: the expiry test let
      through only tokens that are still valid at that instant. */
  lemma SameInstantDelayNonNegative(token: Option<string>, decode: Decoder, nowMs: int)
    ensures Plan(token, decode, nowMs, nowMs).ArmLogoutTimer? ==> Plan(token, decode, nowMs, nowMs).delayMs >= 0
  {
  }

  /** A token expiring exactly at the first reading passes the strict test, and any later
      second reading then gives a negative delay, so the timer is due at once. */
  lemma LaterReadingNegativeDelay(token: Option<string>, decode: Decoder, checkMs: int, nowMs: int)
    requires Truthy(token) && GetTokenPayload(token.value, decode).Some?
    requires GetTokenPayload(token.value, decode).value.exp.Some?
    requires GetTokenPayload(token.value, decode).value.exp.value * 1000 == checkMs
    requires checkMs != 0 && checkMs < nowMs
    ensures Plan(token, decode, checkMs, nowMs) == ArmLogoutTimer(checkMs - nowMs)
    ensures Plan(token, decode, checkMs, nowMs).delayMs < 0
  {
  }

  /** A `setTimeout` registration: when, and after how long. Its callback is always
      `logout`, and no handle to it is kept. */
  datatype Timer = Timer(armedAt: int, delayMs: int)

  /** The browser's pending timers. The panel only ever adds to them: there is no
      `clearTimeout` anywhere, so an armed timer is never cancelled. */
  class Timers {
    var pending: seq<Timer>

    constructor ()
      ensures pending == []
    {
      pending := [];
    }

    method SetTimeout(t: Timer)
      modifies this
      ensures pending == old(pending) + [t]
    {
      pending := pending + [t];
    }
  }

  /** The effect body. It returns no cleanup, so a second mount with a newer session
      leaves the first timer armed beside the new one. */
  method Mount(store: LocalStorage, timers: Timers, decode: Decoder, checkMs: int, nowMs: int) returns (e: MountEffect, redirect: Option<string>)
    modifies store, timers
    ensures e == Plan(Lookup(old(store.items), TokenKey), decode, checkMs, nowMs)
    ensures e == LogoutNow ==>
      store.items == AfterLogout(old(store.items)) && timers.pending == old(timers.pending) && redirect == Some(SignInPath)
    ensures e.ArmLogoutTimer? ==>
      store.items == old(store.items) && timers.pending == old(timers.pending) + [Timer(nowMs, e.delayMs)] && redirect == None
  {
    var token := GetToken(store);
    e := Plan(token, decode, checkMs, nowMs);
    if e == LogoutNow {
      var to := Logout(store);
      redirect := Some(to);
    } else {
      timers.SetTimeout(Timer(nowMs, e.delayMs));
      redirect := None;
    }
  }

  /** The armed timer is due exactly at the token's own expiry, `exp` seconds. */
  lemma TimerDueAtExpiry(token: Option<string>, decode: Decoder, checkMs: int, nowMs: int)
    requires SessionUsable(token, decode, checkMs)
    ensures Plan(token, decode, checkMs, nowMs).ArmLogoutTimer?
    ensures nowMs + Plan(token, decode, checkMs, nowMs).delayMs == GetTokenPayload(token.value, decode).value.exp.value * 1000
  {
  }
}
