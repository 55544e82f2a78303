/** The route guard wrapped around every page that needs a session. */
module PrivateRoute {
  import opened Browser
  import opened Jwt

  const LoginRoute: string := "/login"

  /** What the guard renders: the wrapped page, or a redirect. */
  datatype Guarded = Children | Redirect(to: string)

  /** The guard's decision, given the app's `sessionExpired` flag, the stored
      access token, the decoder and the current time in seconds. While the
      session-expired modal is up the page renders whatever the token; otherwise
      a missing or empty token, one that does not decode, or one whose `exp` is
      strictly in the past sends the user to the login page. */
  function Guard(sessionExpired: bool, token: Option<string>, decode: string -> Decoded, now: real): (g: Guarded)
    ensures g.Redirect? ==> g.to == LoginRoute
    ensures sessionExpired ==> g == Children
    ensures g == Children <==>
      sessionExpired || (Truthy(token) && decode(token.value).Claims? && !ExpiredAt(decode(token.value), now))
  {
    if sessionExpired then Children
    else if !(token.Some? && token.value != "") then Redirect(LoginRoute)
    else
      match decode(token.value)
      case Undecodable => Redirect(LoginRoute)
      case Claims(exp) => if exp.Some? && exp.value < now then Redirect(LoginRoute) else Children
  }

  /** The individual redirect cases, each on its own. */
  lemma GuardRedirects(token: Option<string>, decode: string -> Decoded, now: real)
    ensures !Truthy(token) ==> Guard(false, token, decode, now) == Redirect(LoginRoute)
    ensures Truthy(token) && decode(token.value).Undecodable? ==> Guard(false, token, decode, now) == Redirect(LoginRoute)
    ensures Truthy(token) && ExpiredAt(decode(token.value), now) ==> Guard(false, token, decode, now) == Redirect(LoginRoute)
    ensures Truthy(token) && decode(token.value).Claims? && decode(token.value).exp.None? ==>
      Guard(false, token, decode, now) == Children
  {
  }

  /** A page the guard lets through now was let through at every earlier time. */
  lemma {:induction false} GuardMonotoneInTime(sessionExpired: bool, token: Option<string>, decode: string -> Decoded,
                                               earlier: real, now: real)
    requires earlier <= now
    ensures Guard(sessionExpired, token, decode, now) == Children ==> Guard(sessionExpired, token, decode, earlier) == Children
  {
    if Truthy(token) {
      ExpiryIsStrictAndMonotone(decode(token.value), earlier, now);
    }
  }
}
