/** What the application reads from a decoded access token (the `jwt-decode`
    package): either the token does not decode, or it yields claims with an
    optional numeric `exp`. */
module Jwt {
  import opened Browser

  datatype Decoded = Undecodable | Claims(exp: Option<real>)

  /** `decoded.exp < currentTime`: a missing `exp` compares false, so such a
      token never counts as expired. */
  predicate ExpiredAt(d: Decoded, now: real)
    ensures d.Undecodable? || d.exp.None? ==> !ExpiredAt(d, now)
    ensures d.Claims? && d.exp.Some? ==> (ExpiredAt(d, now) <==> d.exp.value < now)
  {
    d.Claims? && d.exp.Some? && d.exp.value < now
  }

  /** Expiry is strict and monotone in time: a token is never expired at its
      own `exp`, and once expired it stays expired. */
  lemma ExpiryIsStrictAndMonotone(d: Decoded, now: real, later: real)
    requires now <= later
    ensures d.Claims? && d.exp == Some(now) ==> !ExpiredAt(d, now)
    ensures ExpiredAt(d, now) ==> ExpiredAt(d, later)
  {
  }
}
