/**
 * The token codec: reads the claims out of a bearer token and decides
 * whether the token has expired.
 *
 * The `jwt-decode` library is not modelled; it is the parameter `decode`,
 * whose `None` result stands for the library throwing. The clock
 * (`Date.now()`, milliseconds since the epoch) is the parameter `nowMs`.
 */
module Jwt {
  import opened Wrappers

  /** The claims of a token. `iat` and `exp` are in seconds since the epoch. */
  datatype Claims = Claims(userId: string, email: string, role: string, iat: Option<int>, exp: Option<int>)

  /** What `jwtDecode` returns for a token; `None` when it throws. */
  type Decoder = string -> Option<Claims>

  /** `decodeToken`: the empty token is refused before the library is asked; failures become `None`. */
  function DecodeToken(decode: Decoder, token: string): (r: Option<Claims>)
    ensures r.None? <==> token == "" || decode(token).None?
    ensures r.Some? ==> r == decode(token)
  {
    if token == "" then None else decode(token)
  }

  /**
   * `isTokenExpired`: a token that does not decode, or whose `exp` is
   * missing or zero, is expired; otherwise it is expired from the
   * millisecond `exp * 1000` on.
   */
  function IsTokenExpired(decode: Decoder, token: string, nowMs: int): (expired: bool)
    ensures decode(token).None? ==> expired
    ensures decode(token).Some? && decode(token).value.exp in {None, Some(0)} ==> expired
    ensures !expired ==> decode(token).Some? && decode(token).value.exp.Some?
  {
    match decode(token)
    case None => true
    case Some(claims) =>
      match claims.exp
      case None => true
      case Some(exp) => if exp == 0 then true else nowMs >= exp * 1000
  }

  /** With a non-zero `exp`, expiry is exactly the comparison of the clock with `exp` seconds. */
  lemma ExpiryIsClockComparison(decode: Decoder, token: string, nowMs: int, exp: int)
    requires decode(token).Some? && decode(token).value.exp == Some(exp) && exp != 0
    ensures IsTokenExpired(decode, token, nowMs) <==> nowMs >= exp * 1000
  {
  }

  /** Once expired, a token stays expired as the clock moves on. */
  lemma ExpiryIsMonotone(decode: Decoder, token: string, earlier: int, later: int)
    requires earlier <= later
    requires IsTokenExpired(decode, token, earlier)
    ensures IsTokenExpired(decode, token, later)
  {
  }

  /** A non-empty token that has not expired decodes, so `decodeToken` and `isTokenExpired` agree. */
  lemma NotExpiredDecodes(decode: Decoder, token: string, nowMs: int)
    requires token != "" && !IsTokenExpired(decode, token, nowMs)
    ensures DecodeToken(decode, token).Some?
  {
  }

  /** `getRoleFromToken`: the `role` claim, or `None` when decoding fails or the claim is empty. */
  function GetRoleFromToken(decode: Decoder, token: string): (r: Option<string>)
    ensures r.Some? <==> DecodeToken(decode, token).Some? && DecodeToken(decode, token).value.role != ""
    ensures r.Some? ==> r.value == DecodeToken(decode, token).value.role
  {
    match DecodeToken(decode, token)
    case None => None
    case Some(claims) => if claims.role == "" then None else Some(claims.role)
  }

  /** `getUserIdFromToken`: the `user_id` claim, or `None` when decoding fails or the claim is empty. */
  function GetUserIdFromToken(decode: Decoder, token: string): (r: Option<string>)
    ensures r.Some? <==> DecodeToken(decode, token).Some? && DecodeToken(decode, token).value.userId != ""
    ensures r.Some? ==> r.value == DecodeToken(decode, token).value.userId
  {
    match DecodeToken(decode, token)
    case None => None
    case Some(claims) => if claims.userId == "" then None else Some(claims.userId)
  }
}
