/**
 * The token issuer, as an oracle. Signing and verifying JWTs (and their
 * expiry arithmetic) are not modelled: verification of a token either
 * yields the `_id` claim it carries or fails, and signing yields some string.
 */
module Tokens {
  import opened Store

  /** What `jwt.verify` reports: the `_id` claim, or one of its two failures. */
  datatype Verdict = Verified(id: Id) | Expired | Invalid

  /**
   * `verifyAccess` and `verifyRefresh` check against the access and refresh
   * secrets; `signAccess` and `signRefresh` are `generateAccessToken` and
   * `generateRefreshToken` of the record with that kind and id.
   */
  datatype Issuer = Issuer(
    verifyAccess: string -> Verdict,
    verifyRefresh: string -> Verdict,
    signAccess: (Kind, Id) -> string,
    signRefresh: (Kind, Id) -> string)

  datatype TokenPair = TokenPair(accessToken: string, refreshToken: string)

  /** The two cookies a session lives in; logging out in any form clears both. */
  const SessionCookies: set<string> := {"accessToken", "refreshToken"}

  /** A freshly signed access token verifies, and carries the id it was signed for. */
  ghost predicate AccessRoundTrips(issuer: Issuer) {
    forall k, id :: issuer.verifyAccess(issuer.signAccess(k, id)) == Verified(id)
  }
}
