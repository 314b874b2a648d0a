/**
 * What the controller sees of jsonwebtoken and of the token utility:
 * a pair of freshly signed tokens, the decoded claims, and a verifier
 * that either decodes a token or fails with an expiry error or some other error.
 */
module Tokens {
  import opened UserStore

  /** What `generateTokens(id)` returns. Signing is not modelled: callers supply the pair. */
  datatype TokenPair = TokenPair(access: string, refresh: string)

  /** A decoded token: the user id it was issued for. */
  datatype Claims = Claims(id: UserId)

  /**
   * The result of `jwt.verify(token, secret)`: the claims, a `TokenExpiredError`,
   * or any other verification error (bad signature, malformed or empty token).
   */
  datatype Verdict = Valid(claims: Claims) | Expired | Invalid

  /** The two signing secrets read from the environment. */
  datatype Secrets = Secrets(access: string, refresh: string)

  /** The verifier oracle. */
  type Verifier = (string, string) -> Verdict

  /**
   * A token field of a request body is present when it is truthy. An absent,
   * null or empty field is modelled as "".
   */
  predicate Present(token: string) {
    token != ""
  }

  /**
   * `jwt.verify` applied to a request field: a falsy token is rejected with a
   * non-expiry error before the oracle is consulted.
   */
  function VerifyToken(verify: Verifier, token: string, secret: string): Verdict {
    if Present(token) then verify(token, secret) else Invalid
  }
}
