/**
 * JSON Web Tokens (RFC 7519) as the jsonwebtoken package's `sign` produces them,
 * with the signature left opaque: a token is its payload, its sign options and
 * the key it was signed with.
 */
module Jwt {
  import opened Wrappers

  /** The two algorithms of section 3.1 of RFC 7518 the core uses. */
  datatype Alg = RS256 | HS256

  /** The private claims the core puts in a token: `sub` (section 4.1.2 of RFC 7519) and `role`. */
  datatype Payload = Payload(sub: string, role: Option<string>)

  /**
   * `expiresIn` becomes the `exp` claim (section 4.1.4 of RFC 7519), `issuer` the
   * `iss` claim (section 4.1.1 of RFC 7519) and `jwtid` the `jti` claim (section
   * 4.1.7 of RFC 7519).
   */
  datatype SignOptions = SignOptions(algorithm: Alg, expiresIn: string, issuer: string, jwtid: Option<string>)

  datatype Token = Signed(payload: Payload, key: string, options: SignOptions)

  /** `sign(payload, key, options)`; the signature itself is not computed. */
  function Sign(payload: Payload, key: string, options: SignOptions): Token {
    Signed(payload, key, options)
  }
}
