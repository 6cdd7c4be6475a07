/**
 * The JSON Web Token codec, as `jsonwebtoken` (behind `@nestjs/jwt`) behaves for the
 * calls the users service makes: `sign(payload, {secret, expiresIn})` and
 * `verify(token, {secret})`. Signing and the signature check are abstract: a token
 * records the secret it was signed with, and verification compares secrets.
 * Times are whole seconds, as in the `iat`/`exp` claims.
 */
module Jwt {
  import opened Wrappers

  /** Why `verify` throws. */
  datatype Error =
    | Malformed         // not a compact JWS at all ("jwt malformed")
    | InvalidSignature  // signature does not match the secret ("invalid signature")
    | Expired           // TokenExpiredError: the clock has reached `exp`

  /**
   * A token string as it travels in a header or an argument: either something `sign`
   * produced, or arbitrary text (the empty string included). A well-formed token whose
   * signature was tampered with or forged is written `Signed(s, p, exp)` with a secret `s`
   * that is not configured, so it fails with `InvalidSignature`, as the library reports it.
   */
  datatype Token<P> =
    | Signed(secret: string, payload: P, exp: int)
    | Garbled(text: string)

  /**
   * `sign(payload, {secret, expiresIn: ttl})` at time `now`: the token verifies to the
   * payload under its secret until `now + ttl`, is expired from then on, and is rejected
   * under every other secret.
   */
  function Sign<P>(payload: P, secret: string, now: int, ttl: int): (t: Token<P>)
    ensures forall at :: now <= at < now + ttl ==> Verify(t, secret, at) == Ok(payload)
    ensures forall at :: at >= now + ttl ==> Verify(t, secret, at) == Err(Expired)
    ensures forall other, at :: other != secret ==> Verify(t, other, at) == Err(InvalidSignature)
  {
    Signed(secret, payload, now + ttl)
  }

  /**
   * `verify(token, {secret})` at time `now`: structure first, then the signature,
   * then expiry; a token is still valid strictly before its `exp`.
   */
  function Verify<P>(token: Token<P>, secret: string, now: int): (r: Result<P, Error>)
    ensures r.Ok? <==> token.Signed? && token.secret == secret && now < token.exp
    ensures r.Ok? ==> r.value == token.payload
    ensures token.Garbled? ==> r == Err(Malformed)
    ensures token.Signed? && token.secret != secret ==> r == Err(InvalidSignature)
    ensures token.Signed? && token.secret == secret && now >= token.exp ==> r == Err(Expired)
  {
    match token
    case Garbled(_) => Err(Malformed)
    case Signed(s, p, exp) =>
      if s != secret then Err(InvalidSignature)
      else if now >= exp then Err(Expired)
      else Ok(p)
  }

  /** Round trip: what was signed verifies, under the same secret, until its lifetime ends. */
  lemma SignThenVerify<P>(payload: P, secret: string, now: int, ttl: int, t: int)
    requires now <= t < now + ttl
    ensures Verify(Sign(payload, secret, now, ttl), secret, t) == Ok(payload)
  {
  }

  /** Once `ttl` seconds have passed, verification fails with `Expired`. */
  lemma SignedTokenExpires<P>(payload: P, secret: string, now: int, ttl: int, t: int)
    requires t >= now + ttl
    ensures Verify(Sign(payload, secret, now, ttl), secret, t) == Err(Expired)
  {
  }

  /** Secrets partition trust: a token never verifies under a secret it was not signed with. */
  lemma OtherSecretRejects<P>(payload: P, secret: string, other: string, now: int, ttl: int, t: int)
    requires other != secret
    ensures Verify(Sign(payload, secret, now, ttl), other, t) == Err(InvalidSignature)
  {
  }
}
