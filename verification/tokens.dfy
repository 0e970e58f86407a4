/**
 * Signed bearer tokens (JSON Web Tokens signed with HS256), taken
 * abstractly: a token is the claims it carries, its issue and expiry
 * instants, its algorithm and the key it was signed with. Signing and
 * verifying are the library's; only what they promise is modelled:
 * a token verifies with the key it was signed with, before it expires.
 */
module Tokens {
  import opened Wrappers
  import opened Strings
  import opened UserEntity

  /** `expiresIn: "1d"`, in seconds. */
  const OneDay: int := 86400

  /** The only algorithm tokens are signed and verified with. */
  const HS256: string := "HS256"

  /** The secret used when `JWT_SECRET` is not set (or is empty). */
  const DefaultSecret: string := "your-jwt-secret"

  /** The claims payload `{ uid, email, role }`. */
  datatype Claims = Claims(uid: string, email: string, role: string)

  /** A signed token. Times are in whole seconds since the epoch. */
  datatype Jwt = Jwt(claims: Claims, issuedAt: int, expiresAt: int, algorithm: string, key: string)

  /** `process.env.JWT_SECRET || "your-jwt-secret"`. */
  function SigningSecret(env: Option<string>): (k: string)
    ensures k != ""
    ensures !Falsy(env) ==> k == env.value
    ensures Falsy(env) ==> k == DefaultSecret
  {
    if Falsy(env) then DefaultSecret else env.value
  }

  /** The claims a token for `u` carries: its id, its email and its role, "user" by default. */
  function ClaimsOf(u: User): (c: Claims)
    ensures c.uid == u.id && c.email == u.email
    ensures c.role == RoleOrUser(u.role)
  {
    Claims(u.id, u.email, RoleOrUser(u.role))
  }

  /**
   * `jwt.sign(claims, key, { expiresIn: "1d", algorithm: "HS256" })` at
   * instant `now` (milliseconds): issued at the whole second, expiring a
   * day later.
   */
  function Sign(claims: Claims, key: string, now: Time): (t: Jwt)
    ensures t.claims == claims && t.key == key && t.algorithm == HS256
    ensures t.issuedAt * 1000 <= now < t.issuedAt * 1000 + 1000
    ensures t.expiresAt == t.issuedAt + OneDay
  {
    Jwt(claims, now / 1000, now / 1000 + OneDay, HS256, key)
  }

  /**
   * `jwt.verify(token, key, { algorithms: ["HS256"] })` at instant `now`
   * (seconds): the claims, when the token was signed with `key` under
   * HS256 and has not expired.
   */
  function Verify(t: Jwt, key: string, now: int): (r: Option<Claims>)
    ensures r.Some? <==> t.key == key && t.algorithm == HS256 && now < t.expiresAt
    ensures r.Some? ==> r.value == t.claims
  {
    if t.key == key && t.algorithm == HS256 && now < t.expiresAt then Some(t.claims) else None
  }

  /** A token verifies, with the key it was signed with, to its claims for one day after signing. */
  lemma VerifySigned(c: Claims, key: string, signedAt: Time, now: int)
    requires signedAt / 1000 <= now < signedAt / 1000 + OneDay
    ensures Verify(Sign(c, key, signedAt), key, now) == Some(c)
  {
  }

  /** From a day after signing on, a token no longer verifies. */
  lemma VerifyRejectsExpired(c: Claims, key: string, signedAt: Time, now: int)
    requires now >= signedAt / 1000 + OneDay
    ensures Verify(Sign(c, key, signedAt), key, now) == None
  {
  }

  /** A token never verifies under a key other than the one it was signed with. */
  lemma VerifyRejectsOtherKey(c: Claims, key: string, other: string, signedAt: Time, now: int)
    requires other != key
    ensures Verify(Sign(c, key, signedAt), other, now) == None
  {
  }
}
