/**
 * Stand-in for jsonwebtoken. A token is either one this application signed
 * (claims, signing key, issue time and lifetime in seconds) or any other cookie text.
 * Verification succeeds only for a signed token, with a non-empty key equal to the
 * signing key, before it expires; the cryptography is not modelled.
 */
module Jwt {
  import opened Wrappers

  /** The claims the handlers put in a token; the admin claims are absent from citizen tokens. */
  datatype Claims = Claims(
    userId: nat,
    email: string,
    userType: string,
    isAdmin: Option<bool>,
    adminLevel: Option<string>)

  datatype Token =
    | Signed(claims: Claims, key: string, issuedAt: int, lifetime: nat)
    | Raw(text: string)

  datatype Verdict = Valid(payload: Claims) | Invalid

  /** `jwt.sign(claims, key, { expiresIn: lifetime })` at time `now`. */
  function Sign(claims: Claims, key: string, now: int, lifetime: nat): (t: Token)
    ensures t.Signed? && t.claims == claims
  {
    Signed(claims, key, now, lifetime)
  }

  /**
   * `jwt.verify(token, key)` at time `now`: `Invalid` stands for every error it throws
   * (bad signature, expired, malformed, or a missing key).
   */
  function Verify(t: Token, key: string, now: int): (v: Verdict)
    ensures v.Valid? ==> t.Signed? && key != "" && t.key == key && v.payload == t.claims
    ensures v.Valid? ==> now < t.issuedAt + t.lifetime
  {
    match t
    case Signed(claims, k, issuedAt, lifetime) =>
      if key != "" && k == key && now < issuedAt + lifetime then Valid(claims) else Invalid
    case Raw(_) => Invalid
  }

  /** A token verifies under the key that signed it until its lifetime runs out. */
  lemma VerifySigned(claims: Claims, key: string, issued: int, lifetime: nat, now: int)
    requires key != ""
    ensures Verify(Sign(claims, key, issued, lifetime), key, now) ==
              if now < issued + lifetime then Valid(claims) else Invalid
  {
  }

  /** No other key accepts it. */
  lemma VerifyOtherKey(claims: Claims, key: string, other: string, issued: int, lifetime: nat, now: int)
    requires other != key
    ensures Verify(Sign(claims, key, issued, lifetime), other, now) == Invalid
  {
  }
}
