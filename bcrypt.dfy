/**
 * Stand-in for bcryptjs. A digest is symbolic: it records the password it was made
 * from and its cost factor, and comparison succeeds exactly for that password
 * (an idealised hash with no collisions). The algorithm itself is not modelled.
 */
module Bcrypt {

  datatype Digest = Digest(secret: string, cost: nat)

  /** Length of every encoded bcrypt digest (`$2a$12$` followed by salt and hash). */
  const EncodedLength: nat := 60

  /** `bcrypt.hash(plain, cost)`. */
  function Hash(plain: string, cost: nat): Digest {
    Digest(plain, cost)
  }

  /** `bcrypt.compare(plain, digest)`. */
  function Compare(plain: string, d: Digest): bool {
    d.secret == plain
  }

  /** Comparison accepts the password a digest was made from, and no other. */
  lemma CompareHash(plain: string, attempt: string, cost: nat)
    ensures Compare(attempt, Hash(plain, cost)) <==> attempt == plain
  {
  }
}
