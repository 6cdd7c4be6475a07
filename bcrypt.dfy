/**
 * bcrypt, idealised. `hash(password, rounds)` with a random salt, and `compare(password,
 * hash)`. The digest is modelled as collision-free: it remembers the password it was
 * computed from, and nothing outside this module looks at that field; callers only
 * ever hash and compare.
 */
module Bcrypt {

  /** The cost factor the users service passes to `bcrypt.hash`. */
  const SaltRounds: nat := 10

  datatype Hash = Digest(rounds: nat, salt: string, preimage: string)

  /**
   * `bcrypt.hash(password, rounds)`, with the random salt as a parameter: the hash keeps
   * the cost and the salt, and accepts the password it was made from and no other.
   */
  function HashPassword(password: string, rounds: nat, salt: string): (h: Hash)
    ensures h.rounds == rounds && h.salt == salt
    ensures forall attempt :: Compare(attempt, h) <==> attempt == password
  {
    Digest(rounds, salt, password)
  }

  /**
   * `bcrypt.compare(password, hash)`: re-hashing with the cost and salt stored in the hash
   * reproduces it exactly for the password it was made from; see `CompareRehashes`.
   */
  predicate Compare(password: string, hash: Hash)
  {
    password == hash.preimage
  }

  /** A hash accepts the password it was made from and no other, whatever the salt. */
  lemma CompareHashed(password: string, attempt: string, rounds: nat, salt: string)
    ensures Compare(attempt, HashPassword(password, rounds, salt)) <==> attempt == password
  {
  }

  /** `compare` agrees with re-hashing the attempt under the hash's own cost and salt. */
  lemma CompareRehashes(attempt: string, hash: Hash)
    ensures Compare(attempt, hash) <==> HashPassword(attempt, hash.rounds, hash.salt) == hash
  {
  }
}
