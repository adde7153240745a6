/**
 * A stand-in for the bcrypt library: a one-way salted hash and its compare.
 * A digest remembers the plaintext it was made from, so that `Compare` can be
 * defined; nothing in the model ever reads `plain` except `Compare`.
 */
module Bcrypt {

  /** What a client may present as a hash: one that `Hash` produced, or any other text. */
  datatype Digest = Hashed(salt: nat, plain: string) | Text(text: string)

  /** bcrypt.hash(s, rounds) with the random salt it draws. */
  function Hash(s: string, salt: nat): (d: Digest)
    ensures Compare(s, d)
    ensures forall t :: Compare(t, d) ==> t == s
  {
    Hashed(salt, s)
  }

  /** bcrypt.compare(s, d). */
  predicate Compare(s: string, d: Digest) {
    d.Hashed? && d.plain == s
  }

  /** The one property the model relies on: a digest verifies s iff it was produced from s. */
  lemma CompareIffHashed(s: string, d: Digest)
    ensures Compare(s, d) <==> exists salt :: d == Hash(s, salt)
  {
    if Compare(s, d) {
      assert d == Hash(s, d.salt);
    }
  }
}
