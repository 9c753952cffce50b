/**
 * The bcrypt library as the signup and login handlers use it:
 * `bcrypt.hash(password, 10)` and `bcrypt.compare(password, hash)`.
 * The random salt is a parameter; the digest function is a stand-in.
 */
module Password {
  import opened Text

  /** The work factor passed to `bcrypt.hash`. */
  const SaltRounds: nat := 10

  /** What a bcrypt hash string records: cost, salt and checksum, never the password. */
  datatype Digest = Digest(cost: nat, salt: string, checksum: nat)

  function Checksum(cost: nat, salt: string, password: string): nat {
    Fingerprint(Decimal(cost) + "$" + salt + "$" + password)
  }

  /** `bcrypt.compare`: recompute the checksum with the cost and salt the hash records. */
  predicate Matches(password: string, h: Digest) {
    Checksum(h.cost, h.salt, password) == h.checksum
  }

  /** `bcrypt.compare` accepts exactly the password a hash was made from. */
  lemma MatchesExactly(password: string, attempt: string, salt: string)
    ensures Matches(attempt, Hash(password, salt)) <==> attempt == password
  {
    var prefix := Decimal(SaltRounds) + "$" + salt + "$";
    if Matches(attempt, Hash(password, salt)) {
      FingerprintInjective(prefix + attempt, prefix + password);
      PrefixCancel(prefix, attempt, password);
    }
  }

  /** `bcrypt.hash(password, 10)` with the salt it drew. */
  function Hash(password: string, salt: string): (h: Digest)
    ensures h.cost == SaltRounds && h.salt == salt
    ensures Matches(password, h)
  {
    Digest(SaltRounds, salt, Checksum(SaltRounds, salt, password))
  }
}
