/** The external capabilities the ledger relies on, left uninterpreted, and
    the proof-of-work test the miners run against the digest. */
module Crypto {
  import opened JsText

  /** The digest function (hex SHA-256), the signing service (RSA over the digest
      text) and `JSON.stringify`. They are a parameter of every operation that
      hashes, signs or verifies, so everything proved here holds for any choice of them. */
  datatype Primitives = Primitives(
    digest: string -> string,
    sign: (string, string) -> string,          // sign(digest, privateKey)
    verify: (string, string, string) -> bool,  // verify(publicKey, digest, signature)
    stringify: Json -> string)                 // JSON.stringify

  /** `publicKey` and `privateKey` form a key pair: what the private key signs the
      public key verifies, and a signature is never the empty hex string. */
  ghost predicate KeyPair(p: Primitives, publicKey: string, privateKey: string) {
    forall d :: p.sign(d, privateKey) != "" && p.verify(publicKey, d, p.sign(d, privateKey))
  }

  /** The digest is collision free and distinct values have distinct JSON texts;
      used only by the lemmas about tampering. */
  ghost predicate Injective(p: Primitives) {
    && (forall a, b :: p.digest(a) == p.digest(b) ==> a == b)
    && (forall u, v :: p.stringify(u) == p.stringify(v) ==> u == v)
  }

  /** The mining loop's exit test: `hash.substring(0, d) === Array(d + 1).join('0')`. */
  predicate Mined(hash: string, difficulty: nat) {
    Substring(hash, difficulty) == Zeros(difficulty)
  }

  /** The exit test holds exactly when the hash starts with `difficulty` characters '0'. */
  lemma MinedIff(hash: string, difficulty: nat)
    ensures Mined(hash, difficulty) <==>
            difficulty <= |hash| && forall i :: 0 <= i < difficulty ==> hash[i] == '0'
  {
    if difficulty <= |hash| && forall i :: 0 <= i < difficulty ==> hash[i] == '0' {
      assert Substring(hash, difficulty) == Zeros(difficulty);
    }
  }
}
