/**
  AES-256-GCM and RSA-OAEP as parameters of the model: nothing below depends on how they work
  inside, only on the two contracts stated here. Randomness (keys, nonces, OAEP seeds) is always
  an argument.
 */
module Crypto {
  import opened Bytes

  const TAG_SIZE: nat := 16

  datatype Suite = Suite(
    seal: (bytes, bytes, bytes, bytes) -> bytes,          // key, nonce, associated data, plaintext
    open: (bytes, bytes, bytes, bytes) -> Option<bytes>,  // key, nonce, associated data, ciphertext
    wrap: (bytes, bytes) -> bytes,                        // raw key material, OAEP seed
    unwrap: bytes -> Option<bytes>,
    rsaLen: nat)

  /** The wrapped key material is always the 32-byte key followed by the 12-byte nonce base. */
  const WRAP_SIZE: nat := 44

  ghost predicate RsaSound(s: Suite)
  {
    && s.rsaLen < TWO_32
    && (forall raw, seed | |raw| == WRAP_SIZE ::
          s.unwrap(s.wrap(raw, seed)) == Some(raw) && |s.wrap(raw, seed)| == s.rsaLen)
  }

  ghost predicate TagLength(s: Suite)
  {
    forall k, n, a, p :: |s.seal(k, n, a, p)| == |p| + TAG_SIZE
  }

  /** What decryption needs in order to undo encryption. */
  ghost predicate Sound(s: Suite)
  {
    && RsaSound(s)
    && TagLength(s)
    && (forall k, n, a, p :: s.open(k, n, a, s.seal(k, n, a, p)) == Some(p))
  }

  datatype Sealing = Sealing(nonce: bytes, aad: bytes, plain: bytes)

  /**
    The ideal AEAD under one key: `table` lists every sealing made with that key, and opening
    succeeds exactly on those ciphertexts, under the nonce and associated data they were made for.
   */
  ghost predicate IdealFor(s: Suite, key: bytes, table: set<Sealing>)
  {
    && RsaSound(s)
    && TagLength(s)
    && (forall n, a, c, p ::
          s.open(key, n, a, c) == Some(p) <==> (Sealing(n, a, p) in table && c == s.seal(key, n, a, p)))
  }

  const TOY_TAG: bytes := seq(TAG_SIZE, _ => 0)

  /** The smallest suite there is: the plaintext followed by a constant tag, opened only if `known`. */
  ghost function ToySuite(known: Sealing -> bool): (s: Suite)
    ensures RsaSound(s) && TagLength(s)
  {
    Suite((k, n, a, p) => p + TOY_TAG,
          (k, n, a, c) =>
            if |c| >= TAG_SIZE && c[|c| - TAG_SIZE..] == TOY_TAG && known(Sealing(n, a, c[..|c| - TAG_SIZE]))
            then Some(c[..|c| - TAG_SIZE]) else None,
          (raw: bytes, seed: bytes) => raw,
          (b: bytes) => Some(b),
          WRAP_SIZE)
  }

  lemma ToyOpens(known: Sealing -> bool, k: bytes, n: bytes, a: bytes, p: bytes, c: bytes)
    ensures var s := ToySuite(known);
            s.open(k, n, a, c) == Some(p) <==> (known(Sealing(n, a, p)) && c == s.seal(k, n, a, p))
  {
    var t := p + TOY_TAG;
    assert t[..|t| - TAG_SIZE] == p && t[|t| - TAG_SIZE..] == TOY_TAG;
    if |c| >= TAG_SIZE {
      assert c == c[..|c| - TAG_SIZE] + c[|c| - TAG_SIZE..];
    }
  }

  /** Both contracts are satisfiable, the ideal one for every table, so no theorem below is vacuous. */
  lemma SuitesExist(key: bytes, table: set<Sealing>)
    ensures exists s :: Sound(s)
    ensures exists s :: IdealFor(s, key, table)
  {
    var plain := ToySuite(_ => true);
    forall k, n, a, p ensures plain.open(k, n, a, plain.seal(k, n, a, p)) == Some(p) {
      ToyOpens(_ => true, k, n, a, p, plain.seal(k, n, a, p));
    }
    assert Sound(plain);
    var ideal := ToySuite(x => x in table);
    forall n, a, c, p
      ensures ideal.open(key, n, a, c) == Some(p)
              <==> (Sealing(n, a, p) in table && c == ideal.seal(key, n, a, p))
    {
      ToyOpens(x => x in table, key, n, a, p, c);
    }
    assert IdealFor(ideal, key, table);
  }
}
