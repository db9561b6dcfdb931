/** IV and tag framing of server-side chunk encryption over an abstract AEAD cipher. */
module ServerCrypto {
  import opened Basics

  const IV_LENGTH := 12
  const TAG_LENGTH := 16

  /** AES-256-GCM under the server key: sealing gives ciphertext and tag, opening checks the tag. */
  datatype Aead = Aead(seal: (Bytes, Bytes) -> (Bytes, Bytes), open: (Bytes, Bytes, Bytes) -> Option<Bytes>)
  {
    /** Opening succeeds exactly on what sealing produced; sealing keeps the length. */
    ghost predicate Lawful() {
      && (forall iv, p :: |seal(iv, p).0| == |p| && |seal(iv, p).1| == TAG_LENGTH)
      && (forall iv, c, t, p :: open(iv, c, t) == Some(p) <==> seal(iv, p) == (c, t))
    }
  }

  datatype CryptoError = TooShort | BadTag

  function EncryptServerSide(a: Aead, iv: Bytes, plaintext: Bytes): Bytes {
    iv + a.seal(iv, plaintext).0 + a.seal(iv, plaintext).1
  }

  function DecryptServerSide(a: Aead, wrapped: Bytes): Result<Bytes, CryptoError> {
    if |wrapped| < IV_LENGTH + TAG_LENGTH then Err(TooShort)
    else
      var iv, tag := wrapped[..IV_LENGTH], wrapped[|wrapped| - TAG_LENGTH..];
      match a.open(iv, wrapped[IV_LENGTH..|wrapped| - TAG_LENGTH], tag)
      case Some(p) => Ok(p)
      case None => Err(BadTag)
  }

  function PlaintextSizeFor(ciphertextSize: nat): nat { Max(0, ciphertextSize - IV_LENGTH - TAG_LENGTH) }

  /** Decryption yields p exactly on an encryption of p under the leading 12 bytes. */
  lemma DecryptsIffEncrypted(a: Aead, wrapped: Bytes, p: Bytes)
    requires a.Lawful()
    ensures DecryptServerSide(a, wrapped) == Ok(p)
      <==> |wrapped| >= IV_LENGTH && wrapped == EncryptServerSide(a, wrapped[..IV_LENGTH], p)
  {
    if |wrapped| >= IV_LENGTH + TAG_LENGTH {
      var n := |wrapped| - TAG_LENGTH;
      var iv, c, t := wrapped[..IV_LENGTH], wrapped[IV_LENGTH..n], wrapped[n..];
      assert wrapped == iv + c + t;
      var (sc, st) := a.seal(iv, p);
      if wrapped == iv + sc + st {
        assert |sc| == |c|;
        assert sc == wrapped[IV_LENGTH..IV_LENGTH + |sc|] == c;
        assert st == wrapped[IV_LENGTH + |sc|..] == t;
      }
    } else if |wrapped| >= IV_LENGTH {
      assert |EncryptServerSide(a, wrapped[..IV_LENGTH], p)| >= IV_LENGTH + TAG_LENGTH;
    }
  }

  /** Round trip, and the size law that lets range offsets be computed from stored sizes alone. */
  lemma RoundTrip(a: Aead, iv: Bytes, p: Bytes)
    requires a.Lawful() && |iv| == IV_LENGTH
    ensures DecryptServerSide(a, EncryptServerSide(a, iv, p)) == Ok(p)
    ensures PlaintextSizeFor(|EncryptServerSide(a, iv, p)|) == |p|
  {
    var wrapped := EncryptServerSide(a, iv, p);
    assert wrapped[..IV_LENGTH] == iv;
    DecryptsIffEncrypted(a, wrapped, p);
  }

  /** What is stored: the IV, the ciphertext and the tag in this order; fewer than 28 bytes are refused as too short. */
  lemma Framing(a: Aead, iv: Bytes, p: Bytes, wrapped: Bytes)
    requires a.Lawful() && |iv| == IV_LENGTH
    ensures wrapped == EncryptServerSide(a, iv, p) <==>
      && |wrapped| == |p| + 28 && wrapped[..12] == iv
      && wrapped[12..|wrapped| - 16] == a.seal(iv, p).0 && wrapped[|wrapped| - 16..] == a.seal(iv, p).1
    ensures DecryptServerSide(a, wrapped) == Err(TooShort) <==> |wrapped| < 28
  {
    var c, t := a.seal(iv, p).0, a.seal(iv, p).1;
    if |wrapped| == |p| + 28 {
      assert wrapped == wrapped[..12] + wrapped[12..|wrapped| - 16] + wrapped[|wrapped| - 16..];
    }
    assert (iv + c + t)[..12] == iv && (iv + c + t)[12..|p| + 12] == c && (iv + c + t)[|p| + 12..] == t;
  }

  /** A readable stored chunk always has the plaintext size its stored length announces. */
  lemma AnnouncedSize(a: Aead, wrapped: Bytes, p: Bytes)
    requires a.Lawful() && DecryptServerSide(a, wrapped) == Ok(p)
    ensures PlaintextSizeFor(|wrapped|) == |p|
  {
    DecryptsIffEncrypted(a, wrapped, p);
  }
}
