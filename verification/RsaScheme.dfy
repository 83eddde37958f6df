/** Encryption and signatures of tpm-emulator/crypto/rsa.c, lines 512-562: an encoding followed
    by an RSA operation on the same buffer, and the reverse. */
module RsaScheme {
  import opened NumberTheory
  import opened Bytes
  import opened Wrappers
  import opened Rsa
  import opened RsaPadding

  /** A valid key of L bytes; the modulus of an imported one may have leading zero bytes. */
  ghost predicate KeyOf(k: PrivateKey, L: nat) {
    && ValidKey(k)
    && L > 0
    && k.size == 8 * L
    && k.n < Pow(256, L)
  }

  /** The modulus has no leading zero byte, as those of generated keys. */
  ghost predicate FullLength(k: PrivateKey, L: nat)
    requires L > 0
  {
    Pow(256, L - 1) <= k.n
  }

  /** Results of the RSA operations fit the buffer. */
  lemma ResultFits(k: PrivateKey, L: nat, x: nat, e: nat)
    requires KeyOf(k, L)
    ensures |ToBytes(PowMod(x, e, k.n))| <= L
    ensures OfBytes(Fixed(PowMod(x, e, k.n), L)) == PowMod(x, e, k.n)
  {
    FixedRoundTrip(PowMod(x, e, k.n), L);
  }

  /** An encoded message starts with a zero byte, so it is below the modulus. */
  lemma EncodedBelow(k: PrivateKey, em: seq<byte>)
    requires KeyOf(k, |em|) && FullLength(k, |em|) && em[0] == 0
    ensures OfBytes(em) < k.n
  {
    assert em == Zeros(1) + em[1..];
    OfBytesPadded(1, em[1..]);
    OfBytesBound(em[1..]);
  }

  lemma {:induction false} NonZeroByte(s: seq<byte>, i: nat)
    requires i < |s| && s[i] != 0
    ensures OfBytes(s) > 0
  {
    if i < |s| - 1 {
      NonZeroByte(s[..|s| - 1], i);
    } else {
      NonZeroValue(s[i]);
    }
  }

  lemma NonZeroValue(b: byte)
    requires b != 0
    ensures b as nat > 0
  {
    assert ((b as nat) as byte) == b;
  }

  /** A nonzero message below n has a nonzero image. */
  lemma ImageNonZero(k: PrivateKey, x: nat)
    requires ValidKey(k) && 0 < x < k.n
    ensures PowMod(x, k.e, k.n) > 0 && PowMod(x, k.d, k.n) > 0
  {
    OperationsInverse(k, x);
    if PowMod(x, k.e, k.n) == 0 { PowerOfZero(k.d, k.n); }
    if PowMod(x, k.d, k.n) == 0 { PowerOfZero(k.e, k.n); }
  }

  /** Raising zero gives zero or, for exponent zero, one; and one is not the image of a larger x. */
  lemma PowerOfZero(e: nat, n: nat)
    requires n > 1
    ensures PowMod(0, e, n) == if e == 0 then 1 else 0
  {
    if e == 0 { Quotient(1, 0, 1, n); } else { Quotient(0, 0, 0, n); }
  }

  // ---- what the four operations compute

  ghost function Encrypted(k: PrivateKey, em: seq<byte>): (c: seq<byte>)
    requires KeyOf(k, |em|)
    ensures |c| == |em|
  {
    ResultFits(k, |em|, OfBytes(em), k.e);
    Fixed(PowMod(OfBytes(em), k.e, k.n), |em|)
  }

  ghost function Signed(k: PrivateKey, em: seq<byte>): (c: seq<byte>)
    requires KeyOf(k, |em|)
    ensures |c| == |em|
  {
    ResultFits(k, |em|, OfBytes(em), k.d);
    Fixed(PowMod(OfBytes(em), k.d, k.n), |em|)
  }

  /** On the fixed-length buffers, each operation undoes the other. */
  lemma BuffersInverse(k: PrivateKey, em: seq<byte>)
    requires KeyOf(k, |em|) && OfBytes(em) < k.n
    ensures Signed(k, Encrypted(k, em)) == em && Encrypted(k, Signed(k, em)) == em
  {
    ResultFits(k, |em|, OfBytes(em), k.e);
    ResultFits(k, |em|, OfBytes(em), k.d);
    OperationsInverse(k, OfBytes(em));
    FixedOfBytes(em);
  }

  /** `tpm_rsa_encrypt`: succeeds exactly on the messages the scheme can encode, and leaves the
      e-th power of the encoding in the buffer. */
  method Encrypt(H: Hash, k: PrivateKey, scheme: Scheme, data: seq<byte>, random: seq<byte>,
                 out: array<byte>) returns (ok: bool)
    requires IsHash(H) && KeyOf(k, out.Length)
    requires Encodable(scheme, data, out.Length) ==> RandomFor(scheme, data, out.Length, random)
    modifies out
    ensures ok <==> Encodable(scheme, data, out.Length)
    ensures !ok ==> out[..] == old(out[..])
    ensures ok ==> var em := Encoding(H, scheme, data, random, out.Length);
      && |ToBytes(PowMod(OfBytes(em), k.e, k.n))| <= |em|
      && out[..] == Held(PowMod(OfBytes(em), k.e, k.n), em)
      && (OfBytes(em) % k.n > 0 ==> out[..] == Encrypted(k, em))
  {
    ok := EncodeMessage(H, scheme, data, random, out);
    if !ok { return; }
    ghost var em := out[..];
    ResultFits(k, out.Length, OfBytes(em), k.e);
    ok := PublicOp(k.n, k.e, k.size, out[..], out);
    if OfBytes(em) % k.n > 0 { ReducedNonZero(k, OfBytes(em)); }
  }

  lemma ReducedNonZero(k: PrivateKey, x: nat)
    requires ValidKey(k) && x % k.n > 0
    ensures PowMod(x, k.e, k.n) > 0 && PowMod(x, k.d, k.n) > 0
  {
    CongMod(x, k.n);
    ImageNonZero(k, x % k.n);
    SameImage(x, x % k.n, k.e, k.n);
    SameImage(x, x % k.n, k.d, k.n);
  }

  lemma SameImage(x: nat, y: nat, e: nat, n: nat)
    requires n > 0 && Cong(x, y, n)
    ensures PowMod(x, e, n) == PowMod(y, e, n)
  {
    CongPow(x, y, e, n);
    CongModEqual(Pow(x, e), Pow(y, e), n);
  }

  /** `tpm_rsa_decrypt`: what the decoder makes of the buffer after the private operation. */
  method Decrypt(H: Hash, k: PrivateKey, scheme: Scheme, input: seq<byte>, out: array<byte>)
    returns (ok: bool, len: nat)
    requires IsHash(H) && KeyOf(k, out.Length)
    modifies out
    ensures |input| != out.Length || |input| < 11 ==> !ok && out[..] == old(out[..])
    ensures |input| == out.Length && |input| >= 11 ==>
      && |ToBytes(PowMod(OfBytes(input), k.d, k.n))| <= |input|
      && var em := Held(PowMod(OfBytes(input), k.d, k.n), old(out[..]));
         && (ok <==> Decoding(H, scheme, em).Some?)
         && (ok ==> len <= out.Length && Decoding(H, scheme, em) == Some(out[..len]))
         && (OfBytes(input) % k.n > 0 ==> em == Signed(k, input))
  {
    len := out.Length;
    if |input| != out.Length || |input| < 11 { return false, len; }
    ResultFits(k, out.Length, OfBytes(input), k.d);
    ok := PrivateOp(k, input, out);
    if !ok { return; }
    if OfBytes(input) % k.n > 0 { ReducedNonZero(k, OfBytes(input)); }
    ok, len := DecodeMessage(H, scheme, out);
  }

  /** The buffer after encryption: the e-th power written over the encoding. */
  ghost function Ciphertext(k: PrivateKey, em: seq<byte>): (c: seq<byte>)
    requires KeyOf(k, |em|)
    ensures |c| == |em|
  {
    ResultFits(k, |em|, OfBytes(em), k.e);
    Held(PowMod(OfBytes(em), k.e, k.n), em)
  }

  /** The buffer before decoding: the d-th power written over what was there. */
  ghost function Recovered(k: PrivateKey, c: seq<byte>, before: seq<byte>): (em: seq<byte>)
    requires KeyOf(k, |c|) && |before| == |c|
    ensures |em| == |c|
  {
    ResultFits(k, |c|, OfBytes(c), k.d);
    Held(PowMod(OfBytes(c), k.d, k.n), before)
  }

  /** What comes back of any buffer: itself if it is below the modulus and not zero, a zero buffer
      with the old last byte, and otherwise the remainder. */
  lemma ComesBack(k: PrivateKey, em: seq<byte>, before: seq<byte>)
    requires KeyOf(k, |em|) && |before| == |em|
    ensures var back := Recovered(k, Ciphertext(k, em), before);
      && (0 < OfBytes(em) < k.n ==> back == em)
      && (OfBytes(em) == 0 ==> back == Zeros(|em| - 1) + [before[|em| - 1]])
      && (OfBytes(em) % k.n > 0 ==> OfBytes(back) == OfBytes(em) % k.n)
  {
    var x, c := OfBytes(em), Ciphertext(k, em);
    ResultFits(k, |em|, x, k.e);
    ResultFits(k, |em|, OfBytes(c), k.d);
    if x == 0 {
      ZeroStays(k);
      ZeroBuffer(em);
      ZeroBuffer(c);
    } else if x % k.n > 0 {
      BackReduced(k, em, c);
      FixedOfBytes(em);
      if x < k.n { Quotient(x, 0, x, k.n); }
    } else if x < k.n {
      Quotient(x, 0, x, k.n);
    }
  }

  lemma ZeroBuffer(s: seq<byte>)
    ensures OfBytes(s) == 0 <==> s == Zeros(|s|)
  {
    if s == Zeros(|s|) {
      OfBytesPadded(|s|, []);
      assert s == Zeros(|s|) + [];
    } else {
      var i :| 0 <= i < |s| && s[i] != 0;
      NonZeroByte(s, i);
    }
  }

  /** Whatever message, padding or seed, and whatever the output buffer held before: decrypting the
      ciphertext of a nonzero encoding below the modulus returns exactly the message. Every encoding
      is below a modulus of full length; a zero encoding returns what the decoder makes of zeros and
      the old last byte of the output buffer, which is the message if that byte is zero. */
  lemma EncryptThenDecrypt(H: Hash, k: PrivateKey, L: nat, scheme: Scheme, data: seq<byte>,
                           random: seq<byte>, before: seq<byte>)
    requires IsHash(H) && KeyOf(k, L) && |before| == L
    requires scheme == EsPkcs15 || scheme == EsOaep
    requires Encodable(scheme, data, L) && RandomFor(scheme, data, L, random)
    ensures
      var em := Encoding(H, scheme, data, random, L);
      var got := Decoding(H, scheme, Recovered(k, Ciphertext(k, em), before));
      && (FullLength(k, L) ==> OfBytes(em) < k.n)
      && (0 < OfBytes(em) < k.n ==> got == Some(data))
      && (OfBytes(em) == 0 ==> got == Decoding(H, scheme, Zeros(L - 1) + [before[L - 1]]))
      && (OfBytes(em) == 0 && before[L - 1] == 0 ==> got == Some(data))
  {
    var em := Encoding(H, scheme, data, random, L);
    if FullLength(k, L) { EncodedBelow(k, em); }
    DecodesBack(H, scheme, data, random, L);
    ComesBack(k, em, before);
    if OfBytes(em) == 0 && before[L - 1] == 0 {
      ZeroBuffer(em);
      assert Zeros(L - 1) + [before[L - 1]] == em;
    }
  }

  lemma DecodesBack(H: Hash, scheme: Scheme, data: seq<byte>, random: seq<byte>, L: nat)
    requires IsHash(H) && (scheme == EsPkcs15 || scheme == EsOaep)
    requires Encodable(scheme, data, L) && RandomFor(scheme, data, L, random)
    ensures Decoding(H, scheme, Encoding(H, scheme, data, random, L)) == Some(data)
  {
    if scheme == EsPkcs15 { Pkcs15RoundTrip(data, random); } else { OaepRoundTrip(H, data, random, L); }
  }

  /** Zero is its own image. */
  lemma ZeroStays(k: PrivateKey)
    requires ValidKey(k)
    ensures PowMod(0, k.e, k.n) == 0 && PowMod(0, k.d, k.n) == 0
  {
    OperationsInverse(k, 0);
    PowerOfZero(k.e, k.n);
    PowerOfZero(k.d, k.n);
    OneStays(k.e, k.n);
    OneStays(k.d, k.n);
  }

  lemma OneStays(e: nat, n: nat)
    requires n > 1
    ensures PowMod(1, e, n) == 1
  {
    PowOne(e);
    Quotient(1, 0, 1, n);
  }

  /** What comes back is the encoding reduced by the modulus. */
  lemma BackReduced(k: PrivateKey, em: seq<byte>, c: seq<byte>)
    requires KeyOf(k, |em|) && OfBytes(em) % k.n > 0 && |ToBytes(PowMod(OfBytes(em), k.e, k.n))| <= |em|
    requires c == Held(PowMod(OfBytes(em), k.e, k.n), em)
    ensures PowMod(OfBytes(c), k.d, k.n) == OfBytes(em) % k.n
  {
    var x := OfBytes(em);
    ReducedNonZero(k, x);
    ResultFits(k, |em|, x, k.e);
    CongMod(x, k.n);
    SameImage(x, x % k.n, k.e, k.n);
    OperationsInverse(k, x % k.n);
  }

  /** PKCS#1 v1.5 messages are never zero, so the round trip covers all of them. */
  lemma Pkcs15NonZero(data: seq<byte>, pad: seq<byte>)
    ensures OfBytes(Pkcs15(data, pad)) > 0
  {
    NonZeroByte(Pkcs15(data, pad), 1);
  }

  // ---- signatures

  predicate SignatureScheme(scheme: Scheme) {
    scheme.SsaSha1? || scheme.SsaSha1Raw? || scheme.SsaDer?
  }

  /** `tpm_rsa_sign`: the d-th power of the encoding; with a signature scheme and a modulus of full
      length it is never zero and fills the buffer. */
  method Sign(H: Hash, k: PrivateKey, scheme: Scheme, data: seq<byte>, random: seq<byte>, sig: array<byte>)
    returns (ok: bool)
    requires IsHash(H) && KeyOf(k, sig.Length)
    requires Encodable(scheme, data, sig.Length) ==> RandomFor(scheme, data, sig.Length, random)
    modifies sig
    ensures ok <==> Encodable(scheme, data, sig.Length)
    ensures !ok ==> sig[..] == old(sig[..])
    ensures ok ==> var em := Encoding(H, scheme, data, random, sig.Length);
      && |ToBytes(PowMod(OfBytes(em), k.d, k.n))| <= |em|
      && sig[..] == Held(PowMod(OfBytes(em), k.d, k.n), em)
      && (OfBytes(em) % k.n > 0 ==> sig[..] == Signed(k, em))
      && (SignatureScheme(scheme) && FullLength(k, sig.Length) ==> OfBytes(em) % k.n > 0)
  {
    ok := EncodeMessage(H, scheme, data, random, sig);
    if !ok { return; }
    ghost var em := sig[..];
    ResultFits(k, sig.Length, OfBytes(em), k.d);
    if SignatureScheme(scheme) && FullLength(k, sig.Length) { SignedNonZero(k, em); }
    if OfBytes(em) % k.n > 0 { ReducedNonZero(k, OfBytes(em)); }
    ok := PrivateOp(k, sig[..], sig);
  }

  lemma SignedNonZero(k: PrivateKey, em: seq<byte>)
    requires KeyOf(k, |em|) && |em| > 1 && em[0] == 0 && em[1] == 1 && FullLength(k, |em|)
    ensures 0 < OfBytes(em) < k.n && OfBytes(em) % k.n == OfBytes(em)
  {
    EncodedBelow(k, em);
    NonZeroByte(em, 1);
    Quotient(OfBytes(em), 0, OfBytes(em), k.n);
  }

  /** `tpm_rsa_verify`: accepts exactly the signatures whose e-th power is the encoded message;
      `residue` is what the second buffer held before. */
  method Verify(H: Hash, k: PrivateKey, scheme: Scheme, data: seq<byte>, random: seq<byte>, sig: seq<byte>,
                residue: seq<byte>) returns (ok: bool)
    requires IsHash(H) && KeyOf(k, |sig|) && |residue| == |sig|
    requires Encodable(scheme, data, |sig|) ==> RandomFor(scheme, data, |sig|, random)
    ensures |ToBytes(PowMod(OfBytes(sig), k.e, k.n))| <= |sig|
    ensures ok <==>
      && Encodable(scheme, data, |sig|)
      && Held(PowMod(OfBytes(sig), k.e, k.n), residue) == Encoding(H, scheme, data, random, |sig|)
    ensures SignatureScheme(scheme) ==>
      (ok <==> Encodable(scheme, data, |sig|) && Encrypted(k, sig) == Encoding(H, scheme, data, random, |sig|))
  {
    ResultFits(k, |sig|, OfBytes(sig), k.e);
    var a := new byte[|sig|];
    var encoded := EncodeMessage(H, scheme, data, random, a);
    if !encoded { return false; }
    var raised := Raise(k, sig, residue);
    ok := a[..] == raised;
    if SignatureScheme(scheme) { BlockIsHeld(PowMod(OfBytes(sig), k.e, k.n), residue, a[..]); }
  }

  /** The public operation into a buffer that held `residue`. */
  method Raise(k: PrivateKey, sig: seq<byte>, residue: seq<byte>) returns (buf: seq<byte>)
    requires KeyOf(k, |sig|) && |residue| == |sig|
    ensures |ToBytes(PowMod(OfBytes(sig), k.e, k.n))| <= |sig|
    ensures buf == Held(PowMod(OfBytes(sig), k.e, k.n), residue)
  {
    ResultFits(k, |sig|, OfBytes(sig), k.e);
    var b := new byte[|sig|];
    Write(b, 0, residue);
    assert b[..] == residue;
    var ok := PublicOp(k.n, k.e, k.size, sig, b);
    buf := b[..];
  }

  /** For the comparison with a signature block it does not matter what the buffer held before. */
  lemma BlockIsHeld(x: nat, residue: seq<byte>, em: seq<byte>)
    requires |ToBytes(x)| <= |residue| == |em| && |em| > 2 && em[1] == 1
    ensures Held(x, residue) == em <==> Fixed(x, |em|) == em
  {
    if x == 0 { assert Held(0, residue)[1] == 0 && Fixed(0, |em|)[1] == 0; }
  }

  /** The signature that `Sign` makes is accepted by `Verify` exactly when the encoding is below the
      modulus, as it always is for a modulus of full length. */
  lemma SignThenVerify(H: Hash, k: PrivateKey, L: nat, scheme: Scheme, data: seq<byte>)
    requires IsHash(H) && KeyOf(k, L) && SignatureScheme(scheme) && Encodable(scheme, data, L)
    ensures FullLength(k, L) ==> OfBytes(Encoding(H, scheme, data, [], L)) < k.n
    ensures
      var em := Encoding(H, scheme, data, [], L);
      && |ToBytes(PowMod(OfBytes(em), k.d, k.n))| <= L && var sig := Held(PowMod(OfBytes(em), k.d, k.n), em);
      Encrypted(k, sig) == em <==> OfBytes(em) < k.n
  {
    var em := Encoding(H, scheme, data, [], L);
    var x := OfBytes(em);
    ResultFits(k, L, x, k.d);
    var sig := Held(PowMod(x, k.d, k.n), em);
    if FullLength(k, L) { EncodedBelow(k, em); }
    if x < k.n {
      NonZeroByte(em, 1);
      ImageNonZero(k, x);
      BuffersInverse(k, em);
    } else {
      ResultFits(k, L, OfBytes(sig), k.e);
    }
  }

  /** And a signature is accepted for one encoded message only. */
  lemma SignatureUnique(k: PrivateKey, sig: seq<byte>, em: seq<byte>)
    requires KeyOf(k, |sig|) && |em| == |sig| && OfBytes(sig) < k.n && Encrypted(k, sig) == em
    ensures sig == Signed(k, em)
  {
    BuffersInverse(k, sig);
  }
}
