/** The bytes that the encodings of tpm-emulator/crypto/rsa.c and bn_gmp.c put in each place. */
module EncodingLaws {
  import opened NumberTheory
  import opened Wrappers
  import opened Bytes
  import opened RsaPadding
  import Rsa

  // ---- numbers

  /** The value of a string is a sum of powers of 256, the first byte weighing most. */
  lemma {:induction false} FirstWeighsMost(b: byte, s: seq<byte>)
    ensures OfBytes([b] + s) == (b as nat) * Pow(256, |s|) + OfBytes(s)
  {
    if s == [] {
      assert [b] + s == [b] && [b][..0] == [];
    } else {
      var u := s[..|s| - 1];
      FirstWeighsMost(b, u);
      assert ([b] + s)[..|s|] == [b] + u;
      Weights(b as nat, Pow(256, |u|), OfBytes(u), s[|s| - 1] as nat);
    }
  }

  lemma Weights(b: nat, p: int, u: nat, x: nat)
    ensures 256 * (b * p + u) + x == b * (256 * p) + (256 * u + x)
  {}

  /** The other order is the same string read backwards. */
  function Backwards(s: seq<byte>): (t: seq<byte>)
    ensures |t| == |s|
  {
    if s == [] then [] else Backwards(s[1..]) + [s[0]]
  }

  lemma {:induction false} OtherOrder(s: seq<byte>)
    ensures OfLe(s) == OfBytes(Backwards(s))
  {
    if s != [] {
      OtherOrder(s[1..]);
      BackwardsFirst(s);
    }
  }

  lemma BackwardsFirst(s: seq<byte>)
    requires s != []
    ensures OfBytes(Backwards(s)) == 256 * OfBytes(Backwards(s[1..])) + s[0] as nat
  {
    OfBytesAppend(Backwards(s[1..]), s[0]);
  }

  // ---- masks

  /** The counter `n` blocks later; it has 32 bits. */
  function Later(counter: bv32, n: nat): bv32
    decreases n
  {
    if n == 0 then counter else Later(counter + 1, n - 1)
  }

  /** Byte `i` of a mask is byte `i mod 20` of the digest of the seed and the number of its block. */
  lemma {:induction false} MaskByte(H: Hash, seed: seq<byte>, counter: bv32, len: nat, i: nat)
    requires IsHash(H) && i < len
    ensures Mask(H, seed, counter, len)[i] == H(seed + Be32(Later(counter, i / 20)))[i % 20]
    decreases len
  {
    if i >= 20 {
      MaskByte(H, seed, counter + 1, len - 20, i - 20);
      assert (i - 20) / 20 == i / 20 - 1 && (i - 20) % 20 == i % 20;
    }
  }

  lemma MaskedByte(H: Hash, seed: seq<byte>, data: seq<byte>, i: nat)
    requires IsHash(H) && i < |data|
    ensures Masked(H, seed, data)[i] == data[i] ^ H(seed + Be32(Later(0, i / 20)))[i % 20]
  {
    MaskByte(H, seed, 0, |data|, i);
  }

  /** The counter goes into the hash most significant byte first. */
  lemma CounterBytes(n: bv32)
    ensures var s := Be32(n);
      ((s[0] as bv32) << 24) | ((s[1] as bv32) << 16) | ((s[2] as bv32) << 8) | (s[3] as bv32) == n
  {
    assert (((n >> 24) & 0xff) as bv8) as bv32 == (n >> 24) & 0xff;
    assert (((n >> 16) & 0xff) as bv8) as bv32 == (n >> 16) & 0xff;
    assert (((n >> 8) & 0xff) as bv8) as bv32 == (n >> 8) & 0xff;
    assert ((n & 0xff) as bv8) as bv32 == n & 0xff;
  }

  // ---- encryption

  /** Which messages fit, and which random strings are drawn for them. */
  lemma Fitting(scheme: Scheme, data: seq<byte>, random: seq<byte>, k: nat)
    ensures Encodable(scheme, data, k) <==>
      match scheme
      case EsPkcs15 => |data| + 11 <= k
      case EsOaep => |data| + 42 <= k
      case EsPlain => |data| == k
      case SsaSha1 => 46 <= k
      case SsaSha1Raw => 46 <= k && |data| == 20
      case SsaDer => |data| + 11 <= k
    ensures scheme == EsOaep ==> (RandomFor(scheme, data, k, random) <==> |random| == 20)
    ensures scheme == EsPkcs15 && RandomFor(scheme, data, k, random) ==>
      |random| + |data| + 3 == k && forall i :: 0 <= i < |random| ==> random[i] != 0
  {}

  /** 00 02, at least eight nonzero bytes, 00, the message. */
  lemma Pkcs15Bytes(H: Hash, data: seq<byte>, random: seq<byte>, k: nat)
    requires IsHash(H) && Encodable(EsPkcs15, data, k) && RandomFor(EsPkcs15, data, k, random)
    ensures var em := Encoding(H, EsPkcs15, data, random, k); var m := k - |data| - 1;
      && |em| == k && m >= 10 && em[0] == 0 && em[1] == 2 && (forall i :: 2 <= i < m ==> em[i] != 0)
      && em[2..m] == random && em[m] == 0 && em[m + 1..] == data
  {}

  /** The block under the masks: the digest of "TCPA", zero bytes, 01, the message. */
  lemma OaepBytes(H: Hash, data: seq<byte>, seed: seq<byte>, k: nat)
    requires IsHash(H) && |data| + 42 <= k && |seed| == 20
    ensures var em := Encoding(H, EsOaep, data, seed, k);
      && |em| == k && em[0] == 0
      && (forall i :: 0 <= i < 20 ==> em[1 + i] == seed[i] ^ H(em[21..] + Be32(0))[i])
      && forall i :: 0 <= i < k - 21 ==>
           em[21 + i] == Block(H, data, k, i) ^ H(seed + Be32(Later(0, i / 20)))[i % 20]
  {
    var db := DataBlock(H, data, k);
    var masked := Masked(H, seed, db);
    var em := Oaep(H, data, seed, k);
    assert em[21..] == masked && em[1..21] == Masked(H, masked, seed);
    forall i | 0 <= i < 20 ensures em[1 + i] == seed[i] ^ H(em[21..] + Be32(0))[i] {
      MaskedByte(H, masked, seed, i);
      assert em[1..21][i] == em[1 + i];
    }
    forall i | 0 <= i < k - 21
      ensures em[21 + i] == Block(H, data, k, i) ^ H(seed + Be32(Later(0, i / 20)))[i % 20]
    {
      MaskedByte(H, seed, db, i);
      BlockBytes(H, data, k, i);
      assert em[21..][i] == em[21 + i];
    }
  }

  /** Byte `i` of the block. */
  function Block(H: Hash, data: seq<byte>, k: nat, i: nat): byte
    requires IsHash(H) && |data| + 42 <= k && i < k - 21
  {
    if i < 20 then H([0x54, 0x43, 0x50, 0x41])[i]
    else if i < k - |data| - 22 then 0
    else if i == k - |data| - 22 then 1
    else data[i - (k - |data| - 21)]
  }

  lemma BlockBytes(H: Hash, data: seq<byte>, k: nat, i: nat)
    requires IsHash(H) && |data| + 42 <= k && i < k - 21
    ensures DataBlock(H, data, k)[i] == Block(H, data, k, i)
  {}

  // ---- signatures

  /** 00 01, bytes ff, 00, the rest. */
  predicate SignatureForm(em: seq<byte>, rest: seq<byte>) {
    && |em| >= |rest| + 11 && em[0] == 0 && em[1] == 1 && em[|em| - |rest| - 1] == 0
    && (forall i :: 2 <= i < |em| - |rest| - 1 ==> em[i] == 0xff) && em[|em| - |rest|..] == rest
  }

  /** The header of a SHA-1 digest: a sequence of the algorithm, with the object identifier
      1.3.14.3.2.26 and no parameters, and an octet string of 20 bytes. */
  const HEADER: seq<byte> :=
    [0x30, 0x21] + ([0x30, 0x09] + ([0x06, 0x05, 0x2b, 0x0e, 0x03, 0x02, 0x1a] + [0x05, 0x00])) + [0x04, 0x14]

  lemma SignatureBytes(H: Hash, scheme: Scheme, data: seq<byte>, random: seq<byte>, k: nat)
    requires IsHash(H) && Encodable(scheme, data, k) && RandomFor(scheme, data, k, random)
    ensures var em := Encoding(H, scheme, data, random, k);
      && |em| == k
      && (scheme == SsaSha1 ==> SignatureForm(em, HEADER + H(data)))
      && (scheme == SsaSha1Raw ==> SignatureForm(em, HEADER + data))
      && (scheme == SsaDer ==> SignatureForm(em, data))
      && (scheme == EsPlain ==> em == data)
  {
    assert HEADER == DER_SHA1;
    match scheme {
      case SsaSha1 => FormOfBlock(DER_SHA1 + H(data), k);
      case SsaSha1Raw => FormOfBlock(DER_SHA1 + data, k);
      case SsaDer => FormOfBlock(data, k);
      case _ =>
    }
  }

  lemma FormOfBlock(der: seq<byte>, k: nat)
    requires k >= |der| + 11
    ensures SignatureForm(SignatureBlock(der, k), der)
  {}

  // ---- decoding

  /** The decoders: a message comes out exactly if the buffer has the form of an encoding, and the
      signature schemes decode nothing. */
  lemma DecodesExactly(H: Hash, em: seq<byte>, data: seq<byte>)
    requires IsHash(H)
    ensures Decoding(H, EsPkcs15, em) == Some(data) <==> PkcsForm(em, data)
    ensures Decoding(H, EsPlain, em) == Some(em)
    ensures Decoding(H, SsaSha1, em).None? && Decoding(H, SsaSha1Raw, em).None? && Decoding(H, SsaDer, em).None?
  {
    if PkcsForm(em, data) {
      var pad := em[2..|em| - |data| - 1];
      assert em == Pkcs15(data, pad);
      Pkcs15RoundTrip(data, pad);
    }
    if Decoding(H, EsPkcs15, em) == Some(data) {
      Pkcs15DecodeSound(em);
      var pad :| NonZero(pad) && |pad| >= 8 && em == Pkcs15(data, pad);
      assert forall i :: 2 <= i < 2 + |pad| ==> em[i] == pad[i - 2];
    }
  }

  predicate PkcsForm(em: seq<byte>, data: seq<byte>) {
    && |em| >= |data| + 11 && em[0] == 0 && em[1] == 2 && em[|em| - |data| - 1] == 0
    && (forall i :: 2 <= i < |em| - |data| - 1 ==> em[i] != 0) && em[|em| - |data|..] == data
  }

  // ---- keys

  /** The self test of an imported key, as equations on the fixed value. */
  lemma SelfTest(k: Rsa.PrivateKey)
    requires k.n > 0
    ensures Rsa.CancelsOnTest(k) <==>
      && Pow(Pow(0xdeadbeef, k.e) % k.n, k.d) % k.n == 0xdeadbeef
      && Pow(Pow(0xdeadbeef, k.d) % k.n, k.e) % k.n == 0xdeadbeef
  {}
}
