/** Message encodings of tpm-emulator/crypto/rsa.c: mask generation, PKCS#1 v1.5 and OAEP
    encoding and decoding in a byte buffer, as specified by functions on byte strings. */
module RsaPadding {
  import opened Bytes
  import opened Wrappers

  type Hash = seq<byte> -> seq<byte>

  const DIGEST: nat := 20

  /** SHA-1 is a parameter of this module; only the length of its digests matters here. */
  ghost predicate IsHash(H: Hash) {
    forall m :: |H(m)| == DIGEST
  }

  function Xor(a: seq<byte>, b: seq<byte>): (r: seq<byte>)
    requires |a| == |b|
    ensures |r| == |a|
    ensures forall i :: 0 <= i < |a| ==> r[i] == a[i] ^ b[i]
  {
    seq(|a|, i requires 0 <= i < |a| => a[i] ^ b[i])
  }

  /** Masking twice with the same mask gives the data back. */
  lemma XorCancels(a: seq<byte>, m: seq<byte>)
    requires |a| == |m|
    ensures Xor(Xor(a, m), m) == a
  {
    forall i | 0 <= i < |a| ensures Xor(Xor(a, m), m)[i] == a[i] {
      Octets.XorTwice(a[i], m[i]);
    }
  }

  function Be32(n: bv32): (s: seq<byte>)
    ensures |s| == 4
  {
    [((n >> 24) & 0xff) as byte, ((n >> 16) & 0xff) as byte, ((n >> 8) & 0xff) as byte,
     (n & 0xff) as byte]
  }

  // ---- mask generation

  /** The mask of `len` bytes that starts with the block of the given 32-bit counter. */
  function Mask(H: Hash, seed: seq<byte>, counter: bv32, len: nat): (m: seq<byte>)
    requires IsHash(H)
    ensures |m| == len
    decreases len
  {
    var block := H(seed + Be32(counter));
    if len <= DIGEST then block[..len]
    else block + Mask(H, seed, counter + 1, len - DIGEST)
  }

  function Masked(H: Hash, seed: seq<byte>, data: seq<byte>): (r: seq<byte>)
    requires IsHash(H)
    ensures |r| == |data|
  {
    Xor(data, Mask(H, seed, 0, |data|))
  }

  lemma MaskedTwice(H: Hash, seed: seq<byte>, data: seq<byte>)
    requires IsHash(H)
    ensures Masked(H, seed, Masked(H, seed, data)) == data
  {
    XorCancels(data, Mask(H, seed, 0, |data|));
  }

  /** The inner loop: XOR a block into the buffer. */
  method XorInto(data: array<byte>, off: nat, mask: seq<byte>)
    requires off + |mask| <= data.Length
    modifies data
    ensures forall j :: 0 <= j < data.Length ==>
      data[j] == if off <= j < off + |mask| then old(data[j]) ^ mask[j - off] else old(data[j])
  {
    var i := 0;
    while i < |mask|
      invariant 0 <= i <= |mask|
      invariant forall j :: 0 <= j < data.Length ==>
        data[j] == if off <= j < off + i then old(data[j]) ^ mask[j - off] else old(data[j])
    {
      data[off + i] := data[off + i] ^ mask[i];
      i := i + 1;
    }
  }

  lemma MaskSplit(H: Hash, seed: seq<byte>, counter: bv32, n: nat, len: nat)
    requires IsHash(H) && n > 0 && len == if n < DIGEST then n else DIGEST
    ensures Mask(H, seed, counter, n)
         == H(seed + Be32(counter))[..len] + Mask(H, seed, counter + 1, n - len)
  {
    if n <= DIGEST {
      assert Mask(H, seed, counter + 1, n - len) == [];
    } else {
      assert H(seed + Be32(counter))[..len] == H(seed + Be32(counter));
    }
  }

  /** The mask from position `at` on, when its first block is split off. */
  lemma MaskAdvance(mask: seq<byte>, at: nat, block: seq<byte>, rest: seq<byte>)
    requires at <= |mask| && mask[at..] == block + rest
    ensures mask[at + |block|..] == rest
    ensures forall j :: at <= j < at + |block| ==> mask[j] == block[j - at]
  {
    assert forall j :: at <= j < at + |block| ==> mask[j] == mask[at..][j - at];
    assert mask[at..][|block|..] == mask[at + |block|..];
  }

  /** `tpm_rsa_mask_generation` on the part data[lo..hi] of a buffer. */
  method MaskGeneration(H: Hash, seed: seq<byte>, data: array<byte>, lo: nat, hi: nat)
    requires IsHash(H) && lo <= hi <= data.Length
    modifies data
    ensures data[..lo] == old(data[..lo]) && data[hi..] == old(data[hi..])
    ensures data[lo..hi] == Masked(H, seed, old(data[lo..hi]))
  {
    ghost var mask := Mask(H, seed, 0, hi - lo);
    var off: nat, counter: bv32 := lo, 0;
    while off < hi
      invariant lo <= off <= hi
      invariant mask[off - lo..] == Mask(H, seed, counter, hi - off)
      invariant forall j :: 0 <= j < data.Length ==>
        data[j] == if lo <= j < off then old(data[j]) ^ mask[j - lo] else old(data[j])
    {
      var block := H(seed + Be32(counter));
      var len := if hi - off < DIGEST then hi - off else DIGEST;
      MaskSplit(H, seed, counter, hi - off, len);
      MaskAdvance(mask, off - lo, block[..len], Mask(H, seed, counter + 1, hi - off - len));
      XorInto(data, off, block[..len]);
      counter := counter + 1;
      off := off + len;
    }
  }

  // ---- PKCS#1 v1.5 for encryption

  predicate NonZero(s: seq<byte>) {
    forall i :: 0 <= i < |s| ==> s[i] != 0
  }

  function Pkcs15(data: seq<byte>, pad: seq<byte>): seq<byte> {
    [0, 2] + pad + [0] + data
  }

  /** The index of the first zero byte from i on, or the length. */
  function FirstZero(s: seq<byte>, i: nat): (r: nat)
    requires i <= |s|
    ensures i <= r <= |s| && NonZero(s[i..r]) && (r < |s| ==> s[r] == 0)
    decreases |s| - i
  {
    if i == |s| || s[i] == 0 then i else FirstZero(s, i + 1)
  }

  function Pkcs15Decode(em: seq<byte>): Option<seq<byte>> {
    if |em| < 11 || em[0] != 0 || em[1] != 2 then None
    else
      var i := FirstZero(em, 2);
      if i < 10 || i >= |em| then None else Some(em[i + 1..])
  }

  lemma FirstZeroIs(s: seq<byte>, i: nat, r: nat)
    requires i <= r < |s| && s[r] == 0 && NonZero(s[i..r])
    ensures FirstZero(s, i) == r
  {
    var f := FirstZero(s, i);
    assert forall j :: i <= j < r ==> s[j] == s[i..r][j - i];
    assert forall j :: i <= j < f ==> s[j] == s[i..f][j - i];
  }

  /** Decoding returns the message, for every padding of at least eight nonzero bytes. */
  lemma Pkcs15RoundTrip(data: seq<byte>, pad: seq<byte>)
    requires NonZero(pad) && |pad| >= 8
    ensures Pkcs15Decode(Pkcs15(data, pad)) == Some(data)
  {
    var em := Pkcs15(data, pad);
    var r := 2 + |pad|;
    assert em[2..r] == pad;
    FirstZeroIs(em, 2, r);
    assert em[r + 1..] == data;
  }

  /** And whatever decodes was encoded that way. */
  lemma Pkcs15DecodeSound(em: seq<byte>)
    requires Pkcs15Decode(em).Some?
    ensures exists pad :: NonZero(pad) && |pad| >= 8 && em == Pkcs15(Pkcs15Decode(em).value, pad)
  {
    var i := FirstZero(em, 2);
    assert em == Pkcs15(em[i + 1..], em[2..i]);
  }

  // ---- OAEP

  const TCPA: seq<byte> := [0x54, 0x43, 0x50, 0x41]

  function DataBlock(H: Hash, data: seq<byte>, k: nat): (db: seq<byte>)
    requires IsHash(H) && k >= |data| + 2 * DIGEST + 2
    ensures |db| == k - DIGEST - 1
  {
    H(TCPA) + Zeros(k - |data| - 2 * DIGEST - 2) + [1] + data
  }

  function Oaep(H: Hash, data: seq<byte>, seed: seq<byte>, k: nat): (em: seq<byte>)
    requires IsHash(H) && k >= |data| + 2 * DIGEST + 2 && |seed| == DIGEST
    ensures |em| == k && em[0] == 0
  {
    var maskedDb := Masked(H, seed, DataBlock(H, data, k));
    [0] + Masked(H, maskedDb, seed) + maskedDb
  }

  function OaepSeed(H: Hash, em: seq<byte>): (seed: seq<byte>)
    requires IsHash(H) && |em| >= 2 + 2 * DIGEST
    ensures |seed| == DIGEST
  {
    Masked(H, em[1 + DIGEST..], em[1..1 + DIGEST])
  }

  function OaepBlock(H: Hash, em: seq<byte>): (db: seq<byte>)
    requires IsHash(H) && |em| >= 2 + 2 * DIGEST
    ensures |db| == |em| - DIGEST - 1
  {
    Masked(H, OaepSeed(H, em), em[1 + DIGEST..])
  }

  /** The index of the first nonzero byte from i on, or the length. */
  function FirstNonZero(s: seq<byte>, i: nat): (r: nat)
    requires i <= |s|
    ensures i <= r <= |s| && s[i..r] == Zeros(r - i) && (r < |s| ==> s[r] != 0)
    decreases |s| - i
  {
    if i == |s| || s[i] != 0 then i else FirstNonZero(s, i + 1)
  }

  lemma FirstNonZeroIs(s: seq<byte>, i: nat, r: nat)
    requires i <= r < |s| && s[r] != 0 && s[i..r] == Zeros(r - i)
    ensures FirstNonZero(s, i) == r
  {
    var f := FirstNonZero(s, i);
    assert forall j :: i <= j < r ==> s[j] == s[i..r][j - i];
    assert forall j :: i <= j < f ==> s[j] == s[i..f][j - i];
  }

  function BlockDecode(H: Hash, db: seq<byte>): Option<seq<byte>>
    requires IsHash(H) && |db| >= DIGEST + 1
  {
    if db[..DIGEST] != H(TCPA) then None
    else
      var i := FirstNonZero(db, DIGEST);
      if i >= |db| || db[i] != 1 then None else Some(db[i + 1..])
  }

  function OaepDecode(H: Hash, em: seq<byte>): Option<seq<byte>>
    requires IsHash(H)
  {
    if |em| < 2 + 2 * DIGEST || em[0] != 0 then None else BlockDecode(H, OaepBlock(H, em))
  }

  lemma BlockRoundTrip(H: Hash, data: seq<byte>, k: nat)
    requires IsHash(H) && k >= |data| + 2 * DIGEST + 2
    ensures BlockDecode(H, DataBlock(H, data, k)) == Some(data)
  {
    var db := DataBlock(H, data, k);
    var r := |db| - |data| - 1;
    assert db[..DIGEST] == H(TCPA);
    assert db[DIGEST..r] == Zeros(r - DIGEST);
    FirstNonZeroIs(db, DIGEST, r);
    assert db[r + 1..] == data;
  }

  lemma OaepOpens(H: Hash, data: seq<byte>, seed: seq<byte>, k: nat)
    requires IsHash(H) && k >= |data| + 2 * DIGEST + 2 && |seed| == DIGEST
    ensures OaepSeed(H, Oaep(H, data, seed, k)) == seed
    ensures OaepBlock(H, Oaep(H, data, seed, k)) == DataBlock(H, data, k)
  {
    var db := DataBlock(H, data, k);
    var maskedDb := Masked(H, seed, db);
    var em := Oaep(H, data, seed, k);
    assert em[1 + DIGEST..] == maskedDb;
    assert em[1..1 + DIGEST] == Masked(H, maskedDb, seed);
    MaskedTwice(H, maskedDb, seed);
    MaskedTwice(H, seed, db);
  }

  /** Decoding returns exactly the message, for every seed. */
  lemma OaepRoundTrip(H: Hash, data: seq<byte>, seed: seq<byte>, k: nat)
    requires IsHash(H) && k >= |data| + 2 * DIGEST + 2 && |seed| == DIGEST
    ensures OaepDecode(H, Oaep(H, data, seed, k)) == Some(data)
  {
    OaepOpens(H, data, seed, k);
    BlockRoundTrip(H, data, k);
  }

  lemma BlockDecodeSound(H: Hash, db: seq<byte>)
    requires IsHash(H) && |db| >= DIGEST + 1 && BlockDecode(H, db).Some?
    ensures |db| >= |BlockDecode(H, db).value| + DIGEST + 1
    ensures DataBlock(H, BlockDecode(H, db).value, |db| + DIGEST + 1) == db
  {
    var i := FirstNonZero(db, DIGEST);
    var data := db[i + 1..];
    assert db == db[..DIGEST] + db[DIGEST..i] + [db[i]] + data;
  }

  /** And whatever decodes is the encoding of the decoded message under the recovered seed. */
  lemma OaepDecodeSound(H: Hash, em: seq<byte>)
    requires IsHash(H) && OaepDecode(H, em).Some?
    ensures |em| >= |OaepDecode(H, em).value| + 2 * DIGEST + 2
    ensures em == Oaep(H, OaepDecode(H, em).value, OaepSeed(H, em), |em|)
  {
    BlockDecodeSound(H, OaepBlock(H, em));
    MaskedTwice(H, OaepSeed(H, em), em[1 + DIGEST..]);
    MaskedTwice(H, em[1 + DIGEST..], em[1..1 + DIGEST]);
    assert em == [em[0]] + em[1..1 + DIGEST] + em[1 + DIGEST..];
  }

  // ---- PKCS#1 v1.5 for signatures

  const DER_SHA1: seq<byte> :=
    [0x30, 0x21, 0x30, 0x09, 0x06, 0x05, 0x2b, 0x0e, 0x03, 0x02, 0x1a, 0x05, 0x00, 0x04, 0x14]

  function Ones(k: nat): (s: seq<byte>)
    ensures |s| == k
  {
    seq(k, _ => 0xff)
  }

  function SignatureBlock(der: seq<byte>, k: nat): (em: seq<byte>)
    requires k >= |der| + 11
    ensures |em| == k && em[0] == 0 && em[1] == 1
  {
    [0, 1] + Ones(k - |der| - 3) + [0] + der
  }

  // ---- the encoder

  datatype Scheme = EsPkcs15 | EsOaep | EsPlain | SsaSha1 | SsaSha1Raw | SsaDer

  /** The messages a scheme accepts for an encoded message of k bytes. */
  predicate Encodable(scheme: Scheme, data: seq<byte>, k: nat) {
    match scheme
    case EsPkcs15 => |data| + 11 <= k
    case EsOaep => |data| + 2 * DIGEST + 2 <= k
    case EsPlain => |data| == k
    case SsaSha1 => 46 <= k
    case SsaSha1Raw => 46 <= k && |data| == DIGEST
    case SsaDer => |data| + 11 <= k
  }

  /** The random bytes the encoder draws: nonzero padding or an OAEP seed. */
  predicate RandomFor(scheme: Scheme, data: seq<byte>, k: nat, random: seq<byte>) {
    match scheme
    case EsPkcs15 => NonZero(random) && |random| + |data| + 3 == k
    case EsOaep => |random| == DIGEST
    case _ => true
  }

  function Encoding(H: Hash, scheme: Scheme, data: seq<byte>, random: seq<byte>, k: nat)
    : (em: seq<byte>)
    requires IsHash(H) && Encodable(scheme, data, k) && RandomFor(scheme, data, k, random)
    ensures |em| == k
  {
    match scheme
    case EsPkcs15 => Pkcs15(data, random)
    case EsOaep => Oaep(H, data, random, k)
    case EsPlain => data
    case SsaSha1 => SignatureBlock(DER_SHA1 + H(data), k)
    case SsaSha1Raw => SignatureBlock(DER_SHA1 + data, k)
    case SsaDer => SignatureBlock(data, k)
  }

  method WriteSignatureBlock(der: seq<byte>, msg: array<byte>)
    requires msg.Length >= |der| + 11
    modifies msg
    ensures msg[..] == SignatureBlock(der, msg.Length)
  {
    var k := msg.Length;
    msg[0] := 0;
    msg[1] := 1;
    Write(msg, 2, Ones(k - |der| - 3));
    msg[k - |der| - 1] := 0;
    Write(msg, k - |der|, der);
  }

  method WriteDataBlock(H: Hash, data: seq<byte>, msg: array<byte>)
    requires IsHash(H) && msg.Length >= |data| + 2 * DIGEST + 2
    modifies msg
    ensures msg[..1 + DIGEST] == old(msg[..1 + DIGEST])
    ensures msg[1 + DIGEST..] == DataBlock(H, data, msg.Length)
  {
    var k := msg.Length;
    Write(msg, 1 + DIGEST, H(TCPA));
    Write(msg, 1 + 2 * DIGEST, Zeros(k - |data| - 2 * DIGEST - 2));
    msg[k - |data| - 1] := 1;
    Write(msg, k - |data|, data);
  }

  method WriteOaep(H: Hash, data: seq<byte>, seed: seq<byte>, msg: array<byte>)
    requires IsHash(H) && msg.Length >= |data| + 2 * DIGEST + 2 && |seed| == DIGEST
    modifies msg
    ensures msg[..] == Oaep(H, data, seed, msg.Length)
  {
    msg[0] := 0;
    Write(msg, 1, seed);
    assert msg[..1 + DIGEST] == [0] + seed;
    WriteDataBlock(H, data, msg);
    MaskBlocks(H, seed, DataBlock(H, data, msg.Length), msg);
  }

  /** Masking as a splice of the buffer. */
  method MaskPart(H: Hash, seed: seq<byte>, msg: array<byte>, lo: nat, hi: nat,
                  ghost left: seq<byte>, ghost mid: seq<byte>, ghost right: seq<byte>)
    requires IsHash(H) && lo == |left| && hi == |left| + |mid| && msg[..] == left + mid + right
    modifies msg
    ensures msg[..] == left + Masked(H, seed, mid) + right
  {
    assert hi <= |msg[..]|;
    assert msg[..lo] == msg[..][..lo] == left && msg[lo..hi] == msg[..][lo..hi] == mid;
    assert msg[hi..] == msg[..][hi..] == right;
    MaskGeneration(H, seed, msg, lo, hi);
    assert msg[..] == msg[..lo] + msg[lo..hi] + msg[hi..];
  }

  /** The seed masks the data block, and what results masks the seed. */
  method MaskBlocks(H: Hash, ghost seed: seq<byte>, ghost db: seq<byte>, msg: array<byte>)
    requires IsHash(H) && |seed| == DIGEST && msg[..] == [0] + seed + db
    modifies msg
    ensures msg[..] == [0] + Masked(H, Masked(H, seed, db), seed) + Masked(H, seed, db)
  {
    ghost var masked := Masked(H, seed, db);
    assert msg.Length == |msg[..]| && msg[1..1 + DIGEST] == msg[..][1..1 + DIGEST] == seed;
    MaskPart(H, msg[1..1 + DIGEST], msg, 1 + DIGEST, msg.Length, [0] + seed, db, []);
    assert msg[..] == [0] + seed + masked;
    assert msg[1 + DIGEST..] == msg[..][1 + DIGEST..] == masked;
    MaskPart(H, msg[1 + DIGEST..], msg, 1, 1 + DIGEST, [0], seed, masked);
  }

  method WritePkcs15(data: seq<byte>, random: seq<byte>, msg: array<byte>)
    requires msg.Length == |data| + |random| + 3
    modifies msg
    ensures msg[..] == Pkcs15(data, random)
  {
    msg[0] := 0;
    msg[1] := 2;
    Write(msg, 2, random);
    msg[msg.Length - |data| - 1] := 0;
    Write(msg, msg.Length - |data|, data);
  }

  /** `encode_message`: fills the buffer, or returns false and leaves it alone. */
  method EncodeMessage(H: Hash, scheme: Scheme, data: seq<byte>, random: seq<byte>, msg: array<byte>)
    returns (ok: bool)
    requires IsHash(H)
    requires Encodable(scheme, data, msg.Length) ==> RandomFor(scheme, data, msg.Length, random)
    modifies msg
    ensures ok <==> Encodable(scheme, data, msg.Length)
    ensures !ok ==> msg[..] == old(msg[..])
    ensures ok ==> msg[..] == Encoding(H, scheme, data, random, msg.Length)
  {
    var k := msg.Length;
    match scheme {
      case EsPkcs15 =>
        if k < |data| + 11 { return false; }
        WritePkcs15(data, random, msg);
      case EsOaep =>
        if k < |data| + 2 * DIGEST + 2 { return false; }
        WriteOaep(H, data, random, msg);
      case EsPlain =>
        if k != |data| { return false; }
        Write(msg, 0, data);
      case SsaSha1 =>
        if k < 46 { return false; }
        WriteSignatureBlock(DER_SHA1 + H(data), msg);
      case SsaSha1Raw =>
        if k < 46 || |data| != DIGEST { return false; }
        WriteSignatureBlock(DER_SHA1 + data, msg);
      case SsaDer =>
        if k < |data| + 11 { return false; }
        WriteSignatureBlock(data, msg);
    }
    ok := true;
  }

  // ---- the decoder

  /** What the decoder makes of an encoded message; the signature schemes have no decoding. */
  function Decoding(H: Hash, scheme: Scheme, em: seq<byte>): Option<seq<byte>>
    requires IsHash(H)
  {
    match scheme
    case EsPkcs15 => Pkcs15Decode(em)
    case EsOaep => OaepDecode(H, em)
    case EsPlain => Some(em)
    case _ => None
  }

  /** `memmove` to the front of the buffer. */
  method MoveToFront(msg: array<byte>, at: nat)
    requires at <= msg.Length
    modifies msg
    ensures msg[..msg.Length - at] == old(msg[at..])
  {
    Write(msg, 0, msg[at..]);
  }

  /** Both masks removed: the seed, then the data block. */
  method UnmaskOaep(H: Hash, msg: array<byte>)
    requires IsHash(H) && msg.Length >= 2 + 2 * DIGEST
    modifies msg
    ensures msg[1 + DIGEST..] == OaepBlock(H, old(msg[..]))
  {
    ghost var em := msg[..];
    assert em[1 + DIGEST..] == msg[1 + DIGEST..] && em[1..1 + DIGEST] == msg[1..1 + DIGEST];
    MaskGeneration(H, msg[1 + DIGEST..], msg, 1, 1 + DIGEST);
    ghost var seed := msg[1..1 + DIGEST];
    assert msg[1 + DIGEST..msg.Length] == msg[1 + DIGEST..];
    MaskGeneration(H, msg[1..1 + DIGEST], msg, 1 + DIGEST, msg.Length);
    assert msg[1 + DIGEST..msg.Length] == msg[1 + DIGEST..];
  }

  lemma FirstNonZeroShift(s: seq<byte>, at: nat, i: nat)
    requires at + i <= |s|
    ensures at + FirstNonZero(s[at..], i) == FirstNonZero(s, at + i)
    decreases |s| - i
  {
    if at + i < |s| && s[at + i] == 0 { FirstNonZeroShift(s, at, i + 1); }
  }

  /** The scan `for (...; i < msg_len && !msg[i]; i++)`. */
  method SkipZeros(msg: array<byte>, from: nat) returns (i: nat)
    requires from <= msg.Length
    ensures i == FirstNonZero(msg[..], from)
  {
    i := from;
    while i < msg.Length && msg[i] == 0
      invariant from <= i <= msg.Length
      invariant FirstNonZero(msg[..], from) == FirstNonZero(msg[..], i)
    {
      i := i + 1;
    }
  }

  /** The scan `for (...; i < msg_len && msg[i]; i++)`. */
  method SkipNonZeros(msg: array<byte>, from: nat) returns (i: nat)
    requires from <= msg.Length
    ensures i == FirstZero(msg[..], from)
  {
    i := from;
    while i < msg.Length && msg[i] != 0
      invariant from <= i <= msg.Length
      invariant FirstZero(msg[..], from) == FirstZero(msg[..], i)
    {
      i := i + 1;
    }
  }

  /** The expected label hash goes over the seed, for the comparison with the block. */
  method PutLabel(H: Hash, msg: array<byte>)
    requires IsHash(H) && msg.Length >= 2 + 2 * DIGEST
    modifies msg
    ensures msg[1 + DIGEST..] == old(msg[1 + DIGEST..]) && msg[1..1 + DIGEST] == H(TCPA)
    ensures msg[1 + DIGEST..1 + 2 * DIGEST] == old(msg[1 + DIGEST..])[..DIGEST]
  {
    Write(msg, 1, H(TCPA));
  }

  /** The part of the decoder that follows the unmasking: label, zero bytes, separator, message. */
  method OpenBlock(H: Hash, msg: array<byte>) returns (ok: bool, len: nat)
    requires IsHash(H) && msg.Length >= 2 + 2 * DIGEST
    modifies msg
    ensures ok <==> BlockDecode(H, old(msg[1 + DIGEST..])).Some?
    ensures ok ==> len <= msg.Length && BlockDecode(H, old(msg[1 + DIGEST..])) == Some(msg[..len])
  {
    ghost var db := msg[1 + DIGEST..];
    PutLabel(H, msg);
    assert msg[..][1 + DIGEST..] == db;
    ok, len := false, 0;
    if msg[1..1 + DIGEST] != msg[1 + DIGEST..1 + 2 * DIGEST] { return; }
    var i := SkipZeros(msg, 1 + 2 * DIGEST);
    FirstNonZeroShift(msg[..], 1 + DIGEST, DIGEST);
    if i >= msg.Length || msg[i] != 1 { return; }
    len := msg.Length - i - 1;
    assert db[i - DIGEST..] == msg[i + 1..];
    MoveToFront(msg, i + 1);
    ok := true;
  }

  method DecodeOaep(H: Hash, msg: array<byte>) returns (ok: bool, len: nat)
    requires IsHash(H)
    modifies msg
    ensures ok <==> OaepDecode(H, old(msg[..])).Some?
    ensures ok ==> len <= msg.Length && OaepDecode(H, old(msg[..])) == Some(msg[..len])
  {
    if msg.Length < 2 + 2 * DIGEST || msg[0] != 0 { return false, 0; }
    UnmaskOaep(H, msg);
    ok, len := OpenBlock(H, msg);
  }

  /** `decode_message`, called on one buffer for input and output. */
  method DecodeMessage(H: Hash, scheme: Scheme, msg: array<byte>) returns (ok: bool, len: nat)
    requires IsHash(H)
    modifies msg
    ensures ok <==> Decoding(H, scheme, old(msg[..])).Some?
    ensures ok ==> len <= msg.Length && Decoding(H, scheme, old(msg[..])) == Some(msg[..len])
  {
    var k := msg.Length;
    ok, len := false, 0;
    match scheme {
      case EsPkcs15 =>
        if k < 11 || msg[0] != 0 || msg[1] != 2 { return; }
        var i := SkipNonZeros(msg, 2);
        if i < 10 || i >= k { return; }
        len := k - i - 1;
        MoveToFront(msg, i + 1);
        ok := true;
      case EsOaep =>
        ok, len := DecodeOaep(H, msg);
      case EsPlain =>
        assert msg[..] == msg[..k];
        ok, len := true, k;
      case _ =>
    }
  }
}
