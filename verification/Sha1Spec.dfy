/** SHA-1 as FIPS 180-4 defines it: padding (section 5.1.1), message schedule and compression
    (section 6.1.2), and the hash of a byte string. */
module Sha1Spec {
  import opened Bytes
  import opened NumberTheory

  type word = bv32

  datatype Regs = Regs(a: word, b: word, c: word, d: word, e: word)

  const BLOCK: nat := 64

  function Rotl1(x: word): word {
    (x << 1) | (x >> 31)
  }

  function Rotl5(x: word): word {
    (x << 5) | (x >> 27)
  }

  function Rotl30(x: word): word {
    (x << 30) | (x >> 2)
  }

  /** The word of four bytes, most significant byte first. */
  function WordBe(b0: byte, b1: byte, b2: byte, b3: byte): word {
    ((b0 as word) << 24) | ((b1 as word) << 16) | ((b2 as word) << 8) | (b3 as word)
  }

  function Words(block: seq<byte>): (m: seq<word>)
    requires |block| == BLOCK
    ensures |m| == 16
    ensures forall t :: 0 <= t < 16 ==>
      m[t] == WordBe(block[4 * t], block[4 * t + 1], block[4 * t + 2], block[4 * t + 3])
  {
    seq(16, t requires 0 <= t < 16 =>
      WordBe(block[4 * t], block[4 * t + 1], block[4 * t + 2], block[4 * t + 3]))
  }

  function Xor4(x: word, y: word, z: word, u: word): word {
    x ^ y ^ z ^ u
  }

  function NextWord(w: seq<word>, t: nat): word
    requires 16 <= t <= |w|
  {
    Rotl1(Xor4(w[t - 3], w[t - 8], w[t - 14], w[t - 16]))
  }

  /** The message schedule W, extended word by word up to 80 words. */
  function Expand(w: seq<word>): (r: seq<word>)
    requires 16 <= |w| <= 80
    ensures |r| == 80 && w <= r
    decreases 80 - |w|
  {
    if |w| == 80 then w else Expand(w + [NextWord(w, |w|)])
  }

  lemma {:induction false} ExpandAt(w: seq<word>, t: nat)
    requires 16 <= |w| <= t < 80
    ensures Expand(w)[t] == NextWord(Expand(w), t)
    decreases 80 - |w|
  {
    var v := w + [NextWord(w, |w|)];
    var r := Expand(v);
    if t == |w| {
      assert r[t] == v[t];
      assert r[t - 3] == v[t - 3] && r[t - 8] == v[t - 8] && r[t - 14] == v[t - 14] && r[t - 16] == v[t - 16];
    } else {
      ExpandAt(v, t);
    }
  }

  function Choose(x: word, y: word, z: word): word {
    (x & y) ^ (!x & z)
  }

  function Parity(x: word, y: word, z: word): word {
    x ^ y ^ z
  }

  function Majority(x: word, y: word, z: word): word {
    (x & y) ^ (x & z) ^ (y & z)
  }

  function F(t: nat, x: word, y: word, z: word): word {
    if t < 20 then Choose(x, y, z)
    else if t < 40 then Parity(x, y, z)
    else if t < 60 then Majority(x, y, z)
    else Parity(x, y, z)
  }

  function K(t: nat): word {
    if t < 20 then 0x5A827999
    else if t < 40 then 0x6ED9EBA1
    else if t < 60 then 0x8F1BBCDC
    else 0xCA62C1D6
  }

  /** The sum T of a round, in the order of the standard. */
  function Sum(rotated: word, f: word, e: word, k: word, w: word): word {
    rotated + f + e + k + w
  }

  /** The registers move on, with the sum in front. */
  function Mix(r: Regs, f: word, k: word, w: word): Regs {
    Regs(Sum(Rotl5(r.a), f, r.e, k, w), r.a, Rotl30(r.b), r.c, r.d)
  }

  function Round(r: Regs, t: nat, w: word): Regs {
    Mix(r, F(t, r.b, r.c, r.d), K(t), w)
  }

  /** The registers after one round for every word of the schedule. */
  function Rounds(h: Regs, w: seq<word>): Regs {
    if w == [] then h else Round(Rounds(h, w[..|w| - 1]), |w| - 1, w[|w| - 1])
  }

  function Plus(x: word, y: word): word {
    x + y
  }

  function Add(x: Regs, y: Regs): Regs {
    Regs(Plus(x.a, y.a), Plus(x.b, y.b), Plus(x.c, y.c), Plus(x.d, y.d), Plus(x.e, y.e))
  }

  function Compress(h: Regs, block: seq<byte>): Regs
    requires |block| == BLOCK
  {
    Add(h, Rounds(h, Expand(Words(block))))
  }

  const INITIAL: Regs := Regs(0x67452301, 0xEFCDAB89, 0x98BADCFE, 0x10325476, 0xC3D2E1F0)

  /** The low eight bits of a shifted word. */
  function Octet(w: word): byte {
    (w & 0xff) as byte
  }

  /** Byte `k` of a word, most significant byte first. */
  function ByteAt(w: word, k: nat): byte
    requires k < 4
  {
    if k == 0 then Octet(w >> 24) else if k == 1 then Octet(w >> 16)
    else if k == 2 then Octet(w >> 8) else Octet(w)
  }

  function BytesBe(w: word): (s: seq<byte>)
    ensures |s| == 4
  {
    [ByteAt(w, 0), ByteAt(w, 1), ByteAt(w, 2), ByteAt(w, 3)]
  }

  function DigestOf(h: Regs): (d: seq<byte>)
    ensures |d| == 20
  {
    BytesBe(h.a) + BytesBe(h.b) + BytesBe(h.c) + BytesBe(h.d) + BytesBe(h.e)
  }

  // ---- the hash of a byte string (sections 5.1.1 and 6.1.2)

  /** A compression function, kept abstract where only the chaining matters. */
  type Chain = (Regs, seq<byte>) -> Regs

  /** The chaining value after the first `n` blocks. */
  function Blocks(c: Chain, s: seq<byte>, n: nat): Regs
    requires 64 * n <= |s|
  {
    if n == 0 then INITIAL else c(Blocks(c, s, n - 1), s[64 * (n - 1)..64 * n])
  }

  lemma {:induction false} BlocksPrefix(c: Chain, s: seq<byte>, t: seq<byte>, n: nat)
    requires 64 * n <= |s|
    ensures Blocks(c, s + t, n) == Blocks(c, s, n)
  {
    if n > 0 {
      BlocksPrefix(c, s, t, n - 1);
      assert (s + t)[64 * (n - 1)..64 * n] == s[64 * (n - 1)..64 * n];
    }
  }

  /** The smallest number of zero bytes that leaves eight bytes free in the last block. */
  function PadZeros(length: nat): (z: nat)
    ensures z < 64 && (length + 1 + z) % 64 == 56
  {
    (119 - length % 64) % 64
  }

  const TWO64: nat := 0x1_0000_0000_0000_0000

  /** The length in bits as eight bytes, most significant first. */
  function BitLength(length: nat): (s: seq<byte>)
    ensures |s| == 8 && OfBytes(s) == (8 * length) % TWO64
  {
    assert TWO64 == Pow(256, 8) by { SmallPowers(); }
    FixedRoundTrip((8 * length) % TWO64, 8);
    Fixed((8 * length) % TWO64, 8)
  }

  function Padding(length: nat): seq<byte> {
    [0x80] + Zeros(PadZeros(length)) + BitLength(length)
  }

  function Hash(c: Chain, s: seq<byte>): (d: seq<byte>)
    ensures |d| == 20
  {
    var padded := s + Padding(|s|);
    DigestOf(Blocks(c, padded, |padded| / 64))
  }

  function Sha1(s: seq<byte>): (d: seq<byte>)
    ensures |d| == 20
  {
    Hash(Compressor(), s)
  }

  function Compressor(): Chain {
    (h: Regs, block: seq<byte>) => if |block| == BLOCK then Compress(h, block) else h
  }

  /** Marks the block that the compression function is wanted for. */
  predicate Wanted(h: Regs, block: seq<byte>) {
    true
  }

  ghost predicate IsCompressor(c: Chain) {
    forall h, block {:trigger Wanted(h, block)} ::
      Wanted(h, block) && |block| == BLOCK ==> c(h, block) == Compress(h, block)
  }

  lemma CompressorIs()
    ensures IsCompressor(Compressor())
  {}

  // ---- HMAC (section 2 of RFC 2104)

  function XorPad(key: seq<byte>, pad: byte): (s: seq<byte>)
    requires |key| <= 64
    ensures |s| == 64
  {
    seq(64, i requires 0 <= i < 64 => (key + Zeros(64 - |key|))[i] ^ pad)
  }

  function HmacKey(c: Chain, key: seq<byte>): (k: seq<byte>)
    ensures |k| <= 64
  {
    if |key| > 64 then Hash(c, key) else key
  }

  function Hmac(c: Chain, key: seq<byte>, text: seq<byte>): (d: seq<byte>)
    ensures |d| == 20
  {
    var k := HmacKey(c, key);
    Hash(c, XorPad(k, 0x5C) + Hash(c, XorPad(k, 0x36) + text))
  }
}
