/** RC4, SHA-1 and the keyed digest told entry by entry and byte by byte
    (tpm-emulator/crypto/rc4.c, sha1.c, hmac.c). */
module CipherLaws {
  import opened Bytes
  import Rc4
  import Sha1Spec

  // ---- RC4

  /** Entries `i` and `j` of a table change places. */
  predicate Exchanged(t: seq<int>, u: seq<int>, i: int, j: int) {
    && |t| == |u| == 256 && 0 <= i < 256 && 0 <= j < 256 && u[i] == t[j] && u[j] == t[i]
    && forall k :: 0 <= k < 256 && k != i && k != j ==> u[k] == t[k]
  }

  /** The key schedule starts from the table in order. */
  lemma ScheduleStart(key: seq<byte>, k: nat)
    requires key != [] && k < 256
    ensures Rc4.Scheduled(key, 0).0[k] == k && Rc4.Scheduled(key, 0).1 == 0
  {}

  /** It moves the second index by the entry and the key byte, the key being used again when it is
      through. */
  lemma ScheduleStep(key: seq<byte>, i: nat)
    requires key != [] && i < 256
    ensures var (t, j) := Rc4.Scheduled(key, i); var (u, k) := Rc4.Scheduled(key, i + 1);
      k == (j + (t[i] + key[i % |key|] as int) % 256) % 256 && Exchanged(t, u, i, k)
  {
    Swaps(Rc4.Scheduled(key, i).0, i, Rc4.Scheduled(key, i + 1).1);
  }

  lemma Swaps(t: seq<int>, i: int, j: int)
    requires |t| == 256 && 0 <= i < 256 && 0 <= j < 256
    ensures Exchanged(t, Rc4.Swap(t, i, j), i, j)
  {}

  /** One step of the generator. */
  lemma GeneratorStep(s: Rc4.State)
    requires Rc4.Sized(s)
    ensures var r := Rc4.NextState(s);
      && r.x == (s.x + 1) % 256 && r.y == (s.y + s.table[r.x]) % 256 && Exchanged(s.table, r.table, r.x, r.y)
      && Rc4.KeyByte(r) == r.table[(r.table[r.x] + r.table[r.y]) % 256]
  {}

  /** Encryption starts 256 steps after the schedule, and each byte is covered by the key byte of the
      next step. */
  lemma EncryptedByte(key: seq<byte>, text: seq<byte>, i: nat)
    requires key != [] && i < |text|
    ensures var s := Rc4.State(Rc4.Scheduled(key, 256).0, 0, 0);
      && Rc4.Keyed(key) == Rc4.After(s, 256)
      && Rc4.Crypted(Rc4.Keyed(key), text)[i] ==
           text[i] ^ LowByte(Rc4.KeyByte(Rc4.After(Rc4.Keyed(key), i + 1)) % 256)
  {}

  lemma AfterSteps(s: Rc4.State, n: nat)
    requires Rc4.Sized(s)
    ensures Rc4.After(s, 0) == s && Rc4.After(s, n + 1) == Rc4.NextState(Rc4.After(s, n))
  {}

  // ---- HMAC

  /** A key padded to a block, each byte combined with the same byte. */
  predicate PaddedKey(block: seq<byte>, key: seq<byte>, pad: byte) {
    && |block| == 64 && |key| <= 64
    && forall i :: 0 <= i < 64 ==> block[i] == (if i < |key| then key[i] else 0) ^ pad
  }

  /** RFC 2104: H(K ^ opad, H(K ^ ipad, text)), and a key of more than one block is hashed first. */
  lemma HmacIs(c: Sha1Spec.Chain, key: seq<byte>, text: seq<byte>, inner: seq<byte>, outer: seq<byte>)
    requires var k := if |key| > 64 then Sha1Spec.Hash(c, key) else key;
      PaddedKey(inner, k, 0x36) && PaddedKey(outer, k, 0x5c)
    ensures Sha1Spec.Hmac(c, key, text) == Sha1Spec.Hash(c, outer + Sha1Spec.Hash(c, inner + text))
  {
    var k := if |key| > 64 then Sha1Spec.Hash(c, key) else key;
    PaddedIs(inner, k, 0x36);
    PaddedIs(outer, k, 0x5c);
  }

  lemma PaddedIs(block: seq<byte>, key: seq<byte>, pad: byte)
    requires PaddedKey(block, key, pad)
    ensures block == Sha1Spec.XorPad(key, pad)
  {
    var s := Sha1Spec.XorPad(key, pad);
    forall i | 0 <= i < 64 ensures block[i] == s[i] {
      assert (key + Zeros(64 - |key|))[i] == if i < |key| then key[i] else 0;
    }
  }

  // ---- SHA-1

  /** The constants of the rounds are the square roots of 2, 3, 5 and 10, scaled by 2^30 and cut. */
  lemma RoundConstants(t: nat)
    requires t < 80
    ensures var n := if t < 20 then 2 else if t < 40 then 3 else if t < 60 then 5 else 10;
      var k := Sha1Spec.K(t) as int;
      k * k <= n * 0x1000_0000_0000_0000 < (k + 1) * (k + 1)
  {}

  /** The initial registers count the half-bytes up and down, least significant byte first. */
  lemma InitialRegisters()
    ensures var h := Sha1Spec.INITIAL;
      && Backwards(Sha1Spec.BytesBe(h.a)) == [0x01, 0x23, 0x45, 0x67]
      && Backwards(Sha1Spec.BytesBe(h.b)) == [0x89, 0xab, 0xcd, 0xef]
      && Backwards(Sha1Spec.BytesBe(h.c)) == [0xfe, 0xdc, 0xba, 0x98]
      && Backwards(Sha1Spec.BytesBe(h.d)) == [0x76, 0x54, 0x32, 0x10]
      && Backwards(Sha1Spec.BytesBe(h.e)) == [0xf0, 0xe1, 0xd2, 0xc3]
  {}

  function Backwards(s: seq<byte>): (r: seq<byte>)
    requires |s| == 4
  {
    [s[3], s[2], s[1], s[0]]
  }

  /** The function of a round, with `or` in place of the sums of the standard. */
  lemma RoundFunction(t: nat, x: Sha1Spec.word, y: Sha1Spec.word, z: Sha1Spec.word)
    ensures t < 20 ==> Sha1Spec.F(t, x, y, z) == (x & y) | (!x & z)
    ensures 20 <= t < 40 || 60 <= t ==> Sha1Spec.F(t, x, y, z) == x ^ y ^ z
    ensures 40 <= t < 60 ==> Sha1Spec.F(t, x, y, z) == (x & y) | (x & z) | (y & z)
  {}

  /** One round moves the registers on. */
  lemma RoundMoves(r: Sha1Spec.Regs, t: nat, w: Sha1Spec.word)
    ensures var u, rotated := Sha1Spec.Round(r, t, w), Sha1Spec.Rotl5(r.a);
      && u.a == Sha1Spec.Sum(rotated, Sha1Spec.F(t, r.b, r.c, r.d), r.e, Sha1Spec.K(t), w)
      && u.b == r.a && u.c == Sha1Spec.Rotl30(r.b) && u.d == r.c && u.e == r.d
  {}

  lemma Sums(x: Sha1Spec.word, f: Sha1Spec.word, e: Sha1Spec.word, k: Sha1Spec.word, w: Sha1Spec.word)
    ensures Sha1Spec.Sum(x, f, e, k, w) == x + f + e + k + w && Sha1Spec.Plus(x, f) == x + f
  {}

  lemma Rotations(x: Sha1Spec.word)
    ensures Sha1Spec.Rotl1(x) == x.RotateLeft(1)
    ensures Sha1Spec.Rotl5(x) == x.RotateLeft(5) && Sha1Spec.Rotl30(x) == x.RotateLeft(30)
  {}

  /** The schedule: the words of the block, then each word from four before it. */
  lemma ScheduleWord(block: seq<byte>, t: nat)
    requires |block| == 64 && t < 80
    ensures var w := Sha1Spec.Expand(Sha1Spec.Words(block));
      && (t < 16 ==> Sha1Spec.BytesBe(w[t]) == block[4 * t..4 * t + 4])
      && (t >= 16 ==> w[t] == (w[t - 3] ^ w[t - 8] ^ w[t - 14] ^ w[t - 16]).RotateLeft(1))
  {
    var m := Sha1Spec.Words(block);
    var w := Sha1Spec.Expand(m);
    if t < 16 {
      assert w[t] == m[t];
      WordBytes(block[4 * t], block[4 * t + 1], block[4 * t + 2], block[4 * t + 3]);
      assert block[4 * t..4 * t + 4] == [block[4 * t], block[4 * t + 1], block[4 * t + 2], block[4 * t + 3]];
    } else {
      Sha1Spec.ExpandAt(m, t);
      Rotations(w[t - 3] ^ w[t - 8] ^ w[t - 14] ^ w[t - 16]);
    }
  }

  lemma WordBytes(a: byte, b: byte, c: byte, d: byte)
    ensures Sha1Spec.BytesBe(Sha1Spec.WordBe(a, b, c, d)) == [a, b, c, d]
  {}

  /** What follows the message: 80, zero bytes up to the next multiple of 64 less 8, the length. */
  lemma PaddedMessage(n: nat)
    ensures var p := Sha1Spec.Padding(n); var z := |p| - 9;
      && 0 <= z < 64 && (n + |p|) % 64 == 0 && p[0] == 0x80 && (forall i :: 1 <= i < 1 + z ==> p[i] == 0)
      && OfBytes(p[1 + z..]) == (8 * n) % 0x1_0000_0000_0000_0000
  {
    PaddingParts(Sha1Spec.PadZeros(n), Sha1Spec.BitLength(n));
    Whole(n, Sha1Spec.PadZeros(n));
  }

  lemma Whole(n: nat, z: nat)
    requires (n + 1 + z) % 64 == 56
    ensures (n + (9 + z)) % 64 == 0
  {}

  lemma PaddingParts(z: nat, length: seq<byte>)
    requires |length| == 8
    ensures var p := [0x80] + Zeros(z) + length;
      |p| == 9 + z && p[0] == 0x80 && (forall i :: 1 <= i < 1 + z ==> p[i] == 0) && p[1 + z..] == length
  {}

  /** The digest is the registers after the last block, each block added to the registers before. */
  lemma ChainStep(h: Sha1Spec.Regs, block: seq<byte>, r: Sha1Spec.Regs)
    requires |block| == 64 && r == Sha1Spec.Rounds(h, Sha1Spec.Expand(Sha1Spec.Words(block)))
    ensures var u := Sha1Spec.Compress(h, block);
      && u.a == Sha1Spec.Plus(h.a, r.a) && u.b == Sha1Spec.Plus(h.b, r.b) && u.c == Sha1Spec.Plus(h.c, r.c)
      && u.d == Sha1Spec.Plus(h.d, r.d) && u.e == Sha1Spec.Plus(h.e, r.e)
  {}

  lemma DigestBytes(h: Sha1Spec.Regs)
    ensures var d := Sha1Spec.DigestOf(h);
      && d[0..4] == Sha1Spec.BytesBe(h.a) && d[4..8] == Sha1Spec.BytesBe(h.b) && d[8..12] == Sha1Spec.BytesBe(h.c)
      && d[12..16] == Sha1Spec.BytesBe(h.d) && d[16..20] == Sha1Spec.BytesBe(h.e)
  {}
}
