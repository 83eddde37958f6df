/** The streaming hash of tpm-emulator/crypto/sha1.c and the keyed hash of
    tpm-emulator/crypto/hmac.c, both in place, against one-shot SHA-1 and HMAC. */
module Sha1Stream {
  import opened Bytes
  import opened NumberTheory
  import opened Sha1Spec
  import opened Sha1Transform

  /** The two count words hold the length in bits modulo 2^64. */
  ghost predicate Counts(lo: nat, hi: nat, length: nat) {
    lo < 0x1_0000_0000 && hi < 0x1_0000_0000 && exists k: nat :: Wrapped(lo, hi, length, k)
  }

  predicate Wrapped(lo: nat, hi: nat, length: nat, k: nat) {
    lo + 0x1_0000_0000 * hi + 0x1_0000_0000_0000_0000 * k == 8 * length
  }

  lemma CountsZero()
    ensures Counts(0, 0, 0)
  {
    assert Wrapped(0, 0, 0, 0);
  }

  lemma CountsModulo(lo: nat, hi: nat, length: nat)
    requires Counts(lo, hi, length)
    ensures lo + 0x1_0000_0000 * hi == (8 * length) % TWO64
  {}

  /** `(count_lo >> 3) & 63`: the fill of the buffer. */
  function Fill(lo: nat): (off: nat)
    ensures off < 64
  {
    lo / 8 % 64
  }

  lemma FillIs(lo: nat, hi: nat, length: nat)
    requires Counts(lo, hi, length)
    ensures Fill(lo) == length % 64
  {
    var k: nat :| Wrapped(lo, hi, length, k);
    assert length == lo / 8 + 0x2000_0000 * hi + 0x2000_0000_0000_0000 * k;
  }

  lemma FillSplit(lo: nat, hi: nat, length: nat, n: nat)
    requires Counts(lo, hi, length) && 64 * n <= length < 64 * n + 64
    ensures length == 64 * n + Fill(lo)
  {
    FillIs(lo, hi, length);
    Remainder(length, n, Fill(lo));
  }

  lemma Remainder(length: nat, n: nat, off: nat)
    requires 64 * n <= length < 64 * n + 64 && off == length % 64
    ensures length == 64 * n + off
  {}

  /** The counters after adding `length` bytes: the low word is truncated, its carry is seen by
      comparing with the old value, and the high word takes the bits shifted out. */
  method CountUp(lo0: nat, hi0: nat, length: nat, ghost before: nat) returns (lo: nat, hi: nat)
    requires Counts(lo0, hi0, before)
    ensures Counts(lo, hi, before + length)
  {
    lo := (lo0 + 8 * length) % 0x1_0000_0000;
    hi := hi0;
    if lo < lo0 { hi := (hi + 1) % 0x1_0000_0000; }
    hi := (hi + length / 0x2000_0000) % 0x1_0000_0000;
    CountStep(lo0, hi0, length, before, lo, hi);
  }

  lemma CountStep(lo0: nat, hi0: nat, length: nat, before: nat, lo: nat, hi: nat)
    requires Counts(lo0, hi0, before)
    requires lo == (lo0 + 8 * length) % 0x1_0000_0000
    requires hi == (if lo < lo0 then (hi0 + 1) % 0x1_0000_0000 + length / 0x2000_0000
                    else hi0 + length / 0x2000_0000) % 0x1_0000_0000
    ensures Counts(lo, hi, before + length)
  {
    var q, r := length / 0x2000_0000, length % 0x2000_0000;
    assert 8 * length == 0x1_0000_0000 * q + 8 * r && 8 * r < 0x1_0000_0000;
    var carry := if lo0 + 8 * r < 0x1_0000_0000 then 0 else 1;
    LowWord(lo0 + 8 * r, q, lo, carry);
    var total := hi0 + carry + q;
    HighWord(hi0 + carry, q, hi);
    var k: nat :| Wrapped(lo0, hi0, before, k);
    Assemble(lo0, hi0, before, k, length, q, r, carry, lo, hi, total / 0x1_0000_0000);
  }

  lemma Assemble(lo0: nat, hi0: nat, before: nat, k: nat, length: nat, q: nat, r: nat, carry: nat,
                 lo: nat, hi: nat, j: nat)
    requires Wrapped(lo0, hi0, before, k) && 8 * length == 0x1_0000_0000 * q + 8 * r
    requires lo == lo0 + 8 * r - 0x1_0000_0000 * carry
    requires hi0 + carry + q == 0x1_0000_0000 * j + hi
    ensures Wrapped(lo, hi, before + length, k + j)
  {}

  lemma HighWord(high: nat, q: nat, hi: nat)
    requires hi == (high % 0x1_0000_0000 + q) % 0x1_0000_0000
    ensures hi == (high + q) % 0x1_0000_0000
  {
    assert high == 0x1_0000_0000 * (high / 0x1_0000_0000) + high % 0x1_0000_0000;
  }

  lemma LowWord(sum: nat, q: nat, lo: nat, carry: nat)
    requires lo == (sum + 0x1_0000_0000 * q) % 0x1_0000_0000 && sum < 2 * 0x1_0000_0000
    requires carry == if sum < 0x1_0000_0000 then 0 else 1
    ensures lo == sum - 0x1_0000_0000 * carry
  {}

  // ---- the chaining state and the partial block

  /** The state of a message of `n` whole blocks and a rest kept in the buffer. */
  ghost predicate ChainedAt(r: Regs, buf: seq<byte>, c: Chain, msg: seq<byte>, n: nat) {
    && 64 * n <= |msg| < 64 * n + 64 && |buf| == 64
    && r == Blocks(c, msg, n)
    && buf[..|msg| - 64 * n] == msg[64 * n..]
  }

  ghost predicate Chained(r: Regs, buf: seq<byte>, c: Chain, msg: seq<byte>) {
    exists n: nat :: ChainedAt(r, buf, c, msg, n)
  }

  lemma ChainedStart(r: Regs, buf: seq<byte>, c: Chain, msg: seq<byte>)
    requires r == INITIAL && |buf| == 64 && msg == []
    ensures Chained(r, buf, c, msg)
  {
    var n: nat :| n == 0;
    assert ChainedAt(r, buf, c, msg, n);
  }

  lemma ChainedShort(r: Regs, buf: seq<byte>, data: seq<byte>, c: Chain, msg: seq<byte>, n: nat, off: nat)
    requires ChainedAt(r, buf, c, msg, n) && |msg| == 64 * n + off && off + |data| < 64
    ensures Chained(r, buf[..off] + data + buf[off + |data|..], c, msg + data)
  {
    BlocksPrefix(c, msg, data, n);
    assert msg[64 * n..] + data == (msg + data)[64 * n..];
    assert ChainedAt(r, buf[..off] + data + buf[off + |data|..], c, msg + data, n);
  }

  lemma ChainedRest(r: Regs, buf: seq<byte>, rest: seq<byte>, c: Chain, all: seq<byte>, n: nat)
    requires 64 * n <= |all| && all[64 * n..] == rest && |rest| < 64 && |buf| == 64
    requires r == Blocks(c, all, n)
    ensures Chained(r, [] + rest + buf[|rest|..], c, all)
  {
    assert ChainedAt(r, [] + rest + buf[|rest|..], c, all, n);
  }

  lemma FilledBuffer(r: Regs, buf: seq<byte>, data: seq<byte>, c: Chain, msg: seq<byte>, n: nat, off: nat)
    requires ChainedAt(r, buf, c, msg, n) && |msg| == 64 * n + off && |data| + off >= 64
    ensures r == Blocks(c, msg + data, n)
    ensures buf[..off] + data[..64 - off] + buf[64..] == (msg + data)[64 * n..64 * n + 64]
  {
    BlocksPrefix(c, msg, data, n);
    FilledBytes(buf, msg, data, 64 * n, off);
  }

  lemma FilledBytes(buf: seq<byte>, msg: seq<byte>, data: seq<byte>, at: nat, off: nat)
    requires |buf| == 64 && at + off == |msg| && off <= 64 <= |data| + off && buf[..off] == msg[at..]
    ensures buf[..off] + data[..64 - off] + buf[64..] == (msg + data)[at..at + 64]
  {
    assert (msg + data)[at..at + 64] == msg[at..] + data[..64 - off];
    assert buf[64..] == [];
  }

  /** Marks where the state of a context is looked into. */
  predicate Inside(msg: seq<byte>) {
    true
  }

  /** `tpm_sha1_ctx_t`. */
  class Context {
    const h: array<word>
    const buf: array<byte>
    var countLo: nat
    var countHi: nat

    ghost predicate Shape()
      reads this
    {
      h.Length == 5 && buf.Length == 64
    }

    function Registers(): Regs
      requires Shape()
      reads this, h
    {
      Regs(h[0], h[1], h[2], h[3], h[4])
    }

    /** The context after hashing `msg` with chaining function `c`. */
    ghost predicate Holds(c: Chain, msg: seq<byte>)
      reads this, h, buf
    {
      Shape() && forall m {:trigger Inside(m)} :: Inside(m) && m == msg ==>
        Counts(countLo, countHi, |m|) && Chained(Registers(), buf[..], c, m)
    }

    constructor ()
      ensures Shape() && fresh(h) && fresh(buf)
    {
      h := new word[5];
      buf := new byte[64];
      countLo, countHi := 0, 0;
    }

    method Load(r: Regs)
      requires Shape()
      modifies h
      ensures Registers() == r
    {
      h[0], h[1], h[2], h[3], h[4] := r.a, r.b, r.c, r.d, r.e;
    }

    /** `tpm_sha1_init`. */
    method Init(ghost c: Chain)
      requires Shape()
      modifies this, h
      ensures Holds(c, [])
    {
      countLo, countHi := 0, 0;
      CountsZero();
      Load(INITIAL);
      ChainedStart(Registers(), buf[..], c, []);
    }

    /** The next block of `all` goes through `tpm_sha1_transform`. */
    method Block(data: seq<byte>, littleEndian: bool, ghost c: Chain, ghost all: seq<byte>, ghost n: nat)
      requires Shape() && IsCompressor(c)
      requires 64 * n + 64 <= |all| && data == all[64 * n..64 * n + 64]
      requires Registers() == Blocks(c, all, n)
      modifies h
      ensures Registers() == Blocks(c, all, n + 1)
    {
      assert Wanted(Registers(), data);
      Transform(h, data, littleEndian);
    }

    /** The loop over the whole blocks of `data` from `start` on. */
    method WholeBlocks(data: seq<byte>, start: nat, littleEndian: bool, ghost c: Chain, ghost all: seq<byte>,
                       ghost n: nat)
      returns (dataOff: nat, ghost m: nat)
      requires Shape() && IsCompressor(c) && start <= |data| && |all| - |data| + start == 64 * n
      requires 64 * n - start >= 0 && all[64 * n - start..] == data
      requires Registers() == Blocks(c, all, n)
      modifies h
      ensures dataOff <= |data| < dataOff + 64 && |all| - |data| + dataOff == 64 * m
      ensures Registers() == Blocks(c, all, m)
    {
      dataOff, m := start, n;
      while dataOff + 64 <= |data|
        invariant dataOff <= |data| && |all| - |data| + dataOff == 64 * m
        invariant Registers() == Blocks(c, all, m)
      {
        assert data[dataOff..dataOff + 64] == all[64 * m..64 * m + 64];
        Block(data[dataOff..dataOff + 64], littleEndian, c, all, m);
        dataOff := dataOff + 64;
        m := m + 1;
      }
    }

    /** The full blocks of `data`, once it fills the buffer of `off` bytes. */
    method FullBlocks(data: seq<byte>, off: nat, littleEndian: bool, ghost c: Chain, ghost msg: seq<byte>, ghost n: nat)
      returns (dataOff: nat, ghost m: nat)
      requires Shape() && IsCompressor(c) && |msg| == 64 * n + off && |data| + off >= 64
      requires ChainedAt(Registers(), buf[..], c, msg, n)
      modifies h, buf
      ensures dataOff <= |data| < dataOff + 64 && |msg| + dataOff == 64 * m
      ensures Registers() == Blocks(c, msg + data, m)
    {
      ghost var all := msg + data;
      FilledBuffer(Registers(), buf[..], data, c, msg, n, off);
      Write(buf, off, data[..64 - off]);
      Block(buf[..], littleEndian, c, all, n);
      dataOff, m := WholeBlocks(data, 64 - off, littleEndian, c, all, n + 1);
    }

    /** The part of `tpm_sha1_update` before the counters. */
    method Absorb(data: seq<byte>, off: nat, littleEndian: bool, ghost c: Chain, ghost msg: seq<byte>, ghost n: nat)
      requires Shape() && IsCompressor(c) && |msg| == 64 * n + off
      requires ChainedAt(Registers(), buf[..], c, msg, n)
      modifies h, buf
      ensures Chained(Registers(), buf[..], c, msg + data)
    {
      if |data| + off >= 64 {
        var dataOff;
        ghost var m;
        dataOff, m := FullBlocks(data, off, littleEndian, c, msg, n);
        assert (msg + data)[64 * m..] == data[dataOff..];
        ChainedRest(Registers(), buf[..], data[dataOff..], c, msg + data, m);
        Write(buf, 0, data[dataOff..]);
      } else {
        ChainedShort(Registers(), buf[..], data, c, msg, n, off);
        Write(buf, off, data);
      }
    }

    lemma SplitAt(c: Chain, msg: seq<byte>) returns (n: nat)
      requires Holds(c, msg)
      ensures ChainedAt(Registers(), buf[..], c, msg, n) && |msg| == 64 * n + Fill(countLo)
      ensures Counts(countLo, countHi, |msg|)
    {
      assert Inside(msg);
      n :| ChainedAt(Registers(), buf[..], c, msg, n);
      FillSplit(countLo, countHi, |msg|, n);
    }

    /** `tpm_sha1_update`: the context of a message becomes that of the longer message. */
    method Update(data: seq<byte>, littleEndian: bool, ghost c: Chain, ghost msg: seq<byte>)
      requires Holds(c, msg) && IsCompressor(c)
      modifies this, h, buf
      ensures Holds(c, msg + data)
    {
      ghost var n := SplitAt(c, msg);
      Absorb(data, Fill(countLo), littleEndian, c, msg, n);
      Count(|data|, |msg|);
    }

    method Count(length: nat, ghost before: nat)
      requires Counts(countLo, countHi, before)
      modifies this
      ensures Counts(countLo, countHi, before + length)
    {
      countLo, countHi := CountUp(countLo, countHi, length, before);
    }

    /** The bytes of the chaining state. */
    method Digest(digest: array<byte>)
      requires Shape() && digest.Length == 20
      modifies digest
      ensures digest[..] == DigestOf(Registers())
    {
      var d := 0;
      while d < 20
        invariant 0 <= d <= 20
        invariant forall j :: 0 <= j < d ==> digest[j] == ByteAt(h[j / 4], j % 4)
      {
        digest[d] := ByteAt(h[d / 4], d % 4);
        d := d + 1;
      }
      forall i, k | 0 <= i < 5 && 0 <= k < 4
        ensures digest[4 * i + k] == ByteAt(h[i], k)
      {
        assert (4 * i + k) / 4 == i && (4 * i + k) % 4 == k;
      }
      DigestBytes(h[..], digest[..]);
    }

    lemma FillOf(c: Chain, msg: seq<byte>)
      requires Holds(c, msg)
      ensures Fill(countLo) == |msg| % 64
    {
      assert Inside(msg);
      FillIs(countLo, countHi, |msg|);
    }

    /** The marker byte and the zeros of `tpm_sha1_final`; the loop ends after PadZeros turns. */
    method Pad(littleEndian: bool, ghost c: Chain, ghost msg: seq<byte>)
      requires Holds(c, msg) && IsCompressor(c)
      modifies this, h, buf
      ensures Holds(c, msg + [0x80] + Zeros(PadZeros(|msg|)))
    {
      Update([0x80], littleEndian, c, msg);
      ghost var marked, k := msg + [0x80], 0;
      assert marked + Zeros(0) == marked;
      FillOf(c, marked);
      while Fill(countLo) != 56
        invariant k <= PadZeros(|msg|)
        invariant Holds(c, marked + Zeros(k)) && Fill(countLo) == (|marked| + k) % 64
        decreases PadZeros(|msg|) - k
      {
        Update([0], littleEndian, c, marked + Zeros(k));
        MoreZeros(marked, k);
        k := k + 1;
        FillOf(c, marked + Zeros(k));
      }
      SamePad(|msg|, k);
    }

    /** `memset(ctx, 0, sizeof(*ctx))`. */
    method Clear()
      requires Shape()
      modifies this, h, buf
      ensures Cleared()
    {
      Write(buf, 0, Zeros(64));
      countLo, countHi := 0, 0;
      Load(Regs(0, 0, 0, 0, 0));
    }

    ghost predicate Cleared()
      reads this, h, buf
    {
      Shape() && countLo == countHi == 0 && Registers() == Regs(0, 0, 0, 0, 0) && buf[..] == Zeros(64)
    }

    /** `tpm_sha1_final`: the digest of everything hashed, and a cleared context. */
    method Final(digest: array<byte>, littleEndian: bool, ghost c: Chain, ghost msg: seq<byte>)
      requires Holds(c, msg) && IsCompressor(c) && digest.Length == 20 && digest != buf
      modifies this, h, buf, digest
      ensures digest[..] == Hash(c, msg) && Cleared()
    {
      var counter := CounterBytes(countHi, countLo);
      assert Inside(msg);
      CounterIs(countLo, countHi, |msg|, counter);
      ghost var marked := msg + [0x80] + Zeros(PadZeros(|msg|));
      Pad(littleEndian, c, msg);
      Update(counter, littleEndian, c, marked);
      assert Inside(marked + counter);
      FinalState(Registers(), buf[..], c, msg);
      Digest(digest);
      Clear();
    }
  }

  lemma FinalState(r: Regs, buf: seq<byte>, c: Chain, msg: seq<byte>)
    requires Chained(r, buf, c, msg + [0x80] + Zeros(PadZeros(|msg|)) + BitLength(|msg|))
    ensures DigestOf(r) == Hash(c, msg)
  {
    var marked := msg + [0x80] + Zeros(PadZeros(|msg|));
    var n: nat :| ChainedAt(r, buf, c, marked + BitLength(|msg|), n);
    assert marked + BitLength(|msg|) == msg + Padding(|msg|);
    assert n == |msg + Padding(|msg|)| / 64;
  }

  lemma MoreZeros(s: seq<byte>, k: nat)
    ensures s + Zeros(k) + [0] == s + Zeros(k + 1)
  {}

  lemma SamePad(length: nat, k: nat)
    requires k <= PadZeros(length) && (length + 1 + k) % 64 == 56
    ensures k == PadZeros(length)
  {}

  lemma DigestBytes(h: seq<word>, digest: seq<byte>)
    requires |h| == 5 && |digest| == 20
    requires forall i, k :: 0 <= i < 5 && 0 <= k < 4 ==> digest[4 * i + k] == ByteAt(h[i], k)
    ensures digest == DigestOf(RegsOf(h))
  {
    forall i | 0 <= i < 5
      ensures digest[4 * i..4 * i + 4] == BytesBe(h[i])
    {
      WordBytes(h, digest, i);
    }
    assert digest == digest[4 * 0..4 * 0 + 4] + digest[4 * 1..4 * 1 + 4] + digest[4 * 2..4 * 2 + 4]
                     + digest[4 * 3..4 * 3 + 4] + digest[4 * 4..4 * 4 + 4];
  }

  lemma WordBytes(h: seq<word>, digest: seq<byte>, i: nat)
    requires i < |h| && 4 * i + 4 <= |digest|
    requires forall k :: 0 <= k < 4 ==> digest[4 * i + k] == ByteAt(h[i], k)
    ensures digest[4 * i..4 * i + 4] == BytesBe(h[i])
  {
    assert digest[4 * i + 0] == ByteAt(h[i], 0);
    assert digest[4 * i + 1] == ByteAt(h[i], 1);
    assert digest[4 * i + 2] == ByteAt(h[i], 2);
    assert digest[4 * i + 3] == ByteAt(h[i], 3);
  }

  // ---- the length field

  /** `(x >> (24 - d * 8)) & 0xff`. */
  function CountByte(x: nat, d: nat): byte
    requires d < 4
  {
    LowByte(ShiftRight(x, 3 - d))
  }

  /** The number shifted right by `k` bytes. */
  function ShiftRight(x: nat, k: nat): nat {
    if k == 0 then x else ShiftRight(x / 256, k - 1)
  }

  method CounterBytes(hi: nat, lo: nat) returns (counter: seq<byte>)
    ensures |counter| == 8
    ensures forall d :: 0 <= d < 4 ==> counter[d] == CountByte(hi, d)
    ensures forall d :: 0 <= d < 4 ==> counter[d + 4] == CountByte(lo, d)
  {
    var bytes := new byte[8];
    var d := 0;
    while d < 4
      invariant 0 <= d <= 4
      invariant forall j :: 0 <= j < d ==> bytes[j] == CountByte(hi, j)
      invariant forall j :: 0 <= j < d ==> bytes[j + 4] == CountByte(lo, j)
    {
      bytes[d] := CountByte(hi, d);
      bytes[d + 4] := CountByte(lo, d);
      d := d + 1;
    }
    counter := bytes[..];
  }

  lemma {:induction false} OfBytesConcat(s: seq<byte>, t: seq<byte>)
    ensures OfBytes(s + t) == OfBytes(s) * Pow(256, |t|) + OfBytes(t)
    decreases |t|
  {
    if t == [] {
      assert s + t == s;
    } else {
      var u := t[..|t| - 1];
      OfBytesConcat(s, u);
      assert (s + t)[..|s + t| - 1] == s + u;
      Scale(OfBytes(s), Pow(256, |u|));
    }
  }

  lemma Scale(x: int, p: int)
    ensures 256 * (x * p) == x * (256 * p)
  {}

  lemma {:induction false} OfLowBytes(x: nat, k: nat, s: seq<byte>)
    requires |s| == k && forall d :: 0 <= d < k ==> s[d] == LowByte(ShiftRight(x, k - 1 - d))
    requires x < Pow(256, k)
    ensures OfBytes(s) == x
    decreases k
  {
    if k > 0 {
      DivLess(x, Pow(256, k - 1));
      OfLowBytes(x / 256, k - 1, s[..k - 1]);
      assert s[k - 1] == LowByte(ShiftRight(x, 0));
    }
  }

  lemma CounterIs(lo: nat, hi: nat, length: nat, counter: seq<byte>)
    requires Counts(lo, hi, length) && |counter| == 8
    requires forall d :: 0 <= d < 4 ==> counter[d] == CountByte(hi, d)
    requires forall d :: 0 <= d < 4 ==> counter[d + 4] == CountByte(lo, d)
    ensures counter == BitLength(length)
  {
    SmallPowers();
    CountsModulo(lo, hi, length);
    forall d | 0 <= d < 4
      ensures counter[4..][d] == LowByte(ShiftRight(lo, 4 - 1 - d))
    {
      assert counter[d + 4] == CountByte(lo, d);
    }
    OfLowBytes(hi, 4, counter[..4]);
    OfLowBytes(lo, 4, counter[4..]);
    OfBytesConcat(counter[..4], counter[4..]);
    assert counter == counter[..4] + counter[4..];
    OfBytesInjective(counter, BitLength(length));
  }

  // ---- every way of cutting a message

  function Joined(pieces: seq<seq<byte>>): seq<byte> {
    if pieces == [] then [] else Joined(pieces[..|pieces| - 1]) + pieces[|pieces| - 1]
  }

  /** init, one update per piece (empty pieces included), final: the hash of the whole. */
  method HashPieces(pieces: seq<seq<byte>>, littleEndian: bool) returns (digest: array<byte>)
    ensures digest.Length == 20 && digest[..] == Sha1(Joined(pieces))
  {
    CompressorIs();
    ghost var c := Compressor();
    digest := new byte[20];
    var ctx := new Context();
    ctx.Init(c);
    var i := 0;
    while i < |pieces|
      invariant 0 <= i <= |pieces| && fresh(ctx) && fresh(ctx.h) && fresh(ctx.buf)
      invariant ctx.Holds(c, Joined(pieces[..i])) && digest.Length == 20 && digest != ctx.buf
    {
      ctx.Update(pieces[i], littleEndian, c, Joined(pieces[..i]));
      assert pieces[..i + 1][..i] == pieces[..i];
      i := i + 1;
    }
    assert pieces[..i] == pieces;
    ctx.Final(digest, littleEndian, c, Joined(pieces));
  }

  // ---- tpm-emulator/crypto/hmac.c

  /** `tpm_hmac_ctx_t`. */
  class HmacContext {
    const ctx: Context
    const kOpad: array<byte>

    /** The context after absorbing `text` under `key`. */
    ghost predicate Holds(c: Chain, key: seq<byte>, text: seq<byte>)
      reads this, kOpad, ctx, ctx.h, ctx.buf
    {
      && kOpad.Length == 64 && kOpad != ctx.buf
      && kOpad[..] == XorPad(HmacKey(c, key), 0x5C)
      && ctx.Holds(c, XorPad(HmacKey(c, key), 0x36) + text)
    }

    ghost predicate Shape()
      reads this, ctx
    {
      kOpad.Length == 64 && kOpad != ctx.buf && ctx.Shape()
    }

    constructor ()
      ensures Shape() && fresh(ctx) && fresh(ctx.h) && fresh(ctx.buf) && fresh(kOpad)
    {
      ctx := new Context();
      kOpad := new byte[64];
    }

    /** The key, hashed first when it is longer than a block. */
    method ShortKey(key: seq<byte>, littleEndian: bool, ghost c: Chain) returns (k: seq<byte>)
      requires Shape() && IsCompressor(c)
      modifies ctx, ctx.h, ctx.buf
      ensures k == HmacKey(c, key)
    {
      k := key;
      if |key| > 64 {
        var tk := new byte[20];
        ctx.Init(c);
        ctx.Update(key, littleEndian, c, []);
        assert [] + key == key;
        ctx.Final(tk, littleEndian, c, key);
        k := tk[..];
      }
    }

    /** `tpm_hmac_init`. */
    method Init(key: seq<byte>, littleEndian: bool, ghost c: Chain)
      requires Shape() && IsCompressor(c)
      modifies ctx, ctx.h, ctx.buf, kOpad
      ensures Holds(c, key, [])
    {
      var k := ShortKey(key, littleEndian, c);
      var kIpad := new byte[64];
      Pads(k, kIpad, kOpad);
      ctx.Init(c);
      ctx.Update(kIpad[..], littleEndian, c, []);
      assert [] + kIpad[..] == XorPad(k, 0x36) + [];
    }

    /** `tpm_hmac_update`. */
    method Update(data: seq<byte>, littleEndian: bool, ghost c: Chain, ghost key: seq<byte>, ghost text: seq<byte>)
      requires Holds(c, key, text) && IsCompressor(c)
      modifies ctx, ctx.h, ctx.buf
      ensures Holds(c, key, text + data)
    {
      ghost var ipad := XorPad(HmacKey(c, key), 0x36);
      assert ipad + text + data == ipad + (text + data);
      ctx.Update(data, littleEndian, c, ipad + text);
    }

    /** `tpm_hmac_final`. */
    method Final(digest: array<byte>, littleEndian: bool, ghost c: Chain, ghost key: seq<byte>, ghost text: seq<byte>)
      requires Holds(c, key, text) && IsCompressor(c)
      requires digest.Length == 20 && digest != ctx.buf && digest != kOpad
      modifies ctx, ctx.h, ctx.buf, digest
      ensures digest[..] == Hmac(c, key, text)
    {
      ghost var opad := XorPad(HmacKey(c, key), 0x5C);
      ctx.Final(digest, littleEndian, c, XorPad(HmacKey(c, key), 0x36) + text);
      ctx.Init(c);
      ctx.Update(kOpad[..], littleEndian, c, []);
      assert [] + kOpad[..] == opad;
      ghost var inner := digest[..];
      ctx.Update(digest[..], littleEndian, c, opad);
      ctx.Final(digest, littleEndian, c, opad + inner);
    }
  }

  /** init, one update per piece, final: the keyed hash of the whole, for a key of any length. */
  method HmacPieces(key: seq<byte>, pieces: seq<seq<byte>>, littleEndian: bool)
    returns (digest: array<byte>)
    ensures digest.Length == 20 && digest[..] == Hmac(Compressor(), key, Joined(pieces))
  {
    CompressorIs();
    ghost var c := Compressor();
    digest := new byte[20];
    var hmac := new HmacContext();
    hmac.Init(key, littleEndian, c);
    var i := 0;
    while i < |pieces|
      invariant 0 <= i <= |pieces| && fresh(hmac) && fresh(hmac.ctx) && fresh(hmac.ctx.h)
      invariant fresh(hmac.ctx.buf) && digest != hmac.kOpad
      invariant hmac.Holds(c, key, Joined(pieces[..i])) && digest.Length == 20 && digest != hmac.ctx.buf
    {
      hmac.Update(pieces[i], littleEndian, c, key, Joined(pieces[..i]));
      assert pieces[..i + 1][..i] == pieces[..i];
      i := i + 1;
    }
    assert pieces[..i] == pieces;
    hmac.Final(digest, littleEndian, c, key, Joined(pieces));
  }

  /** The key, zero-filled to a block. */
  method FillPad(k: seq<byte>, pad: array<byte>)
    requires |k| <= 64 && pad.Length == 64
    modifies pad
    ensures pad[..] == k + Zeros(64 - |k|)
  {
    Write(pad, 0, Zeros(64));
    Write(pad, 0, k);
  }

  /** The two pads: the key, zero-filled to a block, XORed in place. */
  method Pads(k: seq<byte>, kIpad: array<byte>, kOpad: array<byte>)
    requires |k| <= 64 && kIpad.Length == kOpad.Length == 64 && kIpad != kOpad
    modifies kIpad, kOpad
    ensures kIpad[..] == XorPad(k, 0x36) && kOpad[..] == XorPad(k, 0x5C)
  {
    ghost var padded := k + Zeros(64 - |k|);
    FillPad(k, kIpad);
    FillPad(k, kOpad);
    var i := 0;
    while i < 64
      invariant 0 <= i <= 64
      invariant forall j :: 0 <= j < i ==> kIpad[j] == padded[j] ^ 0x36
      invariant forall j :: i <= j < 64 ==> kIpad[j] == padded[j]
      invariant forall j :: 0 <= j < i ==> kOpad[j] == padded[j] ^ 0x5C
      invariant forall j :: i <= j < 64 ==> kOpad[j] == padded[j]
    {
      kIpad[i] := kIpad[i] ^ 0x36;
      kOpad[i] := kOpad[i] ^ 0x5C;
      i := i + 1;
    }
  }
}
