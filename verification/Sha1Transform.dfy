/** `tpm_sha1_transform` of tpm-emulator/crypto/sha1.c: eighty unrolled rounds that rename the
    registers instead of moving them, over a circular buffer of sixteen words, refine the
    compression function of FIPS 180-4. */
module Sha1Transform {
  import opened Bytes
  import opened Sha1Spec

  /** The word of four bytes on a little-endian host. */
  function WordLe(b0: byte, b1: byte, b2: byte, b3: byte): word {
    (b0 as word) | ((b1 as word) << 8) | ((b2 as word) << 16) | ((b3 as word) << 24)
  }

  /** Macro B0 on a little-endian host: swap the bytes of a word. */
  function Swap(w: word): word {
    ((w & 0xff000000) >> 24) | ((w & 0x00ff0000) >> 8) | ((w & 0x0000ff00) << 8)
      | ((w & 0x000000ff) << 24)
  }

  lemma SwapLe(b0: byte, b1: byte, b2: byte, b3: byte)
    ensures Swap(WordLe(b0, b1, b2, b3)) == WordBe(b0, b1, b2, b3)
  {}

  // Macros F0, F1 and F2

  function F0(x: word, y: word, z: word): word {
    (x & (y ^ z)) ^ z
  }

  function F1(x: word, y: word, z: word): word {
    x ^ y ^ z
  }

  function F2(x: word, y: word, z: word): word {
    ((x | y) & z) | (x & y)
  }

  lemma F0IsChoose(x: word, y: word, z: word)
    ensures F0(x, y, z) == Choose(x, y, z)
  {
    ChooseBits(x, y, z);
  }

  lemma ChooseBits(x: word, y: word, z: word)
    ensures (x & (y ^ z)) ^ z == (x & y) ^ (!x & z)
  {}

  lemma F2IsMajority(x: word, y: word, z: word)
    ensures F2(x, y, z) == Majority(x, y, z)
  {
    MajorityBits(x, y, z);
  }

  lemma MajorityBits(x: word, y: word, z: word)
    ensures ((x | y) & z) | (x & y) == (x & y) ^ (x & z) ^ (y & z)
  {}

  // ---- the schedule and the registers, round by round

  /** Marks the round that a quantified fact is wanted for. */
  predicate Now(t: int) {
    true
  }

  /** A computation of the eighty rounds: the schedule words and the registers after t rounds. */
  ghost predicate IsRun(w: int -> word, run: int -> Regs) {
    && (forall t {:trigger Now(t)} :: Now(t) && 16 <= t < 80 ==>
          w(t) == Rotl1(Xor4(w(t - 3), w(t - 8), w(t - 14), w(t - 16))))
    && (forall t {:trigger Now(t)} :: Now(t) && 0 <= t < 80 ==>
          run(t + 1) == Round(run(t), t, w(t)))
  }

  /** The words of the schedule that the circular buffer holds before round t. */
  ghost predicate Window(buf: seq<word>, w: int -> word, raw: seq<word>, t: nat) {
    && |buf| == 16 && |raw| == 16
    && (forall k :: 0 <= k < t && t - 16 <= k ==> buf[k % 16] == w(k))
    && (forall k :: t <= k < 16 ==> buf[k] == raw[k])
  }

  /** Macro B0: the next word comes from the block, swapped on a little-endian host. */
  method B0(buf: array<word>, i: nat, swap: bool, ghost w: int -> word, ghost raw: seq<word>)
    returns (v: word)
    requires i < 16 && buf.Length == 16 && Window(buf[..], w, raw, i)
    requires w(i) == if swap then Swap(raw[i]) else raw[i]
    modifies buf
    ensures v == w(i) && Window(buf[..], w, raw, i + 1)
  {
    ghost var before := buf[..];
    if swap { buf[i] := Swap(buf[i]); }
    v := buf[i];
    assert buf[..] == before[i := w(i)];
  }

  /** Macro B1: the next word is computed from the sixteen before it and replaces the oldest. */
  method B1(buf: array<word>, i: nat, ghost w: int -> word, ghost raw: seq<word>) returns (v: word)
    requires 16 <= i && buf.Length == 16 && Window(buf[..], w, raw, i)
    requires w(i) == Rotl1(Xor4(w(i - 3), w(i - 8), w(i - 14), w(i - 16)))
    modifies buf
    ensures v == w(i) && Window(buf[..], w, raw, i + 1)
  {
    ghost var before := buf[..];
    var x0, x1, x2, x3 := buf[i % 16], buf[(i - 14) % 16], buf[(i - 8) % 16], buf[(i - 3) % 16];
    assert x0 == w(i - 16) by { assert (i - 16) % 16 == i % 16; }
    v := Rotl1(Xor4(x0, x1, x2, x3));
    XorOrder(x0, x1, x2, x3);
    buf[i % 16] := v;
    WindowStep(before, w, raw, i, v);
    assert buf[..] == before[i % 16 := v];
  }

  lemma XorOrder(x0: word, x1: word, x2: word, x3: word)
    ensures Xor4(x0, x1, x2, x3) == Xor4(x3, x2, x1, x0)
  {}

  lemma WindowStep(before: seq<word>, w: int -> word, raw: seq<word>, i: nat, v: word)
    requires 16 <= i && Window(before, w, raw, i) && v == w(i)
    ensures Window(before[i % 16 := v], w, raw, i + 1)
  {
    forall k | 0 <= k < i + 1 && i + 1 - 16 <= k
      ensures before[i % 16 := v][k % 16] == w(k)
    {
      if k < i { assert k % 16 != i % 16; }
    }
  }

  /** The sum in the order of the macros: `e += f + w + k + rol(a, 5)`. */
  function MacroSum(e: word, f: word, w: word, k: word, rotated: word): word {
    e + (f + w + k + rotated)
  }

  lemma SumOrder(e: word, f: word, w: word, k: word, rotated: word)
    ensures MacroSum(e, f, w, k, rotated) == Sum(rotated, f, e, k, w)
  {
    AddOrder(e, f, w, k, rotated);
  }

  lemma AddOrder(e: word, f: word, w: word, k: word, r: word)
    ensures e + (f + w + k + r) == r + f + e + k + w
  {}

  /** The block words, as the schedule reads them. */
  ghost predicate Reads(w: int -> word, raw: seq<word>, swap: bool) {
    |raw| == 16 && forall k {:trigger Now(k)} :: Now(k) && 0 <= k < 16 ==>
      w(k) == if swap then Swap(raw[k]) else raw[k]
  }

  /** The common part of the macros R0 to R4: e and b are the two registers they overwrite. */
  lemma RoundStep(w: int -> word, run: int -> Regs, i: nat, r: Regs, f: word, e2: word)
    requires IsRun(w, run) && i < 80 && run(i) == r && f == F(i, r.b, r.c, r.d)
    requires e2 == MacroSum(r.e, f, w(i), K(i), Rotl5(r.a))
    ensures run(i + 1) == Regs(e2, r.a, Rotl30(r.b), r.c, r.d)
  {
    assert Now(i);
    SumOrder(r.e, f, w(i), K(i), Rotl5(r.a));
  }

  method R0(buf: array<word>, swap: bool, a: word, b: word, c: word, d: word, e: word, i: nat,
            ghost w: int -> word, ghost run: int -> Regs, ghost raw: seq<word>)
    returns (e2: word, b2: word)
    requires i < 16 && buf.Length == 16 && Window(buf[..], w, raw, i)
    requires IsRun(w, run) && Reads(w, raw, swap) && run(i) == Regs(a, b, c, d, e)
    modifies buf
    ensures run(i + 1) == Regs(e2, a, b2, c, d) && Window(buf[..], w, raw, i + 1)
  {
    assert Now(i);
    var v := B0(buf, i, swap, w, raw);
    F0IsChoose(b, c, d);
    e2 := MacroSum(e, F0(b, c, d), v, 0x5A827999, Rotl5(a));
    b2 := Rotl30(b);
    RoundStep(w, run, i, Regs(a, b, c, d, e), F0(b, c, d), e2);
  }

  method R1(buf: array<word>, a: word, b: word, c: word, d: word, e: word, i: nat,
            ghost w: int -> word, ghost run: int -> Regs, ghost raw: seq<word>)
    returns (e2: word, b2: word)
    requires 16 <= i < 20 && buf.Length == 16 && Window(buf[..], w, raw, i)
    requires IsRun(w, run) && run(i) == Regs(a, b, c, d, e)
    modifies buf
    ensures run(i + 1) == Regs(e2, a, b2, c, d) && Window(buf[..], w, raw, i + 1)
  {
    assert Now(i);
    var v := B1(buf, i, w, raw);
    F0IsChoose(b, c, d);
    e2 := MacroSum(e, F0(b, c, d), v, 0x5A827999, Rotl5(a));
    b2 := Rotl30(b);
    RoundStep(w, run, i, Regs(a, b, c, d, e), F0(b, c, d), e2);
  }

  method R2(buf: array<word>, a: word, b: word, c: word, d: word, e: word, i: nat,
            ghost w: int -> word, ghost run: int -> Regs, ghost raw: seq<word>)
    returns (e2: word, b2: word)
    requires 20 <= i < 40 && buf.Length == 16 && Window(buf[..], w, raw, i)
    requires IsRun(w, run) && run(i) == Regs(a, b, c, d, e)
    modifies buf
    ensures run(i + 1) == Regs(e2, a, b2, c, d) && Window(buf[..], w, raw, i + 1)
  {
    assert Now(i);
    var v := B1(buf, i, w, raw);
    e2 := MacroSum(e, F1(b, c, d), v, 0x6ED9EBA1, Rotl5(a));
    b2 := Rotl30(b);
    RoundStep(w, run, i, Regs(a, b, c, d, e), F1(b, c, d), e2);
  }

  method R3(buf: array<word>, a: word, b: word, c: word, d: word, e: word, i: nat,
            ghost w: int -> word, ghost run: int -> Regs, ghost raw: seq<word>)
    returns (e2: word, b2: word)
    requires 40 <= i < 60 && buf.Length == 16 && Window(buf[..], w, raw, i)
    requires IsRun(w, run) && run(i) == Regs(a, b, c, d, e)
    modifies buf
    ensures run(i + 1) == Regs(e2, a, b2, c, d) && Window(buf[..], w, raw, i + 1)
  {
    assert Now(i);
    var v := B1(buf, i, w, raw);
    F2IsMajority(b, c, d);
    e2 := MacroSum(e, F2(b, c, d), v, 0x8F1BBCDC, Rotl5(a));
    b2 := Rotl30(b);
    RoundStep(w, run, i, Regs(a, b, c, d, e), F2(b, c, d), e2);
  }

  method R4(buf: array<word>, a: word, b: word, c: word, d: word, e: word, i: nat,
            ghost w: int -> word, ghost run: int -> Regs, ghost raw: seq<word>)
    returns (e2: word, b2: word)
    requires 60 <= i < 80 && buf.Length == 16 && Window(buf[..], w, raw, i)
    requires IsRun(w, run) && run(i) == Regs(a, b, c, d, e)
    modifies buf
    ensures run(i + 1) == Regs(e2, a, b2, c, d) && Window(buf[..], w, raw, i + 1)
  {
    assert Now(i);
    var v := B1(buf, i, w, raw);
    e2 := MacroSum(e, F1(b, c, d), v, 0xCA62C1D6, Rotl5(a));
    b2 := Rotl30(b);
    RoundStep(w, run, i, Regs(a, b, c, d, e), F1(b, c, d), e2);
  }

  /** Five rounds R0. After five rounds every register has its name back. */
  method FiveR0(buf: array<word>, swap: bool, a0: word, b0: word, c0: word, d0: word, e0: word, i: nat,
              ghost w: int -> word, ghost run: int -> Regs, ghost raw: seq<word>)
    returns (a: word, b: word, c: word, d: word, e: word)
    requires 0 <= i <= 10 && buf.Length == 16 && Window(buf[..], w, raw, i)
    requires IsRun(w, run) && Reads(w, raw, swap) && run(i) == Regs(a0, b0, c0, d0, e0)
    modifies buf
    ensures run(i + 5) == Regs(a, b, c, d, e) && Window(buf[..], w, raw, i + 5)
  {
    a, b, c, d, e := a0, b0, c0, d0, e0;
    e, b := R0(buf, swap, a, b, c, d, e, i, w, run, raw);
    d, a := R0(buf, swap, e, a, b, c, d, i + 1, w, run, raw);
    c, e := R0(buf, swap, d, e, a, b, c, i + 2, w, run, raw);
    b, d := R0(buf, swap, c, d, e, a, b, i + 3, w, run, raw);
    a, c := R0(buf, swap, b, c, d, e, a, i + 4, w, run, raw);
  }

  /** Round 15 and rounds 16 to 19. After five rounds every register has its name back. */
  method FiveR01(buf: array<word>, swap: bool, a0: word, b0: word, c0: word, d0: word, e0: word, i: nat,
              ghost w: int -> word, ghost run: int -> Regs, ghost raw: seq<word>)
    returns (a: word, b: word, c: word, d: word, e: word)
    requires i == 15 && buf.Length == 16 && Window(buf[..], w, raw, i)
    requires IsRun(w, run) && Reads(w, raw, swap) && run(i) == Regs(a0, b0, c0, d0, e0)
    modifies buf
    ensures run(i + 5) == Regs(a, b, c, d, e) && Window(buf[..], w, raw, i + 5)
  {
    a, b, c, d, e := a0, b0, c0, d0, e0;
    e, b := R0(buf, swap, a, b, c, d, e, i, w, run, raw);
    d, a := R1(buf, e, a, b, c, d, i + 1, w, run, raw);
    c, e := R1(buf, d, e, a, b, c, i + 2, w, run, raw);
    b, d := R1(buf, c, d, e, a, b, i + 3, w, run, raw);
    a, c := R1(buf, b, c, d, e, a, i + 4, w, run, raw);
  }

  /** Five rounds R2. After five rounds every register has its name back. */
  method FiveR2(buf: array<word>, a0: word, b0: word, c0: word, d0: word, e0: word, i: nat,
              ghost w: int -> word, ghost run: int -> Regs, ghost raw: seq<word>)
    returns (a: word, b: word, c: word, d: word, e: word)
    requires 20 <= i <= 35 && buf.Length == 16 && Window(buf[..], w, raw, i)
    requires IsRun(w, run) && run(i) == Regs(a0, b0, c0, d0, e0)
    modifies buf
    ensures run(i + 5) == Regs(a, b, c, d, e) && Window(buf[..], w, raw, i + 5)
  {
    a, b, c, d, e := a0, b0, c0, d0, e0;
    e, b := R2(buf, a, b, c, d, e, i, w, run, raw);
    d, a := R2(buf, e, a, b, c, d, i + 1, w, run, raw);
    c, e := R2(buf, d, e, a, b, c, i + 2, w, run, raw);
    b, d := R2(buf, c, d, e, a, b, i + 3, w, run, raw);
    a, c := R2(buf, b, c, d, e, a, i + 4, w, run, raw);
  }

  /** Five rounds R3. After five rounds every register has its name back. */
  method FiveR3(buf: array<word>, a0: word, b0: word, c0: word, d0: word, e0: word, i: nat,
              ghost w: int -> word, ghost run: int -> Regs, ghost raw: seq<word>)
    returns (a: word, b: word, c: word, d: word, e: word)
    requires 40 <= i <= 55 && buf.Length == 16 && Window(buf[..], w, raw, i)
    requires IsRun(w, run) && run(i) == Regs(a0, b0, c0, d0, e0)
    modifies buf
    ensures run(i + 5) == Regs(a, b, c, d, e) && Window(buf[..], w, raw, i + 5)
  {
    a, b, c, d, e := a0, b0, c0, d0, e0;
    e, b := R3(buf, a, b, c, d, e, i, w, run, raw);
    d, a := R3(buf, e, a, b, c, d, i + 1, w, run, raw);
    c, e := R3(buf, d, e, a, b, c, i + 2, w, run, raw);
    b, d := R3(buf, c, d, e, a, b, i + 3, w, run, raw);
    a, c := R3(buf, b, c, d, e, a, i + 4, w, run, raw);
  }

  /** Five rounds R4. After five rounds every register has its name back. */
  method FiveR4(buf: array<word>, a0: word, b0: word, c0: word, d0: word, e0: word, i: nat,
              ghost w: int -> word, ghost run: int -> Regs, ghost raw: seq<word>)
    returns (a: word, b: word, c: word, d: word, e: word)
    requires 60 <= i <= 75 && buf.Length == 16 && Window(buf[..], w, raw, i)
    requires IsRun(w, run) && run(i) == Regs(a0, b0, c0, d0, e0)
    modifies buf
    ensures run(i + 5) == Regs(a, b, c, d, e) && Window(buf[..], w, raw, i + 5)
  {
    a, b, c, d, e := a0, b0, c0, d0, e0;
    e, b := R4(buf, a, b, c, d, e, i, w, run, raw);
    d, a := R4(buf, e, a, b, c, d, i + 1, w, run, raw);
    c, e := R4(buf, d, e, a, b, c, i + 2, w, run, raw);
    b, d := R4(buf, c, d, e, a, b, i + 3, w, run, raw);
    a, c := R4(buf, b, c, d, e, a, i + 4, w, run, raw);
  }

  /** Rounds 0 to 19. */
  method Rounds0(buf: array<word>, swap: bool, a0: word, b0: word, c0: word, d0: word, e0: word,
                 ghost w: int -> word, ghost run: int -> Regs, ghost raw: seq<word>)
    returns (a: word, b: word, c: word, d: word, e: word)
    requires buf.Length == 16 && Window(buf[..], w, raw, 0) && IsRun(w, run) && Reads(w, raw, swap)
    requires run(0) == Regs(a0, b0, c0, d0, e0)
    modifies buf
    ensures run(20) == Regs(a, b, c, d, e) && Window(buf[..], w, raw, 20)
  {
    a, b, c, d, e := a0, b0, c0, d0, e0;
    a, b, c, d, e := FiveR0(buf, swap, a, b, c, d, e, 0, w, run, raw);
    a, b, c, d, e := FiveR0(buf, swap, a, b, c, d, e, 5, w, run, raw);
    a, b, c, d, e := FiveR0(buf, swap, a, b, c, d, e, 10, w, run, raw);
    a, b, c, d, e := FiveR01(buf, swap, a, b, c, d, e, 15, w, run, raw);
  }

  /** Rounds 20 to 39. */
  method Rounds20(buf: array<word>, a0: word, b0: word, c0: word, d0: word, e0: word,
                 ghost w: int -> word, ghost run: int -> Regs, ghost raw: seq<word>)
    returns (a: word, b: word, c: word, d: word, e: word)
    requires buf.Length == 16 && Window(buf[..], w, raw, 20) && IsRun(w, run)
    requires run(20) == Regs(a0, b0, c0, d0, e0)
    modifies buf
    ensures run(40) == Regs(a, b, c, d, e) && Window(buf[..], w, raw, 40)
  {
    a, b, c, d, e := a0, b0, c0, d0, e0;
    a, b, c, d, e := FiveR2(buf, a, b, c, d, e, 20, w, run, raw);
    a, b, c, d, e := FiveR2(buf, a, b, c, d, e, 25, w, run, raw);
    a, b, c, d, e := FiveR2(buf, a, b, c, d, e, 30, w, run, raw);
    a, b, c, d, e := FiveR2(buf, a, b, c, d, e, 35, w, run, raw);
  }

  /** Rounds 40 to 59. */
  method Rounds40(buf: array<word>, a0: word, b0: word, c0: word, d0: word, e0: word,
                 ghost w: int -> word, ghost run: int -> Regs, ghost raw: seq<word>)
    returns (a: word, b: word, c: word, d: word, e: word)
    requires buf.Length == 16 && Window(buf[..], w, raw, 40) && IsRun(w, run)
    requires run(40) == Regs(a0, b0, c0, d0, e0)
    modifies buf
    ensures run(60) == Regs(a, b, c, d, e) && Window(buf[..], w, raw, 60)
  {
    a, b, c, d, e := a0, b0, c0, d0, e0;
    a, b, c, d, e := FiveR3(buf, a, b, c, d, e, 40, w, run, raw);
    a, b, c, d, e := FiveR3(buf, a, b, c, d, e, 45, w, run, raw);
    a, b, c, d, e := FiveR3(buf, a, b, c, d, e, 50, w, run, raw);
    a, b, c, d, e := FiveR3(buf, a, b, c, d, e, 55, w, run, raw);
  }

  /** Rounds 60 to 79. */
  method Rounds60(buf: array<word>, a0: word, b0: word, c0: word, d0: word, e0: word,
                 ghost w: int -> word, ghost run: int -> Regs, ghost raw: seq<word>)
    returns (a: word, b: word, c: word, d: word, e: word)
    requires buf.Length == 16 && Window(buf[..], w, raw, 60) && IsRun(w, run)
    requires run(60) == Regs(a0, b0, c0, d0, e0)
    modifies buf
    ensures run(80) == Regs(a, b, c, d, e) && Window(buf[..], w, raw, 80)
  {
    a, b, c, d, e := a0, b0, c0, d0, e0;
    a, b, c, d, e := FiveR4(buf, a, b, c, d, e, 60, w, run, raw);
    a, b, c, d, e := FiveR4(buf, a, b, c, d, e, 65, w, run, raw);
    a, b, c, d, e := FiveR4(buf, a, b, c, d, e, 70, w, run, raw);
    a, b, c, d, e := FiveR4(buf, a, b, c, d, e, 75, w, run, raw);
  }

  // ---- the run that FIPS 180-4 prescribes

  ghost function Schedule(block: seq<byte>): int -> word
    requires |block| == BLOCK
  {
    var w := Expand(Words(block));
    (t: int) => if 0 <= t < 80 then w[t] else 0
  }

  ghost function Run(h: Regs, block: seq<byte>): int -> Regs
    requires |block| == BLOCK
  {
    var w := Expand(Words(block));
    (t: int) => if 0 <= t <= 80 then Rounds(h, w[..t]) else h
  }

  lemma RunsAsSpecified(h: Regs, block: seq<byte>)
    requires |block| == BLOCK
    ensures IsRun(Schedule(block), Run(h, block))
    ensures Run(h, block)(0) == h && Run(h, block)(80) == Rounds(h, Expand(Words(block)))
  {
    var w := Expand(Words(block));
    assert w[..80] == w;
    forall t {:trigger Now(t)} | Now(t) && 16 <= t < 80
      ensures w[t] == Rotl1(Xor4(w[t - 3], w[t - 8], w[t - 14], w[t - 16]))
    {
      ExpandAt(Words(block), t);
    }
    forall t {:trigger Now(t)} | Now(t) && 0 <= t < 80
      ensures Rounds(h, w[..t + 1]) == Round(Rounds(h, w[..t]), t, w[t])
    {
      assert w[..t + 1][..t] == w[..t];
    }
  }

  function HostWord(block: seq<byte>, t: nat, littleEndian: bool): word
    requires |block| == BLOCK && t < 16
  {
    var b0, b1, b2, b3 := block[4 * t], block[4 * t + 1], block[4 * t + 2], block[4 * t + 3];
    if littleEndian then WordLe(b0, b1, b2, b3) else WordBe(b0, b1, b2, b3)
  }

  /** The block as sixteen words in host byte order, `memcpy(buf, data, 64)`. */
  function HostWords(block: seq<byte>, littleEndian: bool): (raw: seq<word>)
    requires |block| == BLOCK
    ensures |raw| == 16
    ensures forall t :: 0 <= t < 16 ==> raw[t] == HostWord(block, t, littleEndian)
  {
    seq(16, t requires 0 <= t < 16 => HostWord(block, t, littleEndian))
  }

  lemma HostWordReads(block: seq<byte>, t: nat, littleEndian: bool)
    requires |block| == BLOCK && t < 16
    ensures Words(block)[t] == if littleEndian then Swap(HostWord(block, t, true))
                               else HostWord(block, t, false)
  {
    SwapLe(block[4 * t], block[4 * t + 1], block[4 * t + 2], block[4 * t + 3]);
  }

  lemma HostWordsRead(block: seq<byte>, littleEndian: bool)
    requires |block| == BLOCK
    ensures Reads(Schedule(block), HostWords(block, littleEndian), littleEndian)
  {
    var raw := HostWords(block, littleEndian);
    forall k {:trigger Now(k)} | Now(k) && 0 <= k < 16
      ensures Schedule(block)(k) == if littleEndian then Swap(raw[k]) else raw[k]
    {
      HostWordReads(block, k, littleEndian);
      assert Expand(Words(block))[k] == Words(block)[k];
    }
  }

  method AllRounds(h: Regs, data: seq<byte>, littleEndian: bool) returns (r: Regs)
    requires |data| == BLOCK
    ensures r == Rounds(h, Expand(Words(data)))
  {
    ghost var w, run := Schedule(data), Run(h, data);
    RunsAsSpecified(h, data);
    HostWordsRead(data, littleEndian);
    var raw := HostWords(data, littleEndian);
    var buf := new word[16](k requires 0 <= k < 16 => raw[k]);
    assert Window(buf[..], w, raw, 0);
    var a, b, c, d, e := h.a, h.b, h.c, h.d, h.e;
    a, b, c, d, e := Rounds0(buf, littleEndian, a, b, c, d, e, w, run, raw);
    a, b, c, d, e := Rounds20(buf, a, b, c, d, e, w, run, raw);
    a, b, c, d, e := Rounds40(buf, a, b, c, d, e, w, run, raw);
    a, b, c, d, e := Rounds60(buf, a, b, c, d, e, w, run, raw);
    r := Regs(a, b, c, d, e);
  }

  function RegsOf(h: seq<word>): Regs
    requires |h| == 5
  {
    Regs(h[0], h[1], h[2], h[3], h[4])
  }

  /** `tpm_sha1_transform`: on either kind of host, the state becomes the compression of the
      old state and the block. */
  method Transform(h: array<word>, data: seq<byte>, littleEndian: bool)
    requires h.Length == 5 && |data| == BLOCK
    modifies h
    ensures RegsOf(h[..]) == Compress(old(RegsOf(h[..])), data)
  {
    var r := AllRounds(RegsOf(h[..]), data, littleEndian);
    h[0] := Plus(h[0], r.a);
    h[1] := Plus(h[1], r.b);
    h[2] := Plus(h[2], r.c);
    h[3] := Plus(h[3], r.d);
    h[4] := Plus(h[4], r.e);
  }
}
