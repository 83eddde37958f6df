/** A host and a hash for which a Join and a Sign complete without a collision. The hash is a
    fingerprint: the length and a few bytes of the string, which is enough to tell apart the
    strings that this run hashes. */
module DaaSample {
  import opened NumberTheory
  import opened Bytes
  import opened Rsa
  import opened Daa
  import opened DaaRun
  import opened DaaJoinSign
  import opened DaaHonest
  import opened DaaHonestSign
  import DaaSign

  type Hash = seq<byte> -> seq<byte>

  // ---- the hash

  function ByteAt(x: seq<byte>, i: nat): byte {
    if i < |x| then x[i] else 0
  }

  function LastOf(x: seq<byte>): byte {
    if |x| == 0 then 0 else x[|x| - 1]
  }

  /** The bytes by which strings of the same length are told apart. */
  function Marks(x: seq<byte>): (m: seq<byte>)
    ensures |m| == 9
  {
    [ByteAt(x, 0), ByteAt(x, 1), ByteAt(x, 2), ByteAt(x, 22), ByteAt(x, 42), ByteAt(x, 62), ByteAt(x, 85),
     ByteAt(x, 354), LastOf(x)]
  }

  function Finger(x: seq<byte>): (d: seq<byte>)
    ensures |d| == DIGEST && d[0] == 1 && d[1..3] == Be(|x|, 2) && d[3..12] == Marks(x)
  {
    [1] + Be(|x|, 2) + Marks(x) + Zeros(8)
  }

  predicate Compared(x: seq<byte>, y: seq<byte>) {
    true
  }

  /** Digests have 20 bytes and start with 1, and equal digests of short strings mean equal lengths
      and marks. */
  ghost predicate Telling(f: Hash) {
    && (forall x {:trigger f(x)} :: |f(x)| == DIGEST && f(x)[0] == 1)
    && (forall x, y {:trigger Compared(x, y)} :: Compared(x, y) && f(x) == f(y) && |x| < 0x1_0000 && |y| < 0x1_0000 ==>
          |x| == |y| && Marks(x) == Marks(y))
  }

  lemma FingerTells(x: seq<byte>, y: seq<byte>)
    requires Finger(x) == Finger(y) && |x| < 0x1_0000 && |y| < 0x1_0000
    ensures |x| == |y| && Marks(x) == Marks(y)
  {
    SmallPowers();
    OfBe(|x|, 2);
    OfBe(|y|, 2);
  }

  // ---- the strings of the run

  /** A number of `size` bytes below 256. */
  function Number(size: nat, b: byte): (s: seq<byte>)
    requires size > 0
    ensures |s| == size && s[size - 1] == b
  {
    Zeros(size - 1) + [b]
  }

  function IssuerFrom(f: Hash): Issuer {
    Issuer(TAG_ISSUER, f([1]), f([1]), f([1]), f([1]), f([2]), f([2]), Number(26, 1))
  }

  /** The settings after the first key; the flags say what is there already. */
  function TpmFrom(f: Hash, issuer: bool, v0: bool, v1: bool, count: nat): Specific {
    var d := Zeros(DIGEST);
    Specific(TAG_TPM, if issuer then f(IssuerBytes(IssuerFrom(f))) else d, if v0 then f([5]) else d,
             if v1 then f([7]) else d, f(f(Number(256, 1))), count)
  }

  predicate TpmOf(f: Hash, t: Specific) {
    || t == NoSpecific(0) || t == NoSpecific(TAG_TPM).(count := 1)
    || t == TpmFrom(f, false, false, false, 0) || t == TpmFrom(f, true, false, false, 0)
    || t == TpmFrom(f, true, false, false, 5) || t == TpmFrom(f, true, true, false, 5)
    || t == TpmFrom(f, true, true, true, 5)
  }

  predicate JoinOf(f: Hash, j: JoinData) {
    j == NoJoin() || j == NoJoin().(n0 := f(Number(256, 1)))
  }

  predicate IssuerIn(f: Hash, i: Issuer) {
    i == NoIssuer(0) || i == NoIssuer(TAG_ISSUER) || i == IssuerFrom(f)
  }

  function Packed(resource: nat, data: seq<byte>): seq<byte> {
    [LowByte(resource)] + Zeros(256) + data
  }

  /** Inputs and contents of blobs that are no settings. */
  predicate Short(f: Hash, x: seq<byte>) {
    Tiny(x) || Filled(x) || Boxed(f, x)
  }

  predicate Tiny(x: seq<byte>) {
    x == [] || x == [1] || x == [2] || x == [5] || x == [7]
  }

  predicate Filled(x: seq<byte>) {
    || x == Number(4, 1) || x == Number(4, 5) || x == Zeros(20) || x == Number(128, 5) || x == Number(192, 7)
    || x == Number(256, 1)
  }

  predicate Boxed(f: Hash, x: seq<byte>) {
    || x == Packed(RT_DAA_V0, [5]) || x == Packed(RT_DAA_V1, [7])
    || x == Packed(RT_DAA_TPM, SpecificBytes(TpmFrom(f, true, true, true, 5)))
  }

  ghost predicate Whole(f: Hash, x: seq<byte>) {
    exists t, j :: TpmOf(f, t) && JoinOf(f, j) && x == SpecificBytes(t) + JoinBytes(j)
  }

  ghost predicate Half(f: Hash, x: seq<byte>) {
    exists t :: TpmOf(f, t) && x == SpecificBytes(t)
  }

  ghost predicate Issuing(f: Hash, x: seq<byte>) {
    exists i :: IssuerIn(f, i) && x == IssuerBytes(i)
  }

  ghost predicate Listed(f: Hash, x: seq<byte>) {
    Whole(f, x) || Half(f, x) || Issuing(f, x) || Short(f, x)
  }

  // ---- the marks tell them apart

  function TpmMarks(t: Specific): (byte, byte, byte, byte, byte, byte)
    requires FormedSpecific(t)
  {
    (LowByte(t.tag), t.issuer[0], t.v0[0], t.v1[0], t.rekey[0], LowByte(t.count))
  }

  lemma SpecificMarks(t: Specific, z: seq<byte>)
    requires FormedSpecific(t)
    ensures var x := SpecificBytes(t) + z;
      (ByteAt(x, 1), ByteAt(x, 2), ByteAt(x, 22), ByteAt(x, 42), ByteAt(x, 62), ByteAt(x, 85)) == TpmMarks(t)
  {
    var x := SpecificBytes(t);
    SixFields(Be(t.tag, 2), t.issuer, t.v0, t.v1, t.rekey, Be(t.count, 4), Zeros(2));
    assert x[1] == x[0..2][1] && x[2] == x[2..22][0] && x[22] == x[22..42][0] && x[42] == x[42..62][0];
    assert x[62] == x[62..82][0] && x[85] == x[82..86][3];
  }

  lemma TpmFormed(f: Hash, t: Specific)
    requires Telling(f) && TpmOf(f, t)
    ensures FormedSpecific(t)
  {}

  lemma LowApart(a: nat, b: nat)
    requires a % 256 != b % 256
    ensures LowByte(a) != LowByte(b)
  {}

  lemma TpmApart(f: Hash, t: Specific, u: Specific)
    requires Telling(f) && TpmOf(f, t) && TpmOf(f, u) && FormedSpecific(t) && FormedSpecific(u)
    requires TpmMarks(t) == TpmMarks(u)
    ensures t == u
  {
    LowApart(0, TAG_TPM);
    LowApart(0, 1);
    LowApart(0, 5);
    LowApart(1, 5);
  }

  lemma MarksAre(x: seq<byte>)
    ensures var m := Marks(x);
      && m[0] == ByteAt(x, 0) && m[1] == ByteAt(x, 1) && m[2] == ByteAt(x, 2) && m[3] == ByteAt(x, 22)
      && m[4] == ByteAt(x, 42) && m[5] == ByteAt(x, 62) && m[6] == ByteAt(x, 85) && m[7] == ByteAt(x, 354)
      && m[8] == LastOf(x)
  {}

  /** Settings with the same marks are the same. */
  lemma SpecificApart(f: Hash, t: Specific, y: seq<byte>, u: Specific, z: seq<byte>)
    requires Telling(f) && TpmOf(f, t) && TpmOf(f, u)
    requires Marks(SpecificBytes(t) + y) == Marks(SpecificBytes(u) + z)
    ensures t == u
  {
    TpmFormed(f, t);
    TpmFormed(f, u);
    SpecificMarks(t, y);
    SpecificMarks(u, z);
    MarksAre(SpecificBytes(t) + y);
    MarksAre(SpecificBytes(u) + z);
    TpmApart(f, t, u);
  }

  lemma JoinMark(t: Specific, j: JoinData)
    requires |j.u0| == 128 && |j.u1| == 138 && |j.n0| == DIGEST
    ensures ByteAt(SpecificBytes(t) + JoinBytes(j), 354) == j.n0[0]
  {
    var b := JoinBytes(j);
    assert b == j.u0 + j.u1 + j.n0;
    assert b[266] == j.n0[0];
  }

  lemma JoinApart(f: Hash, t: Specific, i: JoinData, j: JoinData)
    requires Telling(f) && JoinOf(f, i) && JoinOf(f, j)
    requires Marks(SpecificBytes(t) + JoinBytes(i)) == Marks(SpecificBytes(t) + JoinBytes(j))
    ensures i == j
  {
    JoinMark(t, i);
    JoinMark(t, j);
    MarksAre(SpecificBytes(t) + JoinBytes(i));
    MarksAre(SpecificBytes(t) + JoinBytes(j));
  }

  lemma IssuerMarks(i: Issuer)
    requires FormedIssuer(i)
    ensures ByteAt(IssuerBytes(i), 1) == LowByte(i.tag) && ByteAt(IssuerBytes(i), 2) == i.r0[0]
  {
    var x := IssuerBytes(i);
    EightFields(Be(i.tag, 2), i.r0, i.r1, i.s0, i.s1, i.n, i.gamma, i.q);
    assert x[1] == x[0..2][1] && x[2] == x[2..22][0];
  }

  lemma IssuerApart(f: Hash, i: Issuer, j: Issuer)
    requires Telling(f) && IssuerIn(f, i) && IssuerIn(f, j) && Marks(IssuerBytes(i)) == Marks(IssuerBytes(j))
    ensures i == j
  {
    IssuerMarks(i);
    IssuerMarks(j);
    MarksAre(IssuerBytes(i));
    MarksAre(IssuerBytes(j));
    LowApart(0, TAG_ISSUER);
  }

  lemma ShortApart(f: Hash, x: seq<byte>, y: seq<byte>)
    requires Short(f, x) && Short(f, y) && |x| == |y| && Marks(x) == Marks(y)
    ensures x == y
  {
    MarksAre(x);
    MarksAre(y);
    TinyLength(x);
    TinyLength(y);
    FilledLength(x);
    FilledLength(y);
    BoxedLength(f, x);
    BoxedLength(f, y);
    if Tiny(x) {
      TinyApart(x, y);
    } else if Filled(x) {
      FilledApart(x, y);
    } else {
      BoxedApart(f, x, y);
    }
  }

  lemma TinyLength(x: seq<byte>)
    ensures Tiny(x) ==> |x| < 4
  {}

  lemma FilledLength(x: seq<byte>)
    ensures Filled(x) ==> 4 <= |x| <= 256
  {}

  lemma BoxedLength(f: Hash, x: seq<byte>)
    ensures Boxed(f, x) ==> 256 < |x|
  {}

  lemma TinyApart(x: seq<byte>, y: seq<byte>)
    requires Tiny(x) && Tiny(y) && |x| == |y| && LastOf(x) == LastOf(y)
    ensures x == y
  {}

  lemma FilledApart(x: seq<byte>, y: seq<byte>)
    requires Filled(x) && Filled(y) && |x| == |y| && LastOf(x) == LastOf(y)
    ensures x == y
  {}

  lemma BoxedApart(f: Hash, x: seq<byte>, y: seq<byte>)
    requires Boxed(f, x) && Boxed(f, y) && |x| == |y| && ByteAt(x, 0) == ByteAt(y, 0)
    ensures x == y
  {
    if |x| == 258 { PackedApart(x, y); }
  }

  lemma PackedApart(x: seq<byte>, y: seq<byte>)
    requires x == Packed(RT_DAA_V0, [5]) || x == Packed(RT_DAA_V1, [7])
    requires y == Packed(RT_DAA_V0, [5]) || y == Packed(RT_DAA_V1, [7])
    requires ByteAt(x, 0) == ByteAt(y, 0)
    ensures x == y
  {
    LowApart(RT_DAA_V0, RT_DAA_V1);
    PackedFirst(RT_DAA_V0, [5]);
    PackedFirst(RT_DAA_V1, [7]);
  }

  lemma PackedFirst(resource: nat, data: seq<byte>)
    ensures ByteAt(Packed(resource, data), 0) == LowByte(resource)
  {}

  /** The lengths keep the kinds of strings apart. */
  lemma ShortLength(f: Hash, x: seq<byte>)
    requires Short(f, x)
    ensures |x| !in {88, 148, 374} && |x| < 0x1_0000
  {}

  /** The kind of a listed string shows in its length. */
  lemma Lengths(f: Hash, x: seq<byte>)
    requires Listed(f, x)
    ensures |x| < 0x1_0000 && (|x| == 374 ==> Whole(f, x)) && (|x| == 88 ==> Half(f, x))
    ensures (|x| == 148 ==> Issuing(f, x)) && (|x| !in {374, 88, 148} ==> Short(f, x))
  {
    if Short(f, x) { ShortLength(f, x); }
  }

  lemma WholeApart(f: Hash, x: seq<byte>, y: seq<byte>)
    requires Telling(f) && Whole(f, x) && Whole(f, y) && Marks(x) == Marks(y)
    ensures x == y
  {
    var t, i :| TpmOf(f, t) && JoinOf(f, i) && x == SpecificBytes(t) + JoinBytes(i);
    var u, j :| TpmOf(f, u) && JoinOf(f, j) && y == SpecificBytes(u) + JoinBytes(j);
    SpecificApart(f, t, JoinBytes(i), u, JoinBytes(j));
    JoinApart(f, t, i, j);
  }

  lemma HalfApart(f: Hash, x: seq<byte>, y: seq<byte>)
    requires Telling(f) && Half(f, x) && Half(f, y) && Marks(x) == Marks(y)
    ensures x == y
  {
    var t :| TpmOf(f, t) && x == SpecificBytes(t);
    var u :| TpmOf(f, u) && y == SpecificBytes(u);
    AppendNone(x);
    AppendNone(y);
    SpecificApart(f, t, [], u, []);
  }

  lemma AppendNone(x: seq<byte>)
    ensures x + [] == x
  {}

  lemma IssuingApart(f: Hash, x: seq<byte>, y: seq<byte>)
    requires Telling(f) && Issuing(f, x) && Issuing(f, y) && Marks(x) == Marks(y)
    ensures x == y
  {
    var i :| IssuerIn(f, i) && x == IssuerBytes(i);
    var j :| IssuerIn(f, j) && y == IssuerBytes(j);
    IssuerApart(f, i, j);
  }

  lemma ListedApart(f: Hash, x: seq<byte>, y: seq<byte>)
    requires Telling(f) && Listed(f, x) && Listed(f, y) && f(x) == f(y)
    ensures x == y
  {
    Lengths(f, x);
    Lengths(f, y);
    assert Compared(x, y);
    if |x| == 374 {
      WholeApart(f, x, y);
    } else if |x| == 88 {
      HalfApart(f, x, y);
    } else if |x| == 148 {
      IssuingApart(f, x, y);
    } else {
      ShortApart(f, x, y);
    }
  }

  // ---- the environment and the host

  /** Sizes as in the emulator, with any split of the exponents. */
  predicate Usual(z: Sizes) {
    && z.modulus == z.w == z.ne == z.scratch == 256 && z.v0 == 128 && z.v1 == 192 && z.power1 >= 3
    && z.r0 <= 254 && z.r1 <= 254 && z.r2 <= 254 && z.r3 <= 254 && z.r4 <= 254
  }

  /** Signatures are good, the challenge decrypts, and only packed strings are blobs. */
  ghost predicate Sample(e: Env) {
    && Usual(e.z) && Telling(e.hash) && Roomy(e) && Openable(e) && e.seed == []
    && (forall a, b, c {:trigger e.signed(a, b, c)} :: e.signed(a, b, c))
    && (forall x {:trigger e.decrypted(x)} :: e.decrypted(x).Opened?)
    && (forall r: nat, d, v {:trigger e.wrap(r, d, v)} :: e.wrap(r, d, v) == Packed(r, d))
    && (forall b {:trigger e.unwrap(b)} :: |b| <= 256 ==> e.unwrap(b) == BadFormat)
  }

  // ---- what the host sends

  function In0Of(f: Hash, k: nat): seq<byte> {
    if k == 0 then Number(4, 1)
    else if k == 1 || k == 8 then Number(256, 1)
    else if k == 2 then IssuerBytes(IssuerFrom(f))
    else if k == 3 then Number(4, 5)
    else if k <= 12 then [1]
    else if k <= 15 then [2]
    else if k == 16 then Zeros(20)
    else if k == 22 then Number(128, 5)
    else if k == 23 then Number(192, 7)
    else []
  }

  function In1Of(k: nat): seq<byte> {
    if k == 2 || k == 13 then Number(256, 1) else if Product(k) then [2] else []
  }

  function Sign0Of(f: Hash, k: nat): seq<byte> {
    if k == 0 then IssuerBytes(IssuerFrom(f))
    else if k == 1 then Packed(RT_DAA_TPM, SpecificBytes(TpmFrom(f, true, true, true, 5)))
    else if k <= 5 || k == 10 then [1]
    else if k <= 8 then [2]
    else if k == 9 then Zeros(20)
    else if k == 13 || k == 14 then Packed(RT_DAA_V0, [5])
    else if k == 15 then Packed(RT_DAA_V1, [7])
    else []
  }

  function Sign1Of(k: nat): seq<byte> {
    if 2 <= k <= 5 then [2] else if k == 6 then Number(256, 1) else if k == 10 then Zeros(20) else []
  }

  ghost predicate Joins(f: Hash, h: Host) {
    && (forall k: nat {:trigger h.in0(k)} :: h.in0(k) == In0Of(f, k))
    && (forall k: nat {:trigger h.in1(k)} :: h.in1(k) == In1Of(k)) && h.random(3) == Random(Zeros(128), Zeros(138))
  }

  ghost predicate Signs(f: Hash, h: Host) {
    && (forall k: nat {:trigger h.sign0(k)} :: h.sign0(k) == Sign0Of(f, k))
    && (forall k: nat {:trigger h.sign1(k)} :: h.sign1(k) == Sign1Of(k))
  }

  // ---- its numbers

  lemma NumberIs(size: nat, b: byte)
    requires size > 0
    ensures OfBytes(Number(size, b)) == b as nat
  {
    OfBytesPadded(size - 1, [b]);
    assert [b] == [] + [b];
    OfBytesAppend([], b);
  }

  lemma ZerosAre(k: nat)
    ensures OfBytes(Zeros(k)) == 0
  {
    OfBytesPadded(k, []);
    assert Zeros(k) == Zeros(k) + [];
  }

  lemma ByteFits(e: Env, v: nat)
    requires e.z.scratch == 256 && v < 256
    ensures Fits(e, v)
  {
    SmallPowers();
    ToBytesLength(v, 1);
  }

  lemma Values(e: Env)
    requires e.z.scratch == 256
    ensures OfBytes([2]) == 2 && OfBytes(Number(256, 1)) == 1 && OfBytes(Number(26, 1)) == 1
    ensures Fits(e, 2) && Fits(e, 1) && PowMod(1, 1, 2) == 1
  {
    NumberIs(1, 2);
    assert Number(1, 2) == [2];
    NumberIs(256, 1);
    NumberIs(26, 1);
    ByteFits(e, 1);
    ByteFits(e, 2);
  }

  lemma NumbersFit(e: Env, i: Issuer)
    requires e.z.scratch == 256 && e.z.w == 256 && i == IssuerFrom(e.hash)
    ensures BaseFits(e, i, i.r0, [1], [2]) && Gamma(e, i, [2]) && Witness(e, i, [2], Number(256, 1))
    ensures OfBytes(i.q) == 1
  {
    Values(e);
  }

  lemma IssuerSettled(f: Hash, h: Host)
    requires Telling(f) && h.in0(2) == IssuerBytes(IssuerFrom(f))
    ensures Settled(h) && TheIssuer(h) == IssuerFrom(f)
  {
    IssuerRoundTrip(IssuerFrom(f));
  }

  lemma AllBases(e: Env, h: Host, i: Issuer)
    requires BaseFits(e, i, i.r0, [1], [2]) && i.r0 == i.r1 == i.s0 == i.s1
    requires forall k: nat :: Product(k) ==> h.in0(k) == [1] && h.in1(k) == [2]
    ensures forall k: nat :: Product(k) ==> BaseFits(e, i, BaseOf(i, k), h.in0(k), h.in1(k))
  {
    forall k: nat | Product(k) ensures BaseFits(e, i, BaseOf(i, k), h.in0(k), h.in1(k)) {
      assert BaseOf(i, k) == i.r0 && h.in0(k) == [1];
    }
  }

  lemma SampleNumbers(e: Env, h: Host)
    requires Usual(e.z) && Telling(e.hash) && Joins(e.hash, h)
    ensures Settled(h) && JoinNumbers(e, h)
  {
    IssuerSettled(e.hash, h);
    var i := TheIssuer(h);
    NumbersFit(e, i);
    AllBases(e, h, i);
    assert h.in0(13) == h.in0(14) == h.in0(15) == [2] && h.in1(13) == Number(256, 1);
  }

  lemma SampleHonest(e: Env, h: Host)
    requires Sample(e) && Joins(e.hash, h)
    ensures Honest(e, h)
  {
    SampleNumbers(e, h);
    NumberIs(4, 1);
  }

  /** The private values of the Join. */
  lemma SamplePrivates(e: Env, h: Host)
    requires Usual(e.z) && Joins(e.hash, h)
    ensures V0Of(e, h) == 5 && V1Of(e, h) == 7
  {
    NumberIs(128, 5);
    NumberIs(192, 7);
    ZerosAre(128);
    ZerosAre(138);
    assert Shares(h) == 5;
    SmallSplit(5, e.z.power1);
  }

  /** The low bits of a small number are the number. */
  lemma SmallSplit(v: nat, k: nat)
    requires v < 8 && k >= 3
    ensures Low(v, k) == v && High(v, k) == 0
  {
    LowHigh(v, k);
    PowMonotone(2, 3, k);
    assert Pow(2, 3) == 8;
    Quotient(v, 0, v, Two(k));
  }

  lemma DigitBytes(v: nat, b: byte)
    requires 0 < v < 256 && b as nat == v
    ensures ToBytes(v) == [b]
  {
    assert v / 256 == 0 && ToBytes(0) == [];
    assert LowByte(v) as nat == b as nat;
    assert (LowByte(v) as nat) as byte == LowByte(v) && (b as nat) as byte == b;
  }

  /** The settings of the session from the first key on. */
  lemma SampleSettings(e: Env, h: Host, k: nat)
    requires Sample(e) && Joins(e.hash, h) && Settled(h) && TheIssuer(h) == IssuerFrom(e.hash) && 2 <= k <= 24
    requires V0Of(e, h) == 5 && V1Of(e, h) == 7 && ToBytes(5) == [5] && ToBytes(7) == [7] && OfBytes(h.in0(3)) == 5
    ensures TpmAt(e, h, k) == TpmFrom(e.hash, k > 2, k > 22, k > 23, if k <= 3 then 0 else 5)
    ensures JoinAt(e, h, k) == NoJoin().(n0 := e.hash(Number(256, 1)))
  {
    assert FirstKey(e, h) == Number(256, 1);
    assert e.seed + e.hash(Number(256, 1)) == e.hash(Number(256, 1));
    assert Bytewise(TheIssuer(h));
  }

  // ---- everything that is hashed is listed

  type Strings = seq<byte> -> bool

  /** `L` holds of the settings. */
  ghost predicate TakesSettings(L: Strings, f: Hash) {
    && (forall t, j {:trigger TpmOf(f, t), JoinOf(f, j)} ::
          TpmOf(f, t) && JoinOf(f, j) ==> L(SpecificBytes(t) + JoinBytes(j)))
    && (forall t {:trigger TpmOf(f, t)} :: TpmOf(f, t) ==> L(SpecificBytes(t)))
    && (forall i {:trigger IssuerIn(f, i)} :: IssuerIn(f, i) ==> L(IssuerBytes(i)))
  }

  /** `L` holds of the inputs. */
  ghost predicate TakesInputs(L: Strings, f: Hash) {
    && L([]) && L([1]) && L([2]) && L([5]) && L([7]) && L(Number(4, 1)) && L(Number(4, 5)) && L(Zeros(20))
    && L(Number(128, 5)) && L(Number(192, 7)) && L(Number(256, 1)) && L(IssuerBytes(IssuerFrom(f)))
    && L(Packed(RT_DAA_V0, [5])) && L(Packed(RT_DAA_V1, [7]))
    && L(Packed(RT_DAA_TPM, SpecificBytes(TpmFrom(f, true, true, true, 5))))
  }

  ghost predicate All(L: Strings, s: set<seq<byte>>) {
    forall x :: x in s ==> L(x)
  }

  lemma AllThree(L: Strings, a: set<seq<byte>>, b: set<seq<byte>>, c: set<seq<byte>>)
    requires All(L, a) && All(L, b) && All(L, c)
    ensures All(L, a + b) && All(L, a + b + c)
  {}

  lemma SealedAll(L: Strings, e: Env, t: Specific, j: JoinData, i: Issuer)
    requires Marshals(e) && TakesSettings(L, e.hash) && TpmOf(e.hash, t) && JoinOf(e.hash, j) && IssuerIn(e.hash, i)
    ensures All(L, Sealed(e, t, j, i))
  {
    assert Bytewise(t) && Bytewise(j) && Bytewise(i);
  }

  lemma SentAll(L: Strings, e: Env, in0: seq<byte>, in1: seq<byte>)
    requires L(in0) && L(in1) && L(Contents(e.unwrap(in0)))
    ensures All(L, Sent(e, in0, in1))
  {}

  /** What the lemmas about the settings need. */
  ghost predicate Known(e: Env, h: Host) {
    && Sample(e) && Joins(e.hash, h) && Settled(h) && TheIssuer(h) == IssuerFrom(e.hash)
    && V0Of(e, h) == 5 && V1Of(e, h) == 7 && ToBytes(5) == [5] && ToBytes(7) == [7] && OfBytes(h.in0(3)) == 5
  }

  lemma SampleKnown(e: Env, h: Host)
    requires Sample(e) && Joins(e.hash, h)
    ensures Known(e, h)
  {
    IssuerSettled(e.hash, h);
    SamplePrivates(e, h);
    DigitBytes(5, 5);
    DigitBytes(7, 7);
    NumberIs(4, 5);
  }

  lemma SettingsKnown(e: Env, h: Host, k: nat)
    requires Known(e, h) && 1 <= k <= 24
    ensures TpmOf(e.hash, TpmAt(e, h, k)) && JoinOf(e.hash, JoinAt(e, h, k)) && IssuerIn(e.hash, IssuerAt(h, k))
  {
    if k >= 2 { SampleSettings(e, h, k); }
  }

  lemma SealedAtAll(L: Strings, e: Env, h: Host, k: nat)
    requires TakesSettings(L, e.hash) && Known(e, h) && k <= 24
    ensures All(L, SealedAt(e, h, k))
  {
    if k == 0 {
      SealedAll(L, e, NoSpecific(0), NoJoin(), NoIssuer(0));
    } else {
      SettingsKnown(e, h, k);
      SealedAll(L, e, TpmAt(e, h, k), JoinAt(e, h, k), IssuerAt(h, k));
    }
  }

  lemma FirstInputs(L: Strings, f: Hash, h: Host, k: nat)
    requires TakesInputs(L, f) && Joins(f, h) && k <= 24
    ensures L(h.in0(k)) && |h.in0(k)| <= 256
  {
    assert k in {0, 1, 2, 3, 8, 16, 22, 23, 24} || Product(k) || 13 <= k <= 15 || 17 <= k <= 21;
  }

  lemma SecondInputs(L: Strings, f: Hash, h: Host, k: nat)
    requires TakesInputs(L, f) && Joins(f, h) && k <= 24
    ensures L(h.in1(k))
  {
    assert k in {2, 13} || Product(k) || k <= 1 || k == 3 || k == 8 || k >= 14;
  }

  lemma SentAtAll(L: Strings, e: Env, h: Host, k: nat)
    requires TakesInputs(L, e.hash) && Sample(e) && Joins(e.hash, h) && k <= 24
    ensures All(L, Sent(e, h.in0(k), h.in1(k)))
  {
    FirstInputs(L, e.hash, h, k);
    SecondInputs(L, e.hash, h, k);
    assert e.unwrap(h.in0(k)) == BadFormat;
    SentAll(L, e, h.in0(k), h.in1(k));
  }

  lemma PrivatesAll(L: Strings, e: Env, h: Host)
    requires L([5]) && L([7]) && ToBytes(V0Of(e, h)) == [5] && ToBytes(V1Of(e, h)) == [7]
    ensures All(L, Privates(e, h))
  {}

  lemma HashedAtAll(L: Strings, e: Env, h: Host, k: nat)
    requires TakesSettings(L, e.hash) && TakesInputs(L, e.hash) && Known(e, h) && k <= 24
    ensures All(L, HashedAt(e, h, k))
  {
    SealedAtAll(L, e, h, k);
    SentAtAll(L, e, h, k);
    PrivatesAll(L, e, h);
    PartsAll(L, e, h, k);
  }

  lemma PartsAll(L: Strings, e: Env, h: Host, k: nat)
    requires Settled(h) && All(L, SealedAt(e, h, k)) && All(L, Sent(e, h.in0(k), h.in1(k))) && All(L, Privates(e, h))
    ensures All(L, HashedAt(e, h, k))
  {
    AllThree(L, SealedAt(e, h, k), Sent(e, h.in0(k), h.in1(k)), Privates(e, h));
  }

  lemma JoinUnion(L: Strings, e: Env, h: Host, k: nat)
    requires Settled(h) && forall j: nat :: j < k ==> All(L, HashedAt(e, h, j))
    ensures All(L, JoinStrings(e, h, k))
  {
    UptoAll(L, {}, JoinParts(e, h), k);
  }

  lemma JoinAll(L: Strings, e: Env, h: Host, k: nat)
    requires TakesSettings(L, e.hash) && TakesInputs(L, e.hash) && Known(e, h) && k <= 25
    ensures All(L, JoinStrings(e, h, k))
  {
    forall j: nat | j < k ensures All(L, HashedAt(e, h, j)) { HashedAtAll(L, e, h, j); }
    JoinUnion(L, e, h, k);
  }

  lemma BlobAll(L: Strings, e: Env, r: nat, d: seq<byte>)
    requires Sample(e) && r <= RT_DAA_V1 && |d| <= 88 && L(Packed(r, d)) && L(d) && L([])
    ensures All(L, Sent(e, Packed(r, d), []))
  {
    assert e.wrap(r, d, []) == Packed(r, d);
    assert Contents(e.unwrap(Packed(r, d))) == d;
  }

  lemma PlainInputs(L: Strings, f: Hash, h: Host, k: nat)
    requires TakesInputs(L, f) && Signs(f, h) && k < 13 && k != 1
    ensures L(h.sign0(k)) && |h.sign0(k)| <= 256 && L(h.sign1(k))
  {
    assert k in {0, 6, 9, 10, 11, 12} || 2 <= k <= 5 || 7 <= k <= 8;
  }

  lemma SignSentAll(L: Strings, e: Env, h: Host, k: nat)
    requires TakesSettings(L, e.hash) && TakesInputs(L, e.hash) && Sample(e) && Signs(e.hash, h) && k <= 15
    ensures All(L, Sent(e, h.sign0(k), h.sign1(k)))
  {
    if k == 1 {
      var t := TpmFrom(e.hash, true, true, true, 5);
      assert TpmOf(e.hash, t);
      BlobAll(L, e, RT_DAA_TPM, SpecificBytes(t));
    } else if k == 15 {
      BlobAll(L, e, RT_DAA_V1, [7]);
    } else if 13 <= k {
      BlobAll(L, e, RT_DAA_V0, [5]);
    } else {
      PlainInputs(L, e.hash, h, k);
      assert e.unwrap(h.sign0(k)) == BadFormat;
      SentAll(L, e, h.sign0(k), h.sign1(k));
    }
  }

  lemma SignSealedAll(L: Strings, e: Env, h: Host, k: nat)
    requires TakesSettings(L, e.hash) && Known(e, h) && k <= 15
    ensures All(L, SignSealed(e, h, k))
  {
    SettingsKnown(e, h, 24);
    SealedAll(L, e, if k <= 1 then NoSpecific(0) else Final(e, h), NoJoin(),
              if k == 0 then NoIssuer(0) else TheIssuer(h));
  }

  lemma SignHashedAll(L: Strings, e: Env, h: Host, k: nat)
    requires TakesSettings(L, e.hash) && TakesInputs(L, e.hash) && Known(e, h) && Signs(e.hash, h) && k <= 15
    ensures All(L, SignHashedAt(e, h, k))
  {
    SignSentAll(L, e, h, k);
    SignSealedAll(L, e, h, k);
    SignPartsAll(L, e, h, k);
  }

  lemma SignPartsAll(L: Strings, e: Env, h: Host, k: nat)
    requires Settled(h) && All(L, SignSealed(e, h, k)) && All(L, Sent(e, h.sign0(k), h.sign1(k)))
    ensures All(L, SignHashedAt(e, h, k))
  {
    AllThree(L, Sent(e, h.sign0(k), h.sign1(k)), SignSealed(e, h, k), {});
  }

  lemma SignUnion(L: Strings, e: Env, h: Host, joined: set<seq<byte>>, k: nat)
    requires Settled(h) && All(L, joined) && forall j: nat :: j < k ==> All(L, SignHashedAt(e, h, j))
    ensures All(L, SignStrings(e, h, joined, k))
  {
    UptoAll(L, joined, SignParts(e, h), k);
  }

  lemma SignAll(L: Strings, e: Env, h: Host, joined: set<seq<byte>>, k: nat)
    requires TakesSettings(L, e.hash) && TakesInputs(L, e.hash) && Known(e, h) && Signs(e.hash, h) && k <= 16
    requires All(L, joined)
    ensures All(L, SignStrings(e, h, joined, k))
  {
    forall j: nat | j < k ensures All(L, SignHashedAt(e, h, j)) { SignHashedAll(L, e, h, j); }
    SignUnion(L, e, h, joined, k);
  }

  ghost function Listing(f: Hash): Strings {
    (x: seq<byte>) => Listed(f, x)
  }

  lemma ListingTakesSettings(f: Hash)
    ensures TakesSettings(Listing(f), f)
  {
    forall t, j | TpmOf(f, t) && JoinOf(f, j) ensures Listing(f)(SpecificBytes(t) + JoinBytes(j)) {
      assert Whole(f, SpecificBytes(t) + JoinBytes(j));
    }
    forall t | TpmOf(f, t) ensures Listing(f)(SpecificBytes(t)) { assert Half(f, SpecificBytes(t)); }
    forall i | IssuerIn(f, i) ensures Listing(f)(IssuerBytes(i)) { assert Issuing(f, IssuerBytes(i)); }
  }

  lemma ShortIsListed(f: Hash, x: seq<byte>)
    requires Short(f, x)
    ensures Listing(f)(x)
  {}

  lemma ListingTakesInputs(f: Hash)
    ensures TakesInputs(Listing(f), f)
  {
    ListingTakesSettings(f);
    assert IssuerIn(f, IssuerFrom(f));
    forall x | Short(f, x) ensures Listing(f)(x) { ShortIsListed(f, x); }
    assert Short(f, []) && Short(f, [1]) && Short(f, [2]) && Short(f, [5]) && Short(f, [7]);
    assert Short(f, Number(4, 1)) && Short(f, Number(4, 5)) && Short(f, Zeros(20)) && Short(f, Number(128, 5));
    assert Short(f, Number(192, 7)) && Short(f, Number(256, 1)) && Short(f, Packed(RT_DAA_V0, [5]));
    assert Short(f, Packed(RT_DAA_V1, [7]));
    assert Short(f, Packed(RT_DAA_TPM, SpecificBytes(TpmFrom(f, true, true, true, 5))));
  }

  lemma SampleListed(e: Env, h: Host, n: nat, m: nat)
    requires Known(e, h) && Signs(e.hash, h) && n <= 25 && m <= 16
    ensures All(Listing(e.hash), SignStrings(e, h, JoinStrings(e, h, n), m))
  {
    ListingTakesSettings(e.hash);
    ListingTakesInputs(e.hash);
    JoinAll(Listing(e.hash), e, h, n);
    SignAll(Listing(e.hash), e, h, JoinStrings(e, h, n), m);
  }

  lemma ListedCollisionless(e: Env, s: set<seq<byte>>)
    requires Telling(e.hash) && All(Listing(e.hash), s)
    ensures Collisionless(e, s)
  {
    forall x, y | x in s && y in s && e.hash(x) == e.hash(y) ensures x == y { ListedApart(e.hash, x, y); }
  }

  lemma SampleContinuable(e: Env, h: Host)
    requires V0Of(e, h) == 5 && V1Of(e, h) == 7 && e.z.v0 == 128 && e.z.v1 == 192
    ensures Continuable(e, h)
  {
    PowMonotone(256, 1, e.z.v0);
    PowMonotone(256, 1, e.z.v1);
    SmallPowers();
  }

  lemma SampleContinues(e: Env, h: Host)
    requires Known(e, h) && Signs(e.hash, h)
    ensures SendsBlobs(e, h)
  {
    SampleSettings(e, h, 24);
    SampleBlobs(e, h, TpmFrom(e.hash, true, true, true, 5));
  }

  lemma SampleHonestSign(e: Env, h: Host)
    requires Known(e, h) && Signs(e.hash, h)
    ensures HonestSign(e, h)
  {
    NumbersFit(e, TheIssuer(h));
    SampleContinuable(e, h);
    SampleContinues(e, h);
    SampleSignNumbers(e, h, TheIssuer(h));
  }

  lemma SampleBlobs(e: Env, h: Host, t: Specific)
    requires Settled(h) && Marshals(e) && ToBytes(V0Of(e, h)) == [5] && ToBytes(V1Of(e, h)) == [7]
    requires forall r: nat, d, v {:trigger e.wrap(r, d, v)} :: e.wrap(r, d, v) == Packed(r, d)
    requires TpmAt(e, h, 24) == t
    ensures Blobs(e, h, 22) == Packed(RT_DAA_V0, [5]) && Blobs(e, h, 23) == Packed(RT_DAA_V1, [7])
    ensures Blobs(e, h, 24) == Packed(RT_DAA_TPM, SpecificBytes(t))
  {
    assert Bytewise(t);
  }

  lemma SignBases(e: Env, h: Host, i: Issuer)
    requires BaseFits(e, i, i.r0, [1], [2]) && i.r0 == i.r1 == i.s0 == i.s1
    requires forall k: nat :: 2 <= k <= 5 ==> h.sign0(k) == [1] && h.sign1(k) == [2]
    ensures forall k: nat :: 2 <= k <= 5 ==> BaseFits(e, i, SignBase(i, k), h.sign0(k), h.sign1(k))
  {
    forall k: nat | 2 <= k <= 5 ensures BaseFits(e, i, SignBase(i, k), h.sign0(k), h.sign1(k)) {
      assert SignBase(i, k) == i.r0 && h.sign0(k) == [1];
    }
  }

  lemma SampleSignNumbers(e: Env, h: Host, i: Issuer)
    requires Settled(h) && i == TheIssuer(h) == IssuerFrom(e.hash) && Signs(e.hash, h)
    requires BaseFits(e, i, i.r0, [1], [2]) && Gamma(e, i, [2]) && Witness(e, i, [2], Number(256, 1))
    ensures SignNumbers(e, h)
  {
    SignBases(e, h, i);
    assert h.sign0(6) == h.sign0(7) == h.sign0(8) == [2];
  }

  /** This host completes a Join and a Sign without a collision, and its signature verifies. */
  lemma SampleVerifies(e: Env, h: Host)
    requires Sample(e) && Joins(e.hash, h) && Signs(e.hash, h)
    ensures var join, sign := Run(e, Joining(h)).h, Run(e, Joining(h) + Signing(h)).h;
      && join.mode == JOIN && join.top == 25 && sign.mode == SIGN && sign.top == 16
      && Collisionless(e, sign.hashed) && Conserved(e, join, sign) && DaaSign.SignVerifies(sign, Completed(join))
  {
    SampleKnown(e, h);
    SampleHonest(e, h);
    SampleHonestSign(e, h);
    SampleListed(e, h, 25, 16);
    ListedCollisionless(e, SignStrings(e, h, JoinStrings(e, h, 25), 16));
    SampleBases(e, h);
    HonestCompletes(e, h);
    HonestVerifies(e, h);
  }

  lemma SampleBases(e: Env, h: Host)
    requires Joins(e.hash, h) && e.z.scratch == 256
    ensures Cong(OfBytes(h.in0(7)), Pow(OfBytes(h.in0(6)), Two(e.z.power1)), OfBytes(h.in1(4)))
  {
    NumberIs(1, 1);
    assert Number(1, 1) == [1];
    PowOne(Two(e.z.power1));
    assert h.in0(7) == h.in0(6) == [1];
    CongRefl(1, OfBytes(h.in1(4)));
  }

  // ---- there is such a host

  function Unpacked(b: seq<byte>): Blob {
    if |b| > 256 then Opened(b[0] as nat, TAG_SENSITIVE, b[257..]) else BadFormat
  }

  function SampleEnv(z: Sizes): Env {
    Env(z, x => Finger(x), (x, k: nat) => Zeros(k), (n: nat) => Be(n, 4), [], (a, b, c) => true,
        x => Opened(0, 0, []), x => BadFormat, (r: nat, d, v) => Packed(r, d), b => Unpacked(b),
        t => SpecificBytes(t), j => JoinBytes(j), i => IssuerBytes(i))
  }

  lemma UnpackedPacked(r: nat, d: seq<byte>)
    requires r < 256
    ensures Unpacked(Packed(r, d)) == Opened(r, TAG_SENSITIVE, d)
  {
    var p, b := [LowByte(r)] + Zeros(256), LowByte(r);
    Rest(p, d);
    assert |p| == 257 && Packed(r, d) == p + d && Packed(r, d)[0] == b;
    LowIs(r);
  }

  lemma LowIs(r: nat)
    requires r < 256
    ensures LowByte(r) as nat == r
  {}

  lemma Rest(p: seq<byte>, d: seq<byte>)
    ensures (p + d)[|p|..] == d
  {}

  lemma FingerTelling(f: Hash)
    requires forall x :: f(x) == Finger(x)
    ensures Telling(f)
  {
    forall x, y {:trigger Compared(x, y)} |
      Compared(x, y) && f(x) == f(y) && |x| < 0x1_0000 && |y| < 0x1_0000
      ensures |x| == |y| && Marks(x) == Marks(y)
    {
      FingerTells(x, y);
    }
  }

  lemma SampleEnvIs(z: Sizes)
    requires Usual(z)
    ensures Sample(SampleEnv(z))
  {
    var e := SampleEnv(z);
    FingerTelling(e.hash);
    forall r: nat, d, v | r <= RT_DAA_V1 ensures e.unwrap(e.wrap(r, d, v)) == Opened(r, TAG_SENSITIVE, d) {
      UnpackedPacked(r, d);
    }
  }

  function SampleHost(f: Hash): Host {
    Host((k: nat) => In0Of(f, k), (k: nat) => In1Of(k), (k: nat) => Random(Zeros(128), Zeros(138)),
         (k: nat) => Sign0Of(f, k), (k: nat) => Sign1Of(k), (k: nat) => Random([], []))
  }

  lemma SampleHostIs(f: Hash)
    ensures Joins(f, SampleHost(f)) && Signs(f, SampleHost(f))
  {}

  /** So a Join and a Sign on its blobs can complete without a collision, with the sizes of the
      emulator among others. */
  lemma CompletedRunExists(z: Sizes) returns (e: Env, first: seq<Action>, more: seq<Action>)
    requires Usual(z)
    ensures e.z == z && Hashes(e) && Marshals(e) && Unwraps(e)
    ensures var join, sign := Run(e, first).h, Run(e, first + more).h;
      && join.mode == JOIN && join.top == 25 && sign.mode == SIGN && sign.top == 16
      && Collisionless(e, sign.hashed) && Conserved(e, join, sign) && DaaSign.SignVerifies(sign, Completed(join))
  {
    e := SampleEnv(z);
    SampleEnvIs(z);
    var h := SampleHost(e.hash);
    SampleHostIs(e.hash);
    SampleVerifies(e, h);
    first, more := Joining(h), Signing(h);
  }

  lemma SourceUsual()
    ensures Usual(SOURCE_SIZES)
  {}
}
