/** An honest host completes Join, and Sign on the blobs of that Join, with every hash, mask
    generation and wrapping: the hypotheses of the theorems about completed runs can be met. */
module DaaHonest {
  import opened NumberTheory
  import opened Bytes
  import opened Rsa
  import opened Daa
  import opened DaaRun
  import opened DaaTheorems
  import opened DaaJoinSign

  /** What the host sends in at each stage of Join and of Sign, and the random bytes that the TPM
      draws there. */
  datatype Host = Host(in0: nat -> seq<byte>, in1: nat -> seq<byte>, random: nat -> Random,
                       sign0: nat -> seq<byte>, sign1: nat -> seq<byte>, drawn: nat -> Random)

  /** The sizes leave room for every sum that the stages form. */
  ghost predicate Roomy(e: Env) {
    && Hashes(e) && (forall x, k: nat {:trigger e.mask(x, k)} :: |e.mask(x, k)| == k)
    && 160 <= e.z.scratch
    && e.z.r0 + 2 <= e.z.scratch && e.z.r1 + 2 <= e.z.scratch && e.z.r2 + 2 <= e.z.scratch
    && e.z.r3 + 2 <= e.z.scratch && e.z.r4 + 2 <= e.z.scratch
    && e.z.v0 + 22 <= e.z.scratch && e.z.v1 + 22 <= e.z.scratch
  }

  /** Stage 2 of Join sends the issuer settings. */
  predicate Settled(h: Host) {
    |h.in0(2)| == 148
  }

  function TheIssuer(h: Host): Issuer
    requires Settled(h)
  {
    IssuerOf(h.in0(2))
  }

  /** The base of a product has the digest of the settings, and so has the modulus, which fits. */
  predicate BaseFits(e: Env, i: Issuer, digest: seq<byte>, in0: seq<byte>, in1: seq<byte>) {
    e.hash(in0) == digest && e.hash(in1) == i.n && OfBytes(in1) > 0 && Fits(e, OfBytes(in1))
  }

  predicate Gamma(e: Env, i: Issuer, in0: seq<byte>) {
    e.hash(in0) == i.gamma && OfBytes(in0) > 0 && Fits(e, OfBytes(in0))
  }

  /** w has an order that divides q. */
  predicate Witness(e: Env, i: Issuer, in0: seq<byte>, in1: seq<byte>) {
    && Gamma(e, i, in0) && |in1| == e.z.w && Fits(e, OfBytes(in1))
    && PowMod(OfBytes(in1), OfBytes(i.q), OfBytes(in0)) == 1
  }

  /** The product stages of Join. */
  predicate Product(k: nat) {
    4 <= k <= 7 || 9 <= k <= 12
  }

  /** The digest of the base that a product stage takes. */
  function BaseOf(i: Issuer, k: nat): seq<byte> {
    if k == 4 || k == 9 then i.r0
    else if k == 5 || k == 10 then i.r1
    else if k == 6 || k == 11 then i.s0
    else i.s1
  }

  /** The numbers that Join takes are those of the issuer. */
  ghost predicate JoinNumbers(e: Env, h: Host)
    requires Settled(h)
  {
    var i := TheIssuer(h);
    && i.tag == TAG_ISSUER && OfBytes(i.q) > 0
    && (forall k: nat :: Product(k) ==> BaseFits(e, i, BaseOf(i, k), h.in0(k), h.in1(k)))
    && Witness(e, i, h.in0(13), h.in1(13)) && Gamma(e, i, h.in0(14)) && Gamma(e, i, h.in0(15))
  }

  ghost predicate Honest(e: Env, h: Host) {
    && |h.in0(0)| == 4 && OfBytes(h.in0(0)) == 1 && |h.in0(1)| == e.z.modulus && Settled(h)
    && |h.in1(2)| == e.z.modulus && e.signed(FirstKey(e, h), e.hash(FirstKey(e, h)) + h.in0(2), h.in1(2))
    && |h.in0(3)| == 4 && |h.random(3).first| == 128 && |h.random(3).second| == 138
    && |h.in0(8)| == e.z.ne && e.decrypted(h.in0(8)).Opened? && |h.in0(16)| == DIGEST
    && |h.in0(22)| == e.z.v0 && |h.in0(23)| == e.z.v1 && JoinNumbers(e, h)
  }

  function FirstKey(e: Env, h: Host): seq<byte> {
    Field(h.in0(1), e.z.scratch)
  }

  // ---- the calls

  function JoinCall(h: Host, k: nat): Call {
    Stage(JOIN, true, HANDLE, k, h.in0(k), h.in1(k), h.random(k))
  }

  // ---- the settings of the session before each stage

  function Shares(h: Host): nat {
    OfBytes(h.in0(22)) + OfBytes(h.random(3).first)
  }

  function V0Of(e: Env, h: Host): nat {
    Low(Shares(h), e.z.power1)
  }

  function V1Of(e: Env, h: Host): nat {
    OfBytes(h.in0(23)) + OfBytes(h.random(3).second) + High(Shares(h), e.z.power1)
  }

  function TpmAt(e: Env, h: Host, k: nat): Specific
    requires Settled(h)
  {
    var n0 := e.hash(FirstKey(e, h));
    var t := NoSpecific(TAG_TPM);
    if k <= 1 then t.(count := 1)
    else
      Specific(TAG_TPM,
               if k <= 2 then t.issuer else e.hash(e.ofIssuer(TheIssuer(h))),
               if k <= 22 then t.v0 else e.hash(ToBytes(V0Of(e, h))),
               if k <= 23 then t.v1 else e.hash(ToBytes(V1Of(e, h))),
               e.hash(e.seed + n0), if k <= 3 then 0 else OfBytes(h.in0(3)))
  }

  function JoinAt(e: Env, h: Host, k: nat): JoinData {
    if k <= 1 then NoJoin()
    else
      var j := NoJoin().(n0 := e.hash(FirstKey(e, h)));
      if k <= 3 then j else j.(u0 := h.random(3).first, u1 := h.random(3).second)
  }

  function IssuerAt(h: Host, k: nat): Issuer
    requires Settled(h)
  {
    if k <= 2 then NoIssuer(TAG_ISSUER) else TheIssuer(h)
  }

  /** The session expects Join stage `k` of this host. */
  ghost predicate JoinReady(e: Env, h: Host, s: Session, k: nat)
    requires Settled(h)
  {
    && s.kind == ST_DAA && s.handle == HANDLE && s.context.stage == k && JoinMatches(e, s)
    && s.tpm == TpmAt(e, h, k) && s.join == JoinAt(e, h, k) && s.issuer == IssuerAt(h, k)
    && |s.context.digest| == DIGEST
    && (k == 1 ==> s.context.scratch == Zeros(e.z.scratch)) && (k == 2 ==> s.context.scratch == FirstKey(e, h))
    && (k == 21 ==> Scratch(s) < 2 * Unit(e)) && (k == 23 ==> Scratch(s) == High(Shares(h), e.z.power1))
  }

  // ---- sizes

  /** Sums of a few numbers below this fit. */
  function Unit(e: Env): nat {
    if e.z.scratch < 2 then 0
    else
      PowPositive(256, e.z.scratch - 2);
      Pow(256, e.z.scratch - 2)
  }

  lemma {:induction false} PowMonotone(b: nat, d: nat, e: nat)
    requires b > 0 && d <= e
    ensures Pow(b, d) <= Pow(b, e)
    decreases e - d
  {
    if d < e {
      PowMonotone(b, d + 1, e);
      PowPositive(b, d);
      MulMono(1, b, Pow(b, d));
    }
  }

  lemma SumFits(e: Env, v: nat)
    requires e.z.scratch >= 2 && v <= 4 * Unit(e)
    ensures Fits(e, v)
  {
    PowAdd(256, 2, e.z.scratch - 2);
    PowPositive(256, e.z.scratch - 2);
    SmallPowers();
    ToBytesLength(v, e.z.scratch);
  }

  lemma BytesSmall(e: Env, s: seq<byte>)
    requires |s| + 2 <= e.z.scratch
    ensures OfBytes(s) < Unit(e)
  {
    OfBytesBound(s);
    PowMonotone(256, |s|, e.z.scratch - 2);
  }

  lemma ProductBelow(x: nat, a: nat, y: nat, b: nat)
    requires x < a && y < b
    ensures x * y < a * b
  {
    MulMono(x, a, y);
    MulMono(y + 1, b, a);
    assert a * y < (y + 1) * a;
  }

  lemma ProductSmall(e: Env, c: seq<byte>, v: nat, k: nat)
    requires |c| == DIGEST && v < Pow(256, k) && k + 22 <= e.z.scratch
    ensures OfBytes(c) * v < Unit(e)
  {
    OfBytesBound(c);
    PowPositive(256, DIGEST);
    PowPositive(256, k);
    ProductBelow(OfBytes(c), Pow(256, DIGEST), v, Pow(256, k));
    PowAdd(256, DIGEST, k);
    PowMonotone(256, DIGEST + k, e.z.scratch - 2);
  }

  lemma BelowFits(e: Env, v: nat, n: nat)
    requires v <= n && Fits(e, n)
    ensures Fits(e, v)
  {
    ToBytesLength(n, e.z.scratch);
    ToBytesLength(v, e.z.scratch);
  }

  lemma {:induction false} LowHighBelow(v: nat, k: nat)
    ensures Low(v, k) <= v && High(v, k) <= v
  {
    if k > 0 { LowHighBelow(v / 2, k - 1); }
  }

  /** r + c v fits, and so do its parts. */
  lemma ResponseSmall(e: Env, s: Session, digit: byte, size: nat, v: nat, k: nat)
    requires Roomy(e) && |s.context.digest| == DIGEST && size + 2 <= e.z.scratch
    requires v < Pow(256, k) && k + 22 <= e.z.scratch
    ensures Respond(Blind(e, s.context.seed, digit, size), Challenge(s), v) < 2 * Unit(e)
  {
    BytesSmall(e, e.mask([0x72, digit] + s.context.seed, size));
    ProductSmall(e, s.context.digest, v, k);
    TimesIs(Challenge(s), v);
  }

  /** The secret f is below q. */
  lemma SecretSmall(e: Env, s: Session)
    requires Q(s) > 0 && |s.issuer.q| == 26
    ensures F0(e, s) < Pow(256, 26) && F1(e, s) < Pow(256, 26)
  {
    OfBytesBound(s.issuer.q);
    LowHighBelow(Secret(e, s), e.z.power0);
  }

  lemma AnswerFits(e: Env, s: Session, digit: byte, size: nat, v: nat, k: nat)
    requires Roomy(e) && |s.context.digest| == DIGEST && size + 2 <= e.z.scratch
    requires v < Pow(256, k) && k + 22 <= e.z.scratch
    ensures Fits(e, Respond(Blind(e, s.context.seed, digit, size), Challenge(s), v))
  {
    ResponseSmall(e, s, digit, size, v, k);
    SumFits(e, Respond(Blind(e, s.context.seed, digit, size), Challenge(s), v));
  }

  /** The low and high parts of r2 + c v are small. */
  lemma PartsFit(e: Env, s: Session, v: nat, k: nat)
    requires Roomy(e) && |s.context.digest| == DIGEST && v < Pow(256, k) && k + 22 <= e.z.scratch
    ensures var r := Respond(R2(e, s), Challenge(s), v);
      Fits(e, Low(r, e.z.power1)) && Fits(e, High(r, e.z.power1)) && High(r, e.z.power1) < 2 * Unit(e)
  {
    ResponseSmall(e, s, 0x32, e.z.r2, v, k);
    var r := Respond(R2(e, s), Challenge(s), v);
    LowHighBelow(r, e.z.power1);
    SumFits(e, Low(r, e.z.power1));
    SumFits(e, High(r, e.z.power1));
  }

  // ---- stages common to Join and Sign

  lemma PowerGood(e: Env, s: Session, base: seq<byte>, in0: seq<byte>, in1: seq<byte>, y: nat, z: nat)
    requires BaseFits(e, s.issuer, base, in0, in1)
    ensures Power(e, s, base, in0, in1, y, z, true).Value?
  {
    BelowFits(e, PowMod(OfBytes(in0), y, OfBytes(in1)) * z % OfBytes(in1), OfBytes(in1));
  }

  lemma WitnessGood(e: Env, s: Session, in0: seq<byte>, in1: seq<byte>)
    requires Witness(e, s.issuer, in0, in1)
    ensures CheckW(e, s, in0, in1).Good?
  {}

  lemma PowerOfWGood(e: Env, s: Session, in0: seq<byte>, y: nat)
    requires Gamma(e, s.issuer, in0) && Q(s) > 0
    ensures PowerOfW(e, s, in0, y).Value?
  {
    BelowFits(e, PowMod(Scratch(s), y, OfBytes(in0)), OfBytes(in0));
  }

  lemma FirstAnswersGood(e: Env, s: Session)
    requires Roomy(e) && Q(s) > 0 && |s.issuer.q| == 26 && |s.context.digest| == DIGEST
    ensures SendS0(e, s).Good? && SendS1(e, s).Good?
  {
    SecretSmall(e, s);
    AnswerFits(e, s, 0x30, e.z.r0, F0(e, s), 26);
    AnswerFits(e, s, 0x31, e.z.r1, F1(e, s), 26);
  }

  lemma SplitAnswersGood(e: Env, s: Session, v: nat, k: nat, output: seq<byte>)
    requires Roomy(e) && |s.context.digest| == DIGEST && v < Pow(256, k) && k + 22 <= e.z.scratch
    ensures SendS2(e, s, v).Good? && KeepS12(e, s, v, output).Good?
    ensures Scratch(KeepS12(e, s, v, output).next) < 2 * Unit(e)
  {
    PartsFit(e, s, v, k);
    LittleRead(e, High(Respond(R2(e, s), Challenge(s), v), e.z.power1));
  }

  lemma LastAnswerGood(e: Env, s: Session, digit: byte, size: nat, v: nat, k: nat)
    requires Roomy(e) && |s.context.digest| == DIGEST && v < Pow(256, k) && k + 22 <= e.z.scratch
    requires size + 2 <= e.z.scratch && Scratch(s) < 2 * Unit(e)
    ensures SendS3(e, s, Blind(e, s.context.seed, digit, size), v).Good?
  {
    ResponseSmall(e, s, digit, size, v, k);
    SumFits(e, Respond(Blind(e, s.context.seed, digit, size), Challenge(s), v) + Scratch(s));
  }

  // ---- the stages of Join

  lemma OpenReady(e: Env, h: Host)
    requires Roomy(e) && Honest(e, h)
    ensures JoinOpen(e, HANDLE, h.in0(0)).Good? && JoinReady(e, h, JoinOpen(e, HANDLE, h.in0(0)).next, 1)
  {
    var in0 := h.in0(0);
    var s := JoinOpen(e, HANDLE, in0).next;
    assert JoinInput(e, s) == e.ofSpecific(TpmAt(e, h, 1)) + e.ofJoin(NoJoin());
  }

  lemma EarlyReady(e: Env, h: Host, s: Session, k: nat)
    requires Roomy(e) && Honest(e, h) && 1 <= k <= 3 && JoinReady(e, h, s, k)
    ensures var r := JoinStage(e, s, k, h.in0(k), h.in1(k), h.random(k));
      r.Good? && JoinReady(e, h, r.next, k + 1)
  {
    JoinMoves(e, s, k, h.in0(k), h.in1(k), h.random(k));
  }

  /** The body of stage `k` with the host's inputs. */
  function JoinDoes(e: Env, h: Host, s: Session, k: nat): Effect
    requires 1 <= k <= 24
  {
    JoinBody(e, s, k, h.in0(k), h.in1(k), h.random(k))
  }

  lemma ProductGood(e: Env, s: Session, k: nat, in0: seq<byte>, in1: seq<byte>, x: Random)
    requires Product(k) && BaseFits(e, s.issuer, BaseOf(s.issuer, k), in0, in1) && Q(s) > 0
    ensures JoinProduct(e, s, k, in0, in1, x).Good?
  {
    var t, i := if k == 9 then Seeded(s, x.first) else s, s.issuer;
    forall y: nat, z: nat ensures Power(e, t, BaseOf(i, k), in0, in1, y, z, true).Value? {
      PowerGood(e, t, BaseOf(i, k), in0, in1, y, z);
    }
  }

  lemma ProductsGood(e: Env, h: Host, s: Session, k: nat)
    requires Settled(h) && s.issuer == TheIssuer(h) && JoinNumbers(e, h) && Product(k)
    ensures JoinDoes(e, h, s, k).Good?
  {
    ProductGood(e, s, k, h.in0(k), h.in1(k), h.random(k));
  }

  lemma SharesSmall(h: Host)
    requires |h.random(3).first| == 128 && |h.random(3).second| == 138
    ensures OfBytes(h.random(3).first) < Pow(256, 138) && OfBytes(h.random(3).second) < Pow(256, 138)
  {
    OfBytesBound(h.random(3).first);
    OfBytesBound(h.random(3).second);
    PowMonotone(256, 128, 138);
  }

  lemma WitnessesGood(e: Env, h: Host, s: Session, k: nat)
    requires Roomy(e) && Settled(h) && JoinNumbers(e, h) && (k == 16 ==> |h.in0(16)| == DIGEST)
    requires 13 <= k <= 18 && s.issuer == TheIssuer(h) && |s.context.digest| == DIGEST
    ensures JoinDoes(e, h, s, k).Good?
  {
    if k == 13 {
      WitnessGood(e, s, h.in0(13), h.in1(13));
    } else if k == 14 {
      PowerOfWGood(e, s, h.in0(14), Secret(e, s));
    } else if k == 15 {
      PowerOfWGood(e, s, h.in0(15), BlindExponent(e, s));
    } else if 17 <= k {
      FirstAnswersGood(e, s);
    }
  }

  lemma AnswersGood(e: Env, h: Host, s: Session, k: nat, size: nat)
    requires Roomy(e) && 19 <= k <= 21 && |s.context.digest| == DIGEST && size + 22 <= e.z.scratch
    requires U0(s) < Pow(256, size) && U1(s) < Pow(256, size) && (k == 21 ==> Scratch(s) < 2 * Unit(e))
    ensures JoinDoes(e, h, s, k).Good? && (k == 20 ==> Scratch(JoinDoes(e, h, s, k).next) < 2 * Unit(e))
  {
    if k == 21 {
      LastAnswerGood(e, s, 0x33, e.z.r3, U1(s), size);
    } else {
      SplitAnswersGood(e, s, U0(s), size, s.context.digest);
    }
  }

  lemma DigestSized(e: Env, h: Host, s: Session, k: nat)
    requires Hashes(e) && 4 <= k < 22 && JoinDoes(e, h, s, k).Good? && |s.context.digest| == DIGEST
    ensures |JoinDoes(e, h, s, k).next.context.digest| == DIGEST
  {}

  lemma MiddleReady(e: Env, h: Host, s: Session, k: nat)
    requires Roomy(e) && Honest(e, h) && 4 <= k < 22 && JoinReady(e, h, s, k)
    ensures JoinDoes(e, h, s, k).Good? && JoinReady(e, h, JoinDoes(e, h, s, k).next, k + 1)
  {
    if k >= 19 {
      SharesSmall(h);
      AnswersGood(e, h, s, k, 138);
    } else if k >= 13 {
      WitnessesGood(e, h, s, k);
    } else if k != 8 {
      ProductsGood(e, h, s, k);
    }
    DigestSized(e, h, s, k);
    JoinMiddle(e, s, k, h.in0(k), h.in1(k), h.random(k));
    JoinMiddleMoves(e, s, k, h.in0(k), h.in1(k), h.random(k));
  }

  lemma PrivatesSmall(e: Env, h: Host)
    requires Roomy(e) && Honest(e, h)
    ensures Fits(e, V0Of(e, h)) && Fits(e, High(Shares(h), e.z.power1)) && Fits(e, V1Of(e, h))
  {
    BytesSmall(e, h.in0(22));
    BytesSmall(e, h.in0(23));
    BytesSmall(e, h.random(3).first);
    BytesSmall(e, h.random(3).second);
    LowHighBelow(Shares(h), e.z.power1);
    SumFits(e, V0Of(e, h));
    SumFits(e, High(Shares(h), e.z.power1));
    SumFits(e, V1Of(e, h));
  }

  lemma V0Ready(e: Env, h: Host, s: Session)
    requires Settled(h) && JoinReady(e, h, s, 22) && |h.in0(22)| == e.z.v0
    requires Fits(e, V0Of(e, h)) && Fits(e, High(Shares(h), e.z.power1))
    ensures var r := JoinV0(e, s, h.in0(22), h.random(22));
      r.Good? && JoinReady(e, h, r.next, 23) && r.output == Blobs(e, h, 22)
  {
    var v10 := High(Shares(h), e.z.power1);
    assert OfBytes(h.in0(22)) + U0(s) == Shares(h) && V0(e, s, h.in0(22)) == V0Of(e, h);
    LittleRead(e, v10);
    var t := Advance(Store(s, Little(e, v10)).(tpm := s.tpm.(v0 := e.hash(ToBytes(V0Of(e, h))))));
    SealJoinMatches(e, t);
    assert JoinV0(e, s, h.in0(22), h.random(22)).next == SealJoin(e, t);
  }

  lemma V1Ready(e: Env, h: Host, s: Session)
    requires Settled(h) && JoinReady(e, h, s, 23) && |h.in0(23)| == e.z.v1 && Fits(e, V1Of(e, h))
    ensures var r := JoinV1(e, s, h.in0(23), h.random(23));
      r.Good? && JoinReady(e, h, r.next, 24) && r.output == Blobs(e, h, 23)
  {
    assert V1(s, h.in0(23)) == V1Of(e, h);
    var t := Advance(Cleared(e, s).(tpm := s.tpm.(v1 := e.hash(ToBytes(V1Of(e, h))))));
    SealJoinMatches(e, t);
    assert JoinV1(e, s, h.in0(23), h.random(23)).next == SealJoin(e, t);
  }

  lemma LateDoes(e: Env, h: Host, s: Session)
    ensures JoinDoes(e, h, s, 22) == JoinV0(e, s, h.in0(22), h.random(22))
    ensures JoinDoes(e, h, s, 23) == JoinV1(e, s, h.in0(23), h.random(23))
    ensures JoinDoes(e, h, s, 24) == Good(Blank(e), e.wrap(RT_DAA_TPM, e.ofSpecific(s.tpm), h.random(24).first))
  {}

  lemma LateGoes(e: Env, h: Host, s: Session, k: nat)
    requires Settled(h) && 22 <= k <= 24 && JoinReady(e, h, s, k)
    requires |h.in0(22)| == e.z.v0 && |h.in0(23)| == e.z.v1
    requires Fits(e, V0Of(e, h)) && Fits(e, High(Shares(h), e.z.power1)) && Fits(e, V1Of(e, h))
    ensures JoinDoes(e, h, s, k).Good? && JoinDoes(e, h, s, k).output == Blobs(e, h, k)
    ensures k < 24 ==> JoinReady(e, h, JoinDoes(e, h, s, k).next, k + 1)
    ensures k == 24 ==> JoinDoes(e, h, s, k).next == Blank(e)
  {
    LateDoes(e, h, s);
    if k == 22 {
      V0Ready(e, h, s);
    } else if k == 23 {
      V1Ready(e, h, s);
    }
  }

  /** One call of the host moves the session on. */
  lemma JoinGoes(e: Env, h: Host, s: Session, k: nat)
    requires Roomy(e) && Honest(e, h) && 1 <= k <= 24 && JoinReady(e, h, s, k)
    ensures var r := JoinStage(e, s, k, h.in0(k), h.in1(k), h.random(k));
      && r.Good? && (k < 24 ==> JoinReady(e, h, r.next, k + 1)) && (k == 24 ==> r.next == Blank(e))
      && (k >= 22 ==> r.output == Blobs(e, h, k))
  {
    if k <= 3 {
      EarlyReady(e, h, s, k);
    } else if k < 22 {
      MiddleReady(e, h, s, k);
    } else {
      PrivatesSmall(e, h);
      LateGoes(e, h, s, k);
    }
  }

  /** The blobs that Join returns at stages 22 to 24. */
  function Blobs(e: Env, h: Host, k: nat): seq<byte>
    requires Settled(h)
  {
    if k == 22 then e.wrap(RT_DAA_V0, ToBytes(V0Of(e, h)), h.random(22).first)
    else if k == 23 then e.wrap(RT_DAA_V1, ToBytes(V1Of(e, h)), h.random(23).first)
    else e.wrap(RT_DAA_TPM, e.ofSpecific(TpmAt(e, h, 24)), h.random(24).first)
  }

  // ---- the run of a Join

  /** The strings that a session with these settings has hashed. */
  function Sealed(e: Env, t: Specific, j: JoinData, i: Issuer): set<seq<byte>> {
    {e.ofSpecific(t) + e.ofJoin(j), e.ofSpecific(t), e.ofIssuer(i)}
  }

  function SealedAt(e: Env, h: Host, k: nat): set<seq<byte>>
    requires Settled(h)
  {
    if k == 0 then Sealed(e, NoSpecific(0), NoJoin(), NoIssuer(0))
    else Sealed(e, TpmAt(e, h, k), JoinAt(e, h, k), IssuerAt(h, k))
  }

  function Sent(e: Env, in0: seq<byte>, in1: seq<byte>): set<seq<byte>> {
    {in0, in1, Contents(e.unwrap(in0))}
  }

  /** The private values, which are hashed when they are made. */
  function Privates(e: Env, h: Host): set<seq<byte>> {
    {ToBytes(V0Of(e, h)), ToBytes(V1Of(e, h))}
  }

  function HashedAt(e: Env, h: Host, k: nat): set<seq<byte>>
    requires Settled(h)
  {
    SealedAt(e, h, k) + Sent(e, h.in0(k), h.in1(k)) + Privates(e, h)
  }

  /** The strings of `before` and of the first `k` parts. */
  ghost function Upto(before: set<seq<byte>>, parts: nat -> set<seq<byte>>, k: nat): set<seq<byte>> {
    before + (set j: nat, x | j < k && x in parts(j) :: x)
  }

  lemma UptoGrows(before: set<seq<byte>>, parts: nat -> set<seq<byte>>, k: nat, s: set<seq<byte>>, t: set<seq<byte>>)
    requires s <= Upto(before, parts, k) && t <= s + parts(k)
    ensures t <= Upto(before, parts, k + 1)
  {}

  lemma UptoAll(L: seq<byte> -> bool, before: set<seq<byte>>, parts: nat -> set<seq<byte>>, k: nat)
    requires forall x :: x in before ==> L(x)
    requires forall j: nat, x :: j < k && x in parts(j) ==> L(x)
    ensures forall x :: x in Upto(before, parts, k) ==> L(x)
  {}

  function JoinParts(e: Env, h: Host): nat -> set<seq<byte>>
    requires Settled(h)
  {
    (k: nat) => HashedAt(e, h, k)
  }

  /** Everything that the Join hashes before stage `k`. */
  ghost function JoinStrings(e: Env, h: Host, k: nat): set<seq<byte>>
    requires Settled(h)
  {
    Upto({}, JoinParts(e, h), k)
  }

  /** The calls so far are recorded, with the host's inputs. */
  ghost predicate JoinRecorded(e: Env, h: Host, r: History, k: nat)
    requires Settled(h)
  {
    && r.mode == JOIN && r.top == k && r.hashed <= JoinStrings(e, h, k) && JoinSeen(h, r.seen, k)
    && (forall j :: 22 <= j < k && j in r.seen ==> r.seen[j].output == Blobs(e, h, j))
  }

  predicate JoinSeen(h: Host, seen: map<nat, Entry>, k: nat) {
    forall j: nat :: 1 <= j < k ==> j in seen && seen[j].in0 == h.in0(j) && seen[j].in1 == h.in1(j)
  }

  ghost predicate JoinWorld(e: Env, h: Host, w: World, k: nat)
    requires Settled(h)
  {
    JoinReady(e, h, w.st.session, k) && w.st.current == HANDLE && JoinRecorded(e, h, w.h, k)
  }

  lemma JoinSends(e: Env, h: Host, s: Session, k: nat)
    requires k == 22 ==> V0(e, s, h.in0(k)) == V0Of(e, h)
    requires k == 23 ==> V1(s, h.in0(k)) == V1Of(e, h)
    ensures Digests(e, s, JoinCall(h, k)) <= Sent(e, h.in0(k), h.in1(k)) + Privates(e, h)
  {
    var c := JoinCall(h, k);
    assert c.in0 == h.in0(k) && c.in1 == h.in1(k) && c.stage == k;
  }

  lemma JoinHashes(e: Env, h: Host, st: State, k: nat)
    requires Settled(h) && 1 <= k <= 24 && JoinReady(e, h, st.session, k)
    ensures Hashed(e, st, JoinCall(h, k)) <= HashedAt(e, h, k)
  {
    JoinSends(e, h, st.session, k);
  }

  /** The successful call `c` with effect `f` on the session. */
  lemma CallDone(e: Env, w: World, c: Call, f: Effect)
    requires Reaches(w.st, c) && c.stage >= 1 && Effects(e, w.st, c) == f && f.Good?
    ensures var r := Next(e, w, Do(c));
      && r.st == State(f.next, w.st.current) && r.h.mode == c.command
      && r.h.seen == w.h.seen[c.stage := Entry(w.st.session, c.in0, c.in1, c.random, f.output)]
      && r.h.top == (if c.command == JOIN && c.stage == 1 && f.next.context.stage == 1 then 1 else c.stage + 1)
      && r.h.hashed == w.h.hashed + Hashed(e, w.st, c)
  {}

  lemma SeenGrows(h: Host, seen: map<nat, Entry>, k: nat, n: Entry)
    requires JoinSeen(h, seen, k) && n.in0 == h.in0(k) && n.in1 == h.in1(k)
    ensures JoinSeen(h, seen[k := n], k + 1)
  {}

  lemma RecordGrows(e: Env, h: Host, w: History, r: History, k: nat, n: Entry)
    requires Settled(h) && 1 <= k <= 24 && JoinRecorded(e, h, w, k)
    requires r.mode == JOIN && r.top == k + 1 && r.seen == w.seen[k := n] && r.hashed <= w.hashed + HashedAt(e, h, k)
    requires n.in0 == h.in0(k) && n.in1 == h.in1(k) && (k >= 22 ==> n.output == Blobs(e, h, k))
    ensures JoinRecorded(e, h, r, k + 1)
  {
    SeenGrows(h, w.seen, k, n);
    UptoGrows({}, JoinParts(e, h), k, w.hashed, r.hashed);
  }

  /** What a call of the host does to the state and its record. */
  lemma JoinSteps(e: Env, h: Host, w: World, k: nat)
    requires Roomy(e) && Honest(e, h) && 1 <= k <= 24 && JoinWorld(e, h, w, k)
    ensures var r := Next(e, w, Do(JoinCall(h, k)));
      && JoinRecorded(e, h, r.h, k + 1) && (k < 24 ==> JoinWorld(e, h, r, k + 1))
      && (k == 24 ==> r.st.session == Blank(e))
  {
    var f := JoinStage(e, w.st.session, k, h.in0(k), h.in1(k), h.random(k));
    JoinGoes(e, h, w.st.session, k);
    JoinReaches(e, h, w.st, k);
    JoinHashes(e, h, w.st, k);
    JoinDone(e, h, w, k, f);
  }

  lemma JoinDone(e: Env, h: Host, w: World, k: nat, f: Effect)
    requires Settled(h) && 1 <= k <= 24 && JoinWorld(e, h, w, k)
    requires f.Good? && (k < 24 ==> JoinReady(e, h, f.next, k + 1)) && (k == 24 ==> f.next == Blank(e))
    requires k >= 22 ==> f.output == Blobs(e, h, k)
    requires Reaches(w.st, JoinCall(h, k)) && Effects(e, w.st, JoinCall(h, k)) == f
    requires Hashed(e, w.st, JoinCall(h, k)) <= HashedAt(e, h, k)
    ensures var r := Next(e, w, Do(JoinCall(h, k)));
      && JoinRecorded(e, h, r.h, k + 1) && (k < 24 ==> JoinWorld(e, h, r, k + 1))
      && (k == 24 ==> r.st.session == Blank(e))
  {
    var c := JoinCall(h, k);
    CallDone(e, w, c, f);
    var r, n := Next(e, w, Do(c)), Entry(w.st.session, c.in0, c.in1, c.random, f.output);
    RecordGrows(e, h, w.h, r.h, k, n);
  }

  lemma JoinReaches(e: Env, h: Host, st: State, k: nat)
    requires 1 <= k <= 24 && st.session.kind == ST_DAA && st.session.handle == HANDLE
    ensures Reaches(st, JoinCall(h, k))
    ensures Effects(e, st, JoinCall(h, k)) == JoinStage(e, st.session, k, h.in0(k), h.in1(k), h.random(k))
  {
    var c := JoinCall(h, k);
    assert DaaRun.Names(st.session, c.handle);
    assert c.stage == k && c.command == JOIN;
  }

  function Joining(h: Host): seq<Action> {
    seq(25, k requires 0 <= k < 25 => Do(JoinCall(h, k)))
  }

  /** The successful call `c` of stage 0 with effect `f`. */
  lemma OpenDone(e: Env, w: World, c: Call, f: Effect)
    requires Reaches(w.st, c) && c.stage == 0 && Effects(e, w.st, c) == f && f.Good?
    ensures var r := Next(e, w, Do(c));
      && r.st == State(f.next, HANDLE) && r.h.mode == c.command && r.h.top == 1 && r.h.seen == map[]
      && r.h.hashed == w.h.hashed + Hashed(e, w.st, c)
  {}

  lemma BlankHashes(e: Env, h: Host)
    requires Settled(h)
    ensures Hashed(e, Start(e).st, JoinCall(h, 0)) <= HashedAt(e, h, 0)
  {
    var c := JoinCall(h, 0);
    assert c.in0 == h.in0(0) && c.in1 == h.in1(0) && c.stage == 0;
  }

  lemma JoinOpens(e: Env, h: Host)
    requires Roomy(e) && Honest(e, h)
    ensures JoinWorld(e, h, Next(e, Start(e), Do(JoinCall(h, 0))), 1)
  {
    OpenReady(e, h);
    var c, f := JoinCall(h, 0), JoinOpen(e, HANDLE, h.in0(0));
    assert Effects(e, Start(e).st, c) == f;
    OpenDone(e, Start(e), c, f);
    BlankHashes(e, h);
    UptoGrows({}, JoinParts(e, h), 0, {}, Next(e, Start(e), Do(c)).h.hashed);
  }

  /** Before call `k` of the Join, and after its last one. */
  ghost predicate JoinGoing(e: Env, h: Host, w: World, k: nat)
    requires Settled(h)
  {
    if k == 0 then w == Start(e)
    else if k < 25 then JoinWorld(e, h, w, k)
    else w.st.session == Blank(e) && JoinRecorded(e, h, w.h, k)
  }

  lemma JoinMovesOn(e: Env, h: Host, w: World, k: nat)
    requires Roomy(e) && Honest(e, h) && k < 25 && JoinGoing(e, h, w, k)
    ensures JoinGoing(e, h, Next(e, w, Do(JoinCall(h, k))), k + 1)
  {
    if k == 0 { JoinOpens(e, h); } else { JoinSteps(e, h, w, k); }
  }

  lemma {:induction false} JoinRuns(e: Env, h: Host, actions: seq<Action>, k: nat)
    requires Roomy(e) && Honest(e, h) && k <= |actions| == 25
    requires forall j :: 0 <= j < 25 ==> actions[j] == Do(JoinCall(h, j))
    ensures JoinGoing(e, h, Run(e, [] + actions[..k]), k)
  {
    if k > 0 {
      JoinRuns(e, h, actions, k - 1);
      JoinMovesOn(e, h, Run(e, [] + actions[..k - 1]), k - 1);
      RunMore(e, [], actions, k - 1);
    }
  }

  /** Every honest host completes its Join. */
  lemma JoinCompletes(e: Env, h: Host)
    requires Roomy(e) && Honest(e, h)
    ensures var w := Run(e, Joining(h)); w.st.session == Blank(e) && JoinRecorded(e, h, w.h, 25)
  {
    var actions := Joining(h);
    JoinRuns(e, h, actions, 25);
    assert [] + actions[..25] == actions;
  }
}
