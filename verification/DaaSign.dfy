/** DAA Sign over all runs, and Join followed by Sign on its blobs. */
module DaaSign {
  import opened NumberTheory
  import opened Bytes
  import opened Daa
  import opened DaaRun
  import opened DaaAlgebra
  import opened DaaTheorems

  // ---- what stays fixed

  lemma SignStep(e: Env, h: History, top: nat, j: nat)
    requires Recording(e, h, SIGN, top) && 2 <= j < top && j < 15
    ensures SignKept(At(h, j), j, At(h, j + 1))
  {
    RecordedStage(e, h, SIGN, top, j);
    var m := h.seen[j];
    SignMiddle(e, m.before, j, m.in0, m.in1, m.random);
  }

  lemma {:induction false} SignFixed(e: Env, h: History, top: nat, j: nat, k: nat)
    requires Recording(e, h, SIGN, top) && 2 <= j <= k <= top && k <= 15
    ensures At(h, j).issuer == At(h, k).issuer && At(h, j).tpm == At(h, k).tpm
    ensures At(h, j).context.seed == At(h, k).context.seed
    ensures j >= 11 ==> At(h, j).context.digest == At(h, k).context.digest
    decreases k - j
  {
    if j < k {
      SignStep(e, h, top, j);
      SignFixed(e, h, top, j + 1, k);
    }
  }

  // ---- stages 2 to 5

  function SignExponent(e: Env, s: Session, k: nat): nat {
    match k
    case 2 => R0(e, s)
    case 3 => R1(e, s)
    case 4 => R2(e, s)
    case _ => R4(e, s)
  }

  function SignBase(i: Issuer, k: nat): seq<byte> {
    match k
    case 2 => i.r0
    case 3 => i.r1
    case 4 => i.s0
    case _ => i.s1
  }

  function SignedProduct(h: History, k: nat): nat {
    if k == 5 then Out(h, 5) else Scratch(At(h, k + 1))
  }

  lemma SignProductStage(e: Env, s: Session, k: nat, in0: seq<byte>, in1: seq<byte>)
    requires 2 <= k <= 5 && SignProduct(e, s, k, in0, in1).Good?
    ensures var Good(r, output) := SignProduct(e, s, k, in0, in1);
      Multiplied(e, s.issuer, SignBase(s.issuer, k), in0, in1, SignExponent(e, s, k),
                 if k == 2 then 1 else Scratch(s), if k == 5 then OfBytes(output) else Scratch(r))
  {
    if k == 5 {
      ReleaseValue(e, s, s.issuer.s1, in0, in1, R4(e, s), Scratch(s));
    } else {
      KeepValue(e, s, SignBase(s.issuer, k), in0, in1, SignExponent(e, s, k), if k == 2 then 1 else Scratch(s), true);
    }
  }

  lemma RecordedProduct(e: Env, h: History, top: nat, k: nat)
    requires Recording(e, h, SIGN, top) && 2 <= k <= 5 && k < top
    ensures k in h.seen
    ensures SignProduct(e, At(h, k), k, h.seen[k].in0, h.seen[k].in1) == Good(At(h, k + 1), h.seen[k].output)
  {
    RecordedStage(e, h, SIGN, top, k);
  }

  lemma SignFactor(e: Env, h: History, top: nat, k: nat)
    requires Recording(e, h, SIGN, top) && 2 <= k <= 5 && 15 <= top
    ensures k in h.seen
    ensures var s := At(h, 15);
            Multiplied(e, s.issuer, SignBase(s.issuer, k), h.seen[k].in0, h.seen[k].in1, SignExponent(e, s, k),
                       if k == 2 then 1 else SignedProduct(h, k - 1), SignedProduct(h, k))
  {
    RecordedProduct(e, h, top, k);
    SignProductStage(e, At(h, k), k, h.seen[k].in0, h.seen[k].in1);
    SignFixed(e, h, top, k, 15);
  }

  /** Stages 2 to 5 return T ≡ R0^r0 R1^r1 S0^r2 S1^r4 modulo the n they were given. */
  lemma SignProducts(e: Env, h: History, top: nat)
    requires Recording(e, h, SIGN, top) && 15 <= top
    ensures In1(h, 2) > 0
    ensures var s := At(h, 15);
      Cong(Out(h, 5), Quad(In0(h, 2), In0(h, 3), In0(h, 4), In0(h, 5), R0(e, s), R1(e, s), R2(e, s), R4(e, s)),
           In1(h, 2))
  {
    var s := At(h, 15);
    SignFactor(e, h, top, 2);
    SignFactor(e, h, top, 3);
    SignFactor(e, h, top, 4);
    SignFactor(e, h, top, 5);
    SameInput(e, h, SIGN, top, 2, 3);
    SameInput(e, h, SIGN, top, 2, 4);
    SameInput(e, h, SIGN, top, 2, 5);
    FourFactors(In0(h, 2), In0(h, 3), In0(h, 4), In0(h, 5), R0(e, s), R1(e, s), R2(e, s), R4(e, s), In1(h, 2),
      SignedProduct(h, 2), SignedProduct(h, 3), SignedProduct(h, 4), SignedProduct(h, 5));
  }

  // ---- stages 6 to 8

  lemma Sign6(e: Env, h: History, top: nat)
    requires Recording(e, h, SIGN, top) && 15 <= top
    ensures 6 in h.seen && CheckW(e, At(h, 6), h.seen[6].in0, h.seen[6].in1) == Good(At(h, 7), h.seen[6].output)
  {
    RecordedStage(e, h, SIGN, top, 6);
  }

  lemma Sign7(e: Env, h: History, top: nat)
    requires Recording(e, h, SIGN, top) && 15 <= top
    ensures 7 in h.seen && SendE(e, At(h, 7), h.seen[7].in0) == Good(At(h, 8), h.seen[7].output)
  {
    RecordedStage(e, h, SIGN, top, 7);
  }

  lemma Sign8(e: Env, h: History, top: nat)
    requires Recording(e, h, SIGN, top) && 15 <= top
    ensures 8 in h.seen && SendE1(e, At(h, 8), h.seen[8].in0) == Good(At(h, 9), h.seen[8].output)
  {
    RecordedStage(e, h, SIGN, top, 8);
  }

  lemma SignW(e: Env, h: History, top: nat)
    requires Recording(e, h, SIGN, top) && 15 <= top
    ensures var s := At(h, 15); 6 in h.seen && e.hash(h.seen[6].in0) == s.issuer.gamma && In0(h, 6) > 0
    ensures Cong(Pow(In1(h, 6), Q(At(h, 15))), 1, In0(h, 6)) && Scratch(At(h, 7)) == In1(h, 6)
  {
    Sign6(e, h, top);
    WStage(e, At(h, 6), h.seen[6].in0, h.seen[6].in1);
    SignFixed(e, h, top, 6, 15);
  }

  lemma SignE(e: Env, h: History, top: nat)
    requires Recording(e, h, SIGN, top) && 15 <= top
    ensures var s := At(h, 15); 7 in h.seen && e.hash(h.seen[7].in0) == s.issuer.gamma && Q(s) > 0
    ensures Cong(Out(h, 7), Pow(Scratch(At(h, 7)), Secret(e, At(h, 15))), In0(h, 7))
    ensures Scratch(At(h, 8)) == Scratch(At(h, 7))
  {
    Sign7(e, h, top);
    EStage(e, At(h, 7), h.seen[7].in0);
    SignFixed(e, h, top, 7, 15);
  }

  lemma SignE1(e: Env, h: History, top: nat)
    requires Recording(e, h, SIGN, top) && 15 <= top
    ensures var s := At(h, 15); 8 in h.seen && e.hash(h.seen[8].in0) == s.issuer.gamma
    ensures Cong(Out(h, 8), Pow(Scratch(At(h, 8)), BlindExponent(e, At(h, 15))), In0(h, 8))
  {
    Sign8(e, h, top);
    E1Stage(e, At(h, 8), h.seen[8].in0);
    SignFixed(e, h, top, 8, 15);
  }

  lemma SignOnW(e: Env, h: History, top: nat)
    requires Recording(e, h, SIGN, top) && 15 <= top
    ensures OnW(e, At(h, 15), In1(h, 6), In0(h, 6), Out(h, 7), Out(h, 8))
  {
    SignW(e, h, top);
    SignE(e, h, top);
    SignE1(e, h, top);
    SameInput(e, h, SIGN, top, 6, 7);
    SameInput(e, h, SIGN, top, 6, 8);
  }

  // ---- stages 10 to 15

  lemma Sign10(e: Env, h: History, top: nat)
    requires Recording(e, h, SIGN, top) && 15 <= top
    ensures 10 in h.seen && Out(h, 10) == Challenge(At(h, 15))
  {
    RecordedStage(e, h, SIGN, top, 10);
    SignFixed(e, h, top, 11, 15);
    SelectDigest(e, At(h, 10), h.seen[10].in0, h.seen[10].in1);
  }

  lemma SelectDigest(e: Env, s: Session, in0: seq<byte>, in1: seq<byte>)
    requires SignSelect(e, s, in0, in1).Good?
    ensures SignSelect(e, s, in0, in1).output == SignSelect(e, s, in0, in1).next.context.digest
  {}

  lemma Sign11(e: Env, h: History, top: nat)
    requires Recording(e, h, SIGN, top) && 15 <= top
    ensures 11 in h.seen && SendS0(e, At(h, 11)) == Good(At(h, 12), h.seen[11].output)
  {
    RecordedStage(e, h, SIGN, top, 11);
  }

  lemma Sign12(e: Env, h: History, top: nat)
    requires Recording(e, h, SIGN, top) && 15 <= top
    ensures 12 in h.seen && SendS1(e, At(h, 12)) == Good(At(h, 13), h.seen[12].output)
  {
    RecordedStage(e, h, SIGN, top, 12);
  }

  lemma SignS0S1(e: Env, h: History, top: nat)
    requires Recording(e, h, SIGN, top) && 15 <= top
    ensures var s := At(h, 15);
      Out(h, 11) == Respond(R0(e, s), Challenge(s), F0(e, s)) &&
      Out(h, 12) == Respond(R1(e, s), Challenge(s), F1(e, s))
  {
    Sign11(e, h, top);
    Sign12(e, h, top);
    S0Stage(e, At(h, 11));
    S1Stage(e, At(h, 12));
    SignFixed(e, h, top, 11, 15);
    SignFixed(e, h, top, 12, 15);
  }

  /** The bytes inside the blob given to stage `k`. */
  function Wrapped(e: Env, h: History, k: nat): seq<byte> {
    if k in h.seen then Contents(e.unwrap(h.seen[k].in0)) else []
  }

  lemma PrivateIs(e: Env, in0: seq<byte>, resource: nat, size: nat, digest: seq<byte>)
    requires Private(e, in0, resource, size, digest).Accepted?
    ensures Private(e, in0, resource, size, digest).data == Contents(e.unwrap(in0))
    ensures e.hash(Contents(e.unwrap(in0))) == digest
  {}

  lemma SignS2(e: Env, h: History, top: nat)
    requires Recording(e, h, SIGN, top) && 15 <= top
    ensures var s := At(h, 15);
      13 in h.seen && e.hash(Wrapped(e, h, 13)) == s.tpm.v0 &&
      Out(h, 13) == Low(Respond(R2(e, s), Challenge(s), OfBytes(Wrapped(e, h, 13))), e.z.power1)
  {
    Sign13(e, h, top);
    S2Stage(e, At(h, 13), OfBytes(Wrapped(e, h, 13)));
    SignFixed(e, h, top, 13, 15);
  }

  lemma Sign13(e: Env, h: History, top: nat)
    requires Recording(e, h, SIGN, top) && 15 <= top
    ensures 13 in h.seen && e.hash(Wrapped(e, h, 13)) == At(h, 13).tpm.v0
    ensures SendS2(e, At(h, 13), OfBytes(Wrapped(e, h, 13))) == Good(At(h, 14), h.seen[13].output)
  {
    RecordedStage(e, h, SIGN, top, 13);
    PrivateIs(e, h.seen[13].in0, RT_DAA_V0, e.z.v0, At(h, 13).tpm.v0);
  }

  lemma Sign14(e: Env, h: History, top: nat)
    requires Recording(e, h, SIGN, top) && 15 <= top
    ensures 14 in h.seen && e.hash(Wrapped(e, h, 14)) == At(h, 14).tpm.v0
    ensures KeepS12(e, At(h, 14), OfBytes(Wrapped(e, h, 14)), []) == Good(At(h, 15), h.seen[14].output)
  {
    RecordedStage(e, h, SIGN, top, 14);
    PrivateIs(e, h.seen[14].in0, RT_DAA_V0, e.z.v0, At(h, 14).tpm.v0);
  }

  lemma SignS12(e: Env, h: History, top: nat)
    requires Recording(e, h, SIGN, top) && 15 <= top
    ensures var s := At(h, 15);
      14 in h.seen && e.hash(Wrapped(e, h, 14)) == s.tpm.v0 &&
      Scratch(s) == High(Respond(R2(e, s), Challenge(s), OfBytes(Wrapped(e, h, 14))), e.z.power1)
  {
    Sign14(e, h, top);
    S12Stage(e, At(h, 14), OfBytes(Wrapped(e, h, 14)), []);
    SignFixed(e, h, top, 14, 15);
  }

  lemma SignS3(e: Env, h: History)
    requires Recording(e, h, SIGN, 16)
    ensures var s := At(h, 15);
      15 in h.seen && e.hash(Wrapped(e, h, 15)) == s.tpm.v1 &&
      Out(h, 15) == Respond(R4(e, s), Challenge(s), OfBytes(Wrapped(e, h, 15))) + Scratch(s)
  {
    RecordedStage(e, h, SIGN, 16, 15);
    var s := At(h, 15);
    PrivateIs(e, h.seen[15].in0, RT_DAA_V1, e.z.v1, s.tpm.v1);
    S3Stage(e, s, R4(e, s), OfBytes(Wrapped(e, h, 15)));
  }

  // ---- the equations of a completed Sign

  lemma SameContents(e: Env, h: History, top: nat, j: nat, k: nat)
    requires Recording(e, h, SIGN, top) && j in h.seen && k in h.seen
    requires e.hash(Wrapped(e, h, j)) == e.hash(Wrapped(e, h, k))
    ensures Wrapped(e, h, j) == Wrapped(e, h, k)
  {
    assert Inside(h);
    assert Gathered(e, j, h.seen[j], h.hashed) && Gathered(e, k, h.seen[k], h.hashed);
  }

  /** The private values that Sign took from the blobs of stages 13 and 15. */
  function SignV0(e: Env, h: History): nat {
    OfBytes(Wrapped(e, h, 13))
  }

  function SignV1(e: Env, h: History): nat {
    OfBytes(Wrapped(e, h, 15))
  }

  /** R0^f0 R1^f1 S0^v0 S1^v1. */
  function Credential(e: Env, h: History): int {
    var s := At(h, 15);
    Quad(In0(h, 2), In0(h, 3), In0(h, 4), In0(h, 5), F0(e, s), F1(e, s), SignV0(e, h), SignV1(e, h))
  }

  /** R0^s0 R1^s1 S0^s2 S1^s3 ≡ T V^c modulo n. */
  ghost predicate SignVerifies(h: History, v: int) {
    Cong(Quad(In0(h, 2), In0(h, 3), In0(h, 4), In0(h, 5), Out(h, 11), Out(h, 12), Out(h, 13), Out(h, 15)),
         Out(h, 5) * Pow(v, Out(h, 10)), In1(h, 2))
  }

  ghost predicate SignBasesFit(e: Env, h: History) {
    Cong(In0(h, 5), Pow(In0(h, 4), Two(e.z.power1)), In1(h, 2))
  }

  lemma SignHistoryEquation(e: Env, h: History, v: int)
    requires Recording(e, h, SIGN, 16) && SignBasesFit(e, h) && Cong(v, Credential(e, h), In1(h, 2))
    ensures SignVerifies(h, v)
  {
    var s := At(h, 15);
    SignProducts(e, h, 16);
    SignS0S1(e, h, 16);
    SignS2(e, h, 16);
    SignS12(e, h, 16);
    SignS3(e, h);
    Sign10(e, h, 16);
    SameContents(e, h, 16, 13, 14);
    LowHigh(Respond(R2(e, s), Challenge(s), SignV0(e, h)), e.z.power1);
    RespondIs(R0(e, s), Challenge(s), F0(e, s));
    RespondIs(R1(e, s), Challenge(s), F1(e, s));
    RespondIs(R2(e, s), Challenge(s), SignV0(e, h));
    RespondIs(R4(e, s), Challenge(s), SignV1(e, h));
    Verification(In0(h, 2), In0(h, 3), In0(h, 4), In0(h, 5), In1(h, 2), Two(e.z.power1), Challenge(s),
      R0(e, s), R1(e, s), R2(e, s), R4(e, s), F0(e, s), F1(e, s), SignV0(e, h), SignV1(e, h), Out(h, 5), v,
      Out(h, 11), Out(h, 12), Respond(R2(e, s), Challenge(s), SignV0(e, h)), Out(h, 13), Out(h, 15));
  }

  /** For every run without a hash collision in which a Sign has completed. */
  lemma {:induction false} SignEquation(e: Env, actions: seq<Action>, h: History)
    requires Marshals(e) && h == Run(e, actions).h && Collisionless(e, h.hashed)
    requires h.mode == SIGN && h.top >= 16 && SignBasesFit(e, h)
    ensures SignVerifies(h, Credential(e, h))
  {
    RunRecords(e, actions, h, 16);
    CongRefl(Credential(e, h), In1(h, 2));
    SignHistoryEquation(e, h, Credential(e, h));
  }

  /** w^(s0 + 2^power0 s1) ≡ E1 E^c modulo gamma. */
  ghost predicate SignPseudonymHolds(e: Env, h: History) {
    Cong(Pow(In1(h, 6), Out(h, 11) + Shift(Out(h, 12), e.z.power0)),
         Out(h, 8) * Pow(Out(h, 7), Out(h, 10)), In0(h, 6))
  }

  lemma SignHistoryPseudonym(e: Env, h: History)
    requires Recording(e, h, SIGN, 15)
    ensures SignPseudonymHolds(e, h)
  {
    SignOnW(e, h, 15);
    SignS0S1(e, h, 15);
    Sign10(e, h, 15);
    WEquation(e, At(h, 15), In1(h, 6), In0(h, 6), Out(h, 7), Out(h, 8), Out(h, 11), Out(h, 12));
  }

  /** For every run without a hash collision in which a Sign has passed stage 14. */
  lemma {:induction false} SignPseudonym(e: Env, actions: seq<Action>, h: History)
    requires Marshals(e) && h == Run(e, actions).h && Collisionless(e, h.hashed)
    requires h.mode == SIGN && h.top >= 15
    ensures SignPseudonymHolds(e, h)
  {
    RunRecords(e, actions, h, 15);
    SignHistoryPseudonym(e, h);
  }
}
