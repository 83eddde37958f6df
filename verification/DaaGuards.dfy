/** Which calls of TPM_DAA_Join and TPM_DAA_Sign a session refuses, stage by stage, and which random
    values the responses are blinded with. */
module DaaGuards {
  import opened Bytes
  import opened Rsa
  import opened Daa
  import opened DaaRun
  import opened DaaTheorems

  // ---- the tests that open a stage

  /** The stage is the expected one, the issuer settings and the context are those sealed before. */
  predicate JoinSealed(e: Env, s: Session, k: nat) {
    && s.context.stage == k && (k >= 3 ==> e.hash(e.ofIssuer(s.issuer)) == s.tpm.issuer)
    && e.hash(e.ofSpecific(s.tpm) + e.ofJoin(s.join)) == s.context.context
  }

  predicate SignSealed(e: Env, s: Session, k: nat) {
    && s.context.stage == k
    && (k >= 2 ==>
          e.hash(e.ofIssuer(s.issuer)) == s.tpm.issuer && e.hash(e.ofSpecific(s.tpm)) == s.context.context)
  }

  lemma JoinOpens(e: Env, s: Session, k: nat, in0: seq<byte>, in1: seq<byte>, x: Random)
    requires 1 <= k <= 24
    ensures JoinSealed(e, s, k) ==> JoinStage(e, s, k, in0, in1, x) == JoinBody(e, s, k, in0, in1, x)
    ensures !JoinSealed(e, s, k) ==>
      JoinStage(e, s, k, in0, in1, x) ==
        Bad(if s.context.stage != k then STAGE
            else if k >= 3 && e.hash(e.ofIssuer(s.issuer)) != s.tpm.issuer then ISSUER_SETTINGS else TPM_SETTINGS)
  {}

  lemma SignOpens(e: Env, s: Session, k: nat, in0: seq<byte>, in1: seq<byte>, x: Random)
    requires 1 <= k <= 15
    ensures SignSealed(e, s, k) ==> SignStage(e, s, k, in0, in1, x) == SignBody(e, s, k, in0, in1, x)
    ensures !SignSealed(e, s, k) ==>
      SignStage(e, s, k, in0, in1, x) ==
        Bad(if s.context.stage != k then STAGE
            else if e.hash(e.ofIssuer(s.issuer)) != s.tpm.issuer then ISSUER_SETTINGS else TPM_SETTINGS)
  {}

  /** w^q is 1 modulo gamma. */
  predicate HasOrder(w: seq<byte>, q: seq<byte>, gamma: seq<byte>) {
    OfBytes(gamma) > 0 && PowMod(OfBytes(w), OfBytes(q), OfBytes(gamma)) == 1
  }

  // ---- the tests of the inputs of a Join

  /** The base that a product stage raises. */
  function JoinBase(i: Issuer, k: nat): seq<byte> {
    if k == 4 || k == 9 then i.r0 else if k == 5 || k == 10 then i.r1
    else if k == 6 || k == 11 then i.s0 else i.s1
  }

  /** The first input is unacceptable. */
  predicate JoinWrong0(e: Env, s: Session, k: nat, in0: seq<byte>) {
    || (k == 1 && |in0| != e.z.modulus)
    || (k == 2 && (|in0| != 148 || OfBytes(in0[0..2]) != 0x2F))
    || (k == 3 && |in0| != 4)
    || (k in {4, 5, 6, 7, 9, 10, 11, 12} && e.hash(in0) != JoinBase(s.issuer, k))
    || (k == 8 && |in0| != e.z.ne)
    || (k in {13, 14, 15} && e.hash(in0) != s.issuer.gamma)
    || (k == 16 && |in0| != 20)
    || (k == 22 && |in0| != e.z.v0)
    || (k == 23 && |in0| != e.z.v1)
  }

  /** The second input is unacceptable. */
  predicate JoinWrong1(e: Env, s: Session, k: nat, in1: seq<byte>) {
    || (k == 1 && s.context.scratch != Zeros(e.z.scratch) && |in1| != e.z.modulus)
    || (k == 2 && |in1| != e.z.modulus)
    || (k in {4, 5, 6, 7, 9, 10, 11, 12} && e.hash(in1) != s.issuer.n)
    || (k == 13 && |in1| != e.z.w)
  }

  /** The issuer did not sign the key, or the settings. */
  predicate JoinUnsigned(e: Env, s: Session, k: nat, in0: seq<byte>, in1: seq<byte>) {
    || (k == 1 && s.context.scratch != Zeros(e.z.scratch) && !e.signed(s.context.scratch, in0, in1))
    || (k == 2 && !e.signed(s.context.scratch, s.join.n0 + in0, in1))
  }

  /** What a Join stage objects to in its inputs; past these tests only the decryption, the test of w
      and undefined arithmetic are left. */
  ghost predicate JoinJudges(e: Env, s: Session, k: nat, in0: seq<byte>, in1: seq<byte>, r: Effect) {
    var wrong := JoinWrong0(e, s, k, in0) || JoinWrong1(e, s, k, in1);
    && (r == Bad(INPUT_DATA0) <==> JoinWrong0(e, s, k, in0))
    && (r == Bad(INPUT_DATA1) <==> !JoinWrong0(e, s, k, in0) && JoinWrong1(e, s, k, in1))
    && (r == Bad(ISSUER_VALIDITY) <==> !wrong && JoinUnsigned(e, s, k, in0, in1))
    && (r == Bad(DECRYPT_ERROR) <==> k == 8 && !wrong && !e.decrypted(in0).Opened?)
    && (r == Bad(WRONG_W) ==> k == 13 && !wrong && !HasOrder(in1, s.issuer.q, in0))
    && (k == 13 && r.Good? ==> HasOrder(in1, s.issuer.q, in0))
    && (r.Good? || r.code in {INPUT_DATA0, INPUT_DATA1, ISSUER_VALIDITY, DECRYPT_ERROR, WRONG_W, UNDEFINED})
    && (k in {1, 2, 3, 8, 16, 24} ==> r != Bad(UNDEFINED))
  }

  lemma JoinRefuses(e: Env, s: Session, k: nat, in0: seq<byte>, in1: seq<byte>, x: Random)
    requires 1 <= k <= 24
    ensures JoinJudges(e, s, k, in0, in1, JoinBody(e, s, k, in0, in1, x))
  {
    if k <= 3 {
      JoinRefusesEarly(e, s, k, in0, in1, x);
    } else if k <= 12 {
      JoinRefusesProduct(e, s, k, in0, in1, x);
    } else {
      JoinRefusesLate(e, s, k, in0, in1, x);
    }
  }

  lemma JoinRefusesEarly(e: Env, s: Session, k: nat, in0: seq<byte>, in1: seq<byte>, x: Random)
    requires 1 <= k <= 3
    ensures JoinJudges(e, s, k, in0, in1, JoinBody(e, s, k, in0, in1, x))
  {}

  lemma JoinRefusesProduct(e: Env, s: Session, k: nat, in0: seq<byte>, in1: seq<byte>, x: Random)
    requires 4 <= k <= 12
    ensures JoinJudges(e, s, k, in0, in1, JoinBody(e, s, k, in0, in1, x))
  {}

  lemma JoinRefusesLate(e: Env, s: Session, k: nat, in0: seq<byte>, in1: seq<byte>, x: Random)
    requires 13 <= k <= 24
    ensures JoinJudges(e, s, k, in0, in1, JoinBody(e, s, k, in0, in1, x))
  {}

  /** Over every run: each recorded stage of a Join passed every test. */
  lemma {:induction false} JoinChecked(e: Env, actions: seq<Action>, h: History, k: nat)
    requires Marshals(e) && h == Run(e, actions).h && Collisionless(e, h.hashed)
    requires h.mode == JOIN && 2 <= k < h.top
    ensures k in h.seen && k <= 24
    ensures var n := h.seen[k];
      && JoinSealed(e, n.before, k) && !JoinWrong0(e, n.before, k, n.in0) && !JoinWrong1(e, n.before, k, n.in1)
      && !JoinUnsigned(e, n.before, k, n.in0, n.in1) && (k == 8 ==> e.decrypted(n.in0).Opened?)
      && (k == 13 ==> HasOrder(n.in1, n.before.issuer.q, n.in0))
  {
    RunRecords(e, actions, h, k + 1);
    RecordedStage(e, h, JOIN, k + 1, k);
    var n := h.seen[k];
    JoinPassed(e, n.before, k, n.in0, n.in1, n.random);
  }

  lemma JoinPassed(e: Env, s: Session, k: nat, in0: seq<byte>, in1: seq<byte>, x: Random)
    requires 1 <= k <= 24 && JoinStage(e, s, k, in0, in1, x).Good?
    ensures JoinSealed(e, s, k) && !JoinWrong0(e, s, k, in0) && !JoinWrong1(e, s, k, in1)
    ensures !JoinUnsigned(e, s, k, in0, in1) && (k == 8 ==> e.decrypted(in0).Opened?)
    ensures k == 13 ==> HasOrder(in1, s.issuer.q, in0)
  {
    JoinOpens(e, s, k, in0, in1, x);
    JoinRefuses(e, s, k, in0, in1, x);
  }

  /** Stage 0: a count of four bytes that is not zero. */
  lemma JoinOpenTakes(e: Env, handle: nat, in0: seq<byte>)
    ensures var r := JoinOpen(e, handle, in0);
      && (r.Good? <==> |in0| == 4 && OfBytes(in0) != 0) && (r.Bad? ==> r.code == INPUT_DATA0)
      && (r.Good? ==>
            var s := r.next;
            && s.kind == 8 && s.handle == handle && s.tpm.count == OfBytes(in0) && s.context.stage == 1
            && s.context.scratch == Zeros(e.z.scratch) && s.tpm.tag == 0x32 && s.issuer.tag == 0x2F
            && s.context.tag == 0x2D
            && s.context.context == e.hash(e.ofSpecific(s.tpm) + e.ofJoin(s.join))
            && r.output == Be(handle, 4))
  {}

  // ---- the tests of the inputs of a Sign

  predicate BlobFails(e: Env, in0: seq<byte>, resource: nat) {
    match e.unwrap(in0)
    case Opened(rt, tag, _) => rt != resource || tag != 0x31
    case b => !b.BadDecryption?
  }

  /** The private value in the blob has the wrong size or is not the one that the settings record. */
  predicate PrivateFails(e: Env, in0: seq<byte>, size: nat, digest: seq<byte>) {
    e.unwrap(in0).Opened? &&
    (|e.unwrap(in0).data| == 0 || |e.unwrap(in0).data| > size || e.hash(e.unwrap(in0).data) != digest)
  }

  function SignedBase(i: Issuer, k: nat): seq<byte> {
    if k == 2 then i.r0 else if k == 3 then i.r1 else if k == 4 then i.s0 else i.s1
  }

  predicate SignWrong0(e: Env, s: Session, k: nat, in0: seq<byte>) {
    || (k == 1 && (BlobFails(e, in0, 8) || (e.unwrap(in0).Opened? && |e.unwrap(in0).data| != 88)))
    || (k in {2, 3, 4, 5} && e.hash(in0) != SignedBase(s.issuer, k))
    || (k in {6, 7, 8} && e.hash(in0) != s.issuer.gamma)
    || (k == 9 && |in0| != 20)
    || (k == 10 && in0 != [0] && in0 != [1])
    || (k in {13, 14} && (BlobFails(e, in0, 9) || PrivateFails(e, in0, e.z.v0, s.tpm.v0)))
    || (k == 15 && (BlobFails(e, in0, 10) || PrivateFails(e, in0, e.z.v1, s.tpm.v1)))
  }

  predicate SignWrong1(e: Env, s: Session, k: nat, in0: seq<byte>, in1: seq<byte>) {
    || (k in {2, 3, 4, 5} && e.hash(in1) != s.issuer.n)
    || (k == 6 && |in1| != e.z.w)
    || (k == 10 && in0 == [1] && |in1| != 20)
    || (k == 10 && in0 == [0] && !e.identity(in1).Opened?)
  }

  ghost predicate SignJudges(e: Env, s: Session, k: nat, in0: seq<byte>, in1: seq<byte>, r: Effect) {
    var wrong := SignWrong0(e, s, k, in0) || SignWrong1(e, s, k, in0, in1);
    var garbled := k in {1, 13, 14, 15} && e.unwrap(in0).BadDecryption?;
    && (r == Bad(INPUT_DATA0) <==> SignWrong0(e, s, k, in0))
    && (r == Bad(INPUT_DATA1) <==> !SignWrong0(e, s, k, in0) && SignWrong1(e, s, k, in0, in1))
    && (r == Bad(DECRYPT_ERROR) <==> garbled)
    && (r == Bad(ISSUER_SETTINGS) <==>
          && k == 1 && !wrong && !garbled
          && e.hash(e.ofIssuer(s.issuer)) != SpecificOf(e.unwrap(in0).data).issuer)
    && (r == Bad(WRONG_W) ==> k == 6 && !wrong && !HasOrder(in1, s.issuer.q, in0))
    && (k == 6 && r.Good? ==> HasOrder(in1, s.issuer.q, in0))
    && (r.Good? || r.code in {INPUT_DATA0, INPUT_DATA1, DECRYPT_ERROR, ISSUER_SETTINGS, WRONG_W, UNDEFINED})
    && (k in {1, 9, 10} ==> r != Bad(UNDEFINED))
  }

  lemma SignRefuses(e: Env, s: Session, k: nat, in0: seq<byte>, in1: seq<byte>, x: Random)
    requires 1 <= k <= 15
    ensures SignJudges(e, s, k, in0, in1, SignBody(e, s, k, in0, in1, x))
  {
    if k <= 8 {
      SignRefusesEarly(e, s, k, in0, in1, x);
    } else if k <= 12 {
      SignRefusesLate(e, s, k, in0, in1, x);
    } else {
      SignRefusesPrivate(e, s, k, in0, in1, x);
    }
  }

  lemma SignRefusesEarly(e: Env, s: Session, k: nat, in0: seq<byte>, in1: seq<byte>, x: Random)
    requires 1 <= k <= 8
    ensures SignJudges(e, s, k, in0, in1, SignBody(e, s, k, in0, in1, x))
  {}

  lemma SignRefusesLate(e: Env, s: Session, k: nat, in0: seq<byte>, in1: seq<byte>, x: Random)
    requires 9 <= k <= 12
    ensures SignJudges(e, s, k, in0, in1, SignBody(e, s, k, in0, in1, x))
  {}

  lemma SignRefusesPrivate(e: Env, s: Session, k: nat, in0: seq<byte>, in1: seq<byte>, x: Random)
    requires 13 <= k <= 15
    ensures SignJudges(e, s, k, in0, in1, SignBody(e, s, k, in0, in1, x))
  {}

  /** Over every run: each recorded stage of a Sign passed every test. */
  lemma {:induction false} SignChecked(e: Env, actions: seq<Action>, h: History, k: nat)
    requires Marshals(e) && h == Run(e, actions).h && Collisionless(e, h.hashed)
    requires h.mode == SIGN && 1 <= k < h.top
    ensures k in h.seen && k <= 15
    ensures var n := h.seen[k];
      && SignSealed(e, n.before, k) && !SignWrong0(e, n.before, k, n.in0) && !SignWrong1(e, n.before, k, n.in0, n.in1)
      && (k in {1, 13, 14, 15} ==> e.unwrap(n.in0).Opened?) && (k == 6 ==> HasOrder(n.in1, n.before.issuer.q, n.in0))
  {
    RunRecords(e, actions, h, k + 1);
    RecordedStage(e, h, SIGN, k + 1, k);
    var n := h.seen[k];
    SignPassed(e, n.before, k, n.in0, n.in1, n.random);
  }

  lemma SignPassed(e: Env, s: Session, k: nat, in0: seq<byte>, in1: seq<byte>, x: Random)
    requires 1 <= k <= 15 && SignStage(e, s, k, in0, in1, x).Good?
    ensures SignSealed(e, s, k) && !SignWrong0(e, s, k, in0) && !SignWrong1(e, s, k, in0, in1)
    ensures k in {1, 13, 14, 15} ==> e.unwrap(in0).Opened?
    ensures k == 6 ==> HasOrder(in1, s.issuer.q, in0)
  {
    SignOpens(e, s, k, in0, in1, x);
    SignRefuses(e, s, k, in0, in1, x);
  }

  /** Stage 0 and stage 1: the settings of the host and of the blob. */
  lemma SignOpenTakes(e: Env, s: Session, handle: nat, in0: seq<byte>)
    ensures var r := SignOpen(e, s, handle, in0);
      && (r.Good? <==> |in0| == 148 && OfBytes(in0[0..2]) == 0x2F) && (r.Bad? ==> r.code == INPUT_DATA0)
      && (r.Good? ==>
            var i := r.next.issuer;
            && i.r0 == in0[2..22] && i.r1 == in0[22..42] && i.s0 == in0[42..62] && i.s1 == in0[62..82]
            && i.n == in0[82..102] && i.gamma == in0[102..122] && i.q == in0[122..148]
            && r.next.kind == 8 && r.next.handle == handle && r.next.context.stage == 1 && r.output == Be(handle, 4)
            && r.next.context.tag == 0 && r.next.context.context == Zeros(20) && r.next.tpm == s.tpm)
  {}

  lemma SignBlobTakes(e: Env, s: Session, in0: seq<byte>, x: Random)
    requires SignBlob(e, s, in0, x).Good?
    ensures var b, now := e.unwrap(in0), SignBlob(e, s, in0, x).next;
      && b.Opened? && |b.data| == 88 && now.context.seed == x.first && now.context.stage == 2
      && now.tpm.issuer == b.data[2..22] && now.tpm.v0 == b.data[22..42] && now.tpm.v1 == b.data[42..62]
      && now.tpm.rekey == b.data[62..82] && now.tpm.count == OfBytes(b.data[82..86]) && now.issuer == s.issuer
      && e.hash(e.ofIssuer(s.issuer)) == b.data[2..22]
      && now.context.context == e.hash(e.ofSpecific(now.tpm))
  {}

  // ---- finding the session

  /** A call finds the session under its own handle or the current one, a call of stage 0 a free
      slot; all others are refused and change nothing. */
  lemma CallsReach(e: Env, st: State, c: Call)
    requires c.Stage?
    ensures var s := st.session;
      var found := s.kind == 8 && s.handle % 0x100_0000 == 0 && (s.handle == c.handle || s.handle == st.current);
      var stages := if c.command == JOIN then 24 else 15;
      && (Reaches(st, c) <==> c.authorized && c.stage <= stages && (if c.stage == 0 then s.kind == 0 else found))
      && (!Reaches(st, c) ==>
            Step(e, st, c) == (st, Failed(if !c.authorized then AUTHFAIL else if c.stage == 0 then RESOURCES
                                          else if !found then BAD_HANDLE else STAGE)))
  {}

  /** A call that reaches a slot: success moves the session on, stage 0 makes it the current one, and
      failure wipes it. */
  lemma CallsMove(e: Env, st: State, c: Call)
    requires Reaches(st, c)
    ensures var (now, r) := Step(e, st, c); var f := Effects(e, st, c);
      && (f.Good? ==>
            && r == Done(f.output) && now.session == f.next
            && now.current == if c.stage == 0 then 0x0800_0000 else st.current)
      && (f.Bad? ==> r == Failed(f.code) && now.session == Blank(e) && now.current == st.current)
  {}

  lemma FlushWipes(e: Env, st: State, handle: nat)
    ensures var (now, r) := Step(e, st, Call.Flush(handle)); var live := handle == 0x0800_0000 && st.session.kind == 8;
      && (live ==> now == State(Blank(e), if handle == st.current then 0 else st.current)) && (!live ==> now == st)
  {}

  /** A wiped session has no kind, no stage and nothing but zero bytes. */
  lemma BlankIsZero(e: Env, i: nat)
    ensures var s := Blank(e);
      && s.kind == 0 && s.handle == 0 && s.context.stage == 0 && s.tpm.count == 0 && s.issuer.tag == 0
      && s.tpm.tag == 0 && s.context.tag == 0
      && (i < 20 ==> s.tpm.rekey[i] == 0 && s.tpm.v0[i] == 0 && s.tpm.v1[i] == 0 && s.context.seed[i] == 0)
      && (i < 20 ==> s.context.digest[i] == 0 && s.join.n0[i] == 0)
      && (i < e.z.scratch ==> |s.context.scratch| == e.z.scratch && s.context.scratch[i] == 0)
      && (i < 128 ==> s.join.u0[i] == 0) && (i < 138 ==> s.join.u1[i] == 0)
  {}

  // ---- marshalled settings

  /** Where the fields of the settings and of the Join data are among the hashed bytes. */
  lemma SettingsOffsets(t: Specific, j: JoinData)
    requires |t.issuer| == |t.v0| == |t.v1| == |t.rekey| == |j.n0| == 20 && |j.u0| == 128 && |j.u1| == 138
    ensures var b := SpecificBytes(t);
      && |b| == 88 && b[0..2] == Be(t.tag, 2) && b[2..22] == t.issuer && b[22..42] == t.v0 && b[42..62] == t.v1
      && b[62..82] == t.rekey && b[82..86] == Be(t.count, 4)
    ensures var b := JoinBytes(j); |b| == 286 && b[0..128] == j.u0 && b[128..266] == j.u1 && b[266..286] == j.n0
  {}

  // ---- the numbers of a stage

  /** Where the numbers are read from: the shares u0 and u1, the challenge, and the register. */
  lemma Numbers(e: Env, s: Session, in0: seq<byte>)
    ensures U0(s) == OfBytes(s.join.u0) && U1(s) == OfBytes(s.join.u1) && Challenge(s) == OfBytes(s.context.digest)
    ensures Scratch(s) == OfLe(s.context.scratch) && Q(s) == OfBytes(s.issuer.q)
    ensures V0(e, s, in0) == Low(OfBytes(in0) + OfBytes(s.join.u0), e.z.power1)
    ensures V1(s, in0) == OfBytes(in0) + OfBytes(s.join.u1) + OfLe(s.context.scratch)
    ensures F0(e, s) == Low(Secret(e, s), e.z.power0) && F1(e, s) == High(Secret(e, s), e.z.power0)
  {}

  /** Stage 9 draws the seed of the blinding values. */
  lemma SeedDrawn(e: Env, s: Session, in0: seq<byte>, in1: seq<byte>, x: Random)
    ensures var f := JoinProduct(e, s, 9, in0, in1, x); f.Good? ==> f.next.context.seed == x.first
  {}

  /** Stages 22 to 24 return blobs of kinds 9, 10 and 8 under fresh bytes. */
  lemma BlobsReturned(e: Env, s: Session, in0: seq<byte>, in1: seq<byte>, x: Random)
    ensures JoinV0(e, s, in0, x).Good? ==> JoinV0(e, s, in0, x).output == e.wrap(9, ToBytes(V0(e, s, in0)), x.first)
    ensures JoinV1(e, s, in0, x).Good? ==> JoinV1(e, s, in0, x).output == e.wrap(10, ToBytes(V1(s, in0)), x.first)
    ensures JoinBody(e, s, 24, in0, in1, x) == Good(Blank(e), e.wrap(8, e.ofSpecific(s.tpm), x.first))
  {}

  // ---- where the source has no meaning

  /** A product stage is defined for every modulus that is not zero and no longer than the register. */
  lemma ProductDefined(e: Env, s: Session, base: seq<byte>, in0: seq<byte>, in1: seq<byte>, y: nat, z: nat,
                       defined: bool)
    requires e.hash(in0) == base && e.hash(in1) == s.issuer.n && defined
    ensures OfBytes(in1) > 0 && |in1| <= e.z.scratch ==> Power(e, s, base, in0, in1, y, z, defined).Value?
    ensures OfBytes(in1) == 0 ==> Power(e, s, base, in0, in1, y, z, defined) == Wrong(UNDEFINED)
  {
    if OfBytes(in1) > 0 && |in1| <= e.z.scratch {
      var v := PowMod(OfBytes(in0), y, OfBytes(in1)) * z % OfBytes(in1);
      SmallerFits(e, v, in1);
    }
  }

  lemma SmallerFits(e: Env, v: nat, b: seq<byte>)
    requires v < OfBytes(b) && |b| <= e.z.scratch
    ensures Fits(e, v)
  {
    FixedOfBytes(b);
    ToBytesLength(OfBytes(b), e.z.scratch);
    ToBytesLength(v, e.z.scratch);
  }

  lemma PowerOfWDefined(e: Env, s: Session, in0: seq<byte>, y: nat)
    requires e.hash(in0) == s.issuer.gamma
    ensures OfBytes(in0) > 0 && OfBytes(s.issuer.q) > 0 && |in0| <= e.z.scratch ==> PowerOfW(e, s, in0, y).Value?
    ensures OfBytes(in0) == 0 || OfBytes(s.issuer.q) == 0 ==> PowerOfW(e, s, in0, y) == Wrong(UNDEFINED)
  {
    if OfBytes(in0) > 0 && OfBytes(s.issuer.q) > 0 && |in0| <= e.z.scratch {
      SmallerFits(e, PowMod(Scratch(s), y, OfBytes(in0)), in0);
    }
  }

  /** Numbers are returned and kept exactly if they fit the register. */
  lemma NumbersDefined(e: Env, s: Session, in0: seq<byte>, x: Random, v: nat)
    ensures Deliver(e, s, v) == Bad(UNDEFINED) <==> |ToBytes(v)| > e.z.scratch
    ensures |in0| == e.z.v1 ==> (JoinV1(e, s, in0, x) == Bad(UNDEFINED) <==> |ToBytes(V1(s, in0))| > e.z.scratch)
    ensures |in0| == e.z.v0 ==>
      (JoinV0(e, s, in0, x) == Bad(UNDEFINED) <==>
        || |ToBytes(V0(e, s, in0))| > e.z.scratch
        || |ToBytes(High(OfBytes(in0) + U0(s), e.z.power1))| > e.z.scratch)
    ensures OfBytes(s.issuer.q) == 0 ==> SendS0(e, s) == SendS1(e, s) == Bad(UNDEFINED)
  {}

  // ---- blinding

  /** Each blinding value is drawn from the seed under its own label, "r0" to "r4", and size. */
  lemma Labels(e: Env, s: Session)
    ensures R0(e, s) == OfBytes(e.mask([0x72, 0x30] + s.context.seed, e.z.r0))
    ensures R1(e, s) == OfBytes(e.mask([0x72, 0x31] + s.context.seed, e.z.r1))
    ensures R2(e, s) == OfBytes(e.mask([0x72, 0x32] + s.context.seed, e.z.r2))
    ensures R3(e, s) == OfBytes(e.mask([0x72, 0x33] + s.context.seed, e.z.r3))
    ensures R4(e, s) == OfBytes(e.mask([0x72, 0x34] + s.context.seed, e.z.r4))
  {}
}
