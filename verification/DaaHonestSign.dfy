/** An honest host that has completed a Join completes a Sign on the blobs of that Join. */
module DaaHonestSign {
  import opened NumberTheory
  import opened Bytes
  import opened Daa
  import opened DaaRun
  import opened DaaTheorems
  import DaaSign
  import opened DaaJoinSign
  import opened DaaHonest

  function SignBase(i: Issuer, k: nat): seq<byte> {
    if k == 2 then i.r0 else if k == 3 then i.r1 else if k == 4 then i.s0 else i.s1
  }

  /** The numbers that Sign takes are those of the issuer. */
  ghost predicate SignNumbers(e: Env, h: Host)
    requires Settled(h)
  {
    var i := TheIssuer(h);
    && (forall k: nat :: 2 <= k <= 5 ==> BaseFits(e, i, SignBase(i, k), h.sign0(k), h.sign1(k)))
    && Witness(e, i, h.sign0(6), h.sign1(6)) && Gamma(e, i, h.sign0(7)) && Gamma(e, i, h.sign0(8))
    && |h.sign0(9)| == DIGEST && h.sign0(10) == [1] && |h.sign1(10)| == DIGEST
  }

  /** The private values are not zero and fit their fields. */
  predicate Continuable(e: Env, h: Host) {
    0 < V0Of(e, h) < Pow(256, e.z.v0) && 0 < V1Of(e, h) < Pow(256, e.z.v1)
  }

  /** The host sends the settings and the blobs of its Join. */
  predicate SendsBlobs(e: Env, h: Host)
    requires Settled(h)
  {
    && h.sign0(0) == h.in0(2) && h.sign0(1) == Blobs(e, h, 24) && h.sign0(13) == Blobs(e, h, 22)
    && h.sign0(14) == Blobs(e, h, 22) && h.sign0(15) == Blobs(e, h, 23)
  }

  ghost predicate HonestSign(e: Env, h: Host) {
    Settled(h) && TheIssuer(h).tag == TAG_ISSUER && OfBytes(TheIssuer(h).q) > 0 && SignNumbers(e, h)
    && Continuable(e, h) && SendsBlobs(e, h) && |h.in0(3)| == 4
  }

  /** The blobs can be opened and fit. */
  ghost predicate Openable(e: Env) {
    Marshals(e) && Unwraps(e) && e.z.scratch <= 0xffff_0000
  }

  function SignCall(h: Host, k: nat): Call {
    Stage(SIGN, true, HANDLE, k, h.sign0(k), h.sign1(k), h.drawn(k))
  }

  /** The settings that the Join left. */
  function Final(e: Env, h: Host): Specific
    requires Settled(h)
  {
    TpmAt(e, h, 24)
  }

  ghost predicate SignReady(e: Env, h: Host, s: Session, k: nat)
    requires Settled(h)
  {
    && s.kind == ST_DAA && s.handle == HANDLE && s.context.stage == k && s.issuer == TheIssuer(h)
    && s.join == NoJoin() && |s.context.digest| == DIGEST
    && (if k == 1 then s.tpm == NoSpecific(0) else s.tpm == Final(e, h) && SignMatches(e, s))
    && (k == 15 ==> Scratch(s) < 2 * Unit(e))
  }

  function SignDoes(e: Env, h: Host, s: Session, k: nat): Effect
    requires 1 <= k <= 15
  {
    SignBody(e, s, k, h.sign0(k), h.sign1(k), h.drawn(k))
  }

  lemma FinalFormed(e: Env, h: Host)
    requires Settled(h) && Hashes(e) && |h.in0(3)| == 4
    ensures FormedSpecific(Final(e, h))
  {
    NumberBound(h.in0(3));
  }

  lemma BlobOpens(e: Env, resource: nat, data: seq<byte>, iv: seq<byte>)
    requires Unwraps(e) && resource <= RT_DAA_V1 && |data| <= 0xffff_0000
    ensures Unwrap(e, e.wrap(resource, data, iv), resource) == Accepted(data)
  {}

  lemma BlobReady(e: Env, h: Host, s: Session)
    requires Openable(e) && Roomy(e) && HonestSign(e, h) && SignReady(e, h, s, 1)
    ensures SignDoes(e, h, s, 1).Good? && SignReady(e, h, SignDoes(e, h, s, 1).next, 2)
  {
    var t := Final(e, h);
    FinalFormed(e, h);
    SpecificRoundTrip(t);
    assert Bytewise(t);
    BlobOpens(e, RT_DAA_TPM, e.ofSpecific(t), h.random(24).first);
    var u := s.(tpm := t);
    assert IssuerMatches(e, u);
    assert SignBlob(e, s, h.sign0(1), h.drawn(1)).Good?;
  }

  lemma SignProductGood(e: Env, s: Session, k: nat, in0: seq<byte>, in1: seq<byte>)
    requires 2 <= k <= 5 && BaseFits(e, s.issuer, SignBase(s.issuer, k), in0, in1)
    ensures SignProduct(e, s, k, in0, in1).Good?
  {
    var i := s.issuer;
    forall y: nat, z: nat ensures Power(e, s, SignBase(i, k), in0, in1, y, z, true).Value? {
      PowerGood(e, s, SignBase(i, k), in0, in1, y, z);
    }
  }

  lemma SignWitnessesGood(e: Env, h: Host, s: Session, k: nat)
    requires Roomy(e) && Settled(h) && SignNumbers(e, h) && OfBytes(TheIssuer(h).q) > 0
    requires 6 <= k <= 12 && s.issuer == TheIssuer(h) && |s.context.digest| == DIGEST
    ensures SignDoes(e, h, s, k).Good?
  {
    if k == 6 {
      WitnessGood(e, s, h.sign0(6), h.sign1(6));
    } else if k == 7 {
      PowerOfWGood(e, s, h.sign0(7), Secret(e, s));
    } else if k == 8 {
      PowerOfWGood(e, s, h.sign0(8), BlindExponent(e, s));
    } else if 11 <= k {
      FirstAnswersGood(e, s);
    }
  }

  /** The private value comes out of its blob. */
  lemma PrivateOpens(e: Env, resource: nat, size: nat, v: nat, iv: seq<byte>)
    requires Openable(e) && resource <= RT_DAA_V1 && 0 < v < Pow(256, size) && size <= 0xffff_0000
    ensures Private(e, e.wrap(resource, ToBytes(v), iv), resource, size, e.hash(ToBytes(v))) == Accepted(ToBytes(v))
    ensures OfBytes(ToBytes(v)) == v
  {
    ToBytesLength(v, size);
    ToBytesLength(v, 0);
    OfToBytes(v);
    BlobOpens(e, resource, ToBytes(v), iv);
  }

  lemma V0AnswersGood(e: Env, s: Session, k: nat, in0: seq<byte>, v: nat)
    requires Roomy(e) && 13 <= k <= 14 && |s.context.digest| == DIGEST && v < Pow(256, e.z.v0)
    requires Private(e, in0, RT_DAA_V0, e.z.v0, s.tpm.v0) == Accepted(ToBytes(v)) && OfBytes(ToBytes(v)) == v
    ensures SignPrivate(e, s, k, in0).Good?
    ensures k == 14 ==> Scratch(SignPrivate(e, s, k, in0).next) < 2 * Unit(e)
  {
    SplitAnswersGood(e, s, v, e.z.v0, []);
  }

  lemma SignAnswersGood(e: Env, h: Host, s: Session, k: nat)
    requires Openable(e) && Roomy(e) && Settled(h) && Continuable(e, h) && h.sign0(k) == Blobs(e, h, 22)
    requires 13 <= k <= 14 && s.tpm == Final(e, h) && |s.context.digest| == DIGEST
    ensures SignPrivate(e, s, k, h.sign0(k)).Good?
    ensures k == 14 ==> Scratch(SignPrivate(e, s, k, h.sign0(k)).next) < 2 * Unit(e)
  {
    PrivateOpens(e, RT_DAA_V0, e.z.v0, V0Of(e, h), h.random(22).first);
    V0AnswersGood(e, s, k, h.sign0(k), V0Of(e, h));
  }

  lemma SignLastGood(e: Env, h: Host, s: Session)
    requires Openable(e) && Roomy(e) && Settled(h) && Continuable(e, h) && h.sign0(15) == Blobs(e, h, 23)
    requires SignReady(e, h, s, 15)
    ensures SignPrivate(e, s, 15, h.sign0(15)).Good? && SignPrivate(e, s, 15, h.sign0(15)).next == Blank(e)
  {
    PrivateOpens(e, RT_DAA_V1, e.z.v1, V1Of(e, h), h.random(23).first);
    LastAnswerGood(e, s, 0x34, e.z.r4, V1Of(e, h), e.z.v1);
  }

  lemma SignDoesIs(e: Env, h: Host, s: Session, k: nat)
    ensures 2 <= k <= 5 ==> SignDoes(e, h, s, k) == SignProduct(e, s, k, h.sign0(k), h.sign1(k))
    ensures 13 <= k <= 15 ==> SignDoes(e, h, s, k) == SignPrivate(e, s, k, h.sign0(k))
  {}

  lemma SignEarlyGood(e: Env, h: Host, s: Session, k: nat)
    requires Roomy(e) && Settled(h) && SignNumbers(e, h) && OfBytes(TheIssuer(h).q) > 0
    requires 2 <= k <= 12 && s.issuer == TheIssuer(h) && |s.context.digest| == DIGEST
    ensures SignDoes(e, h, s, k).Good?
  {
    if k <= 5 {
      SignDoesIs(e, h, s, k);
      SignProductGood(e, s, k, h.sign0(k), h.sign1(k));
    } else {
      SignWitnessesGood(e, h, s, k);
    }
  }

  lemma SignDigestSized(e: Env, h: Host, s: Session, k: nat)
    requires Hashes(e) && 2 <= k <= 14 && SignDoes(e, h, s, k).Good? && |s.context.digest| == DIGEST
    ensures |SignDoes(e, h, s, k).next.context.digest| == DIGEST
  {}

  lemma SignGood(e: Env, h: Host, s: Session, k: nat)
    requires Openable(e) && Roomy(e) && HonestSign(e, h) && 13 <= k <= 14 && SignReady(e, h, s, k)
    ensures SignDoes(e, h, s, k).Good? && (k == 14 ==> Scratch(SignDoes(e, h, s, k).next) < 2 * Unit(e))
  {
    SignDoesIs(e, h, s, k);
    SignAnswersGood(e, h, s, k);
  }

  lemma SignMiddleReady(e: Env, h: Host, s: Session, k: nat)
    requires Openable(e) && Roomy(e) && HonestSign(e, h) && 2 <= k <= 14 && SignReady(e, h, s, k)
    ensures SignDoes(e, h, s, k).Good? && SignReady(e, h, SignDoes(e, h, s, k).next, k + 1)
  {
    if k <= 12 { SignEarlyGood(e, h, s, k); } else { SignGood(e, h, s, k); }
    SignDigestSized(e, h, s, k);
    SignMiddle(e, s, k, h.sign0(k), h.sign1(k), h.drawn(k));
  }

  /** One call of the host moves the session on. */
  lemma SignGoes(e: Env, h: Host, s: Session, k: nat)
    requires Openable(e) && Roomy(e) && HonestSign(e, h) && 1 <= k <= 15 && SignReady(e, h, s, k)
    ensures var r := SignStage(e, s, k, h.sign0(k), h.sign1(k), h.drawn(k));
      r.Good? && (k < 15 ==> SignReady(e, h, r.next, k + 1)) && (k == 15 ==> r.next == Blank(e))
  {
    if k == 1 {
      BlobReady(e, h, s);
    } else if k < 15 {
      SignMiddleReady(e, h, s, k);
    } else {
      SignDoesIs(e, h, s, 15);
      SignLastGood(e, h, s);
    }
  }

  // ---- the run of a Sign

  /** What the Sign hashes at stage `k`. */
  function SignHashedAt(e: Env, h: Host, k: nat): set<seq<byte>>
    requires Settled(h)
  {
    Sent(e, h.sign0(k), h.sign1(k)) + SignSealed(e, h, k)
  }

  function SignSealed(e: Env, h: Host, k: nat): set<seq<byte>>
    requires Settled(h)
  {
    Sealed(e, if k <= 1 then NoSpecific(0) else Final(e, h), NoJoin(), if k == 0 then NoIssuer(0) else TheIssuer(h))
  }

  function SignParts(e: Env, h: Host): nat -> set<seq<byte>>
    requires Settled(h)
  {
    (k: nat) => SignHashedAt(e, h, k)
  }

  /** What was hashed before, and everything that the Sign hashes before stage `k`. */
  ghost function SignStrings(e: Env, h: Host, joined: set<seq<byte>>, k: nat): set<seq<byte>>
    requires Settled(h)
  {
    Upto(joined, SignParts(e, h), k)
  }

  predicate SignSeen(h: Host, seen: map<nat, Entry>, k: nat) {
    forall j: nat :: 1 <= j < k ==> j in seen && seen[j].in0 == h.sign0(j)
  }

  ghost predicate SignRecorded(e: Env, h: Host, joined: set<seq<byte>>, r: History, k: nat)
    requires Settled(h)
  {
    r.mode == SIGN && r.top == k && r.hashed <= SignStrings(e, h, joined, k) && SignSeen(h, r.seen, k)
  }

  ghost predicate SignWorld(e: Env, h: Host, joined: set<seq<byte>>, w: World, k: nat)
    requires Settled(h)
  {
    SignReady(e, h, w.st.session, k) && SignRecorded(e, h, joined, w.h, k)
  }

  lemma SignHashes(e: Env, h: Host, st: State, k: nat)
    requires Settled(h) && 1 <= k <= 15 && SignReady(e, h, st.session, k)
    ensures Hashed(e, st, SignCall(h, k)) <= SignHashedAt(e, h, k)
  {
    var c := SignCall(h, k);
    assert c.in0 == h.sign0(k) && c.in1 == h.sign1(k) && c.command == SIGN;
  }

  lemma SignReaches(e: Env, h: Host, st: State, k: nat)
    requires 1 <= k <= 15 && st.session.kind == ST_DAA && st.session.handle == HANDLE
    ensures Reaches(st, SignCall(h, k))
    ensures Effects(e, st, SignCall(h, k)) == SignStage(e, st.session, k, h.sign0(k), h.sign1(k), h.drawn(k))
  {
    var c := SignCall(h, k);
    assert DaaRun.Names(st.session, c.handle);
    assert c.stage == k && c.command == SIGN;
  }

  lemma SignSeenGrows(h: Host, seen: map<nat, Entry>, k: nat, n: Entry)
    requires SignSeen(h, seen, k) && n.in0 == h.sign0(k)
    ensures SignSeen(h, seen[k := n], k + 1)
  {}

  lemma SignRecordGrows(e: Env, h: Host, joined: set<seq<byte>>, w: History, r: History, k: nat, n: Entry)
    requires Settled(h) && 1 <= k <= 15 && SignRecorded(e, h, joined, w, k)
    requires r.mode == SIGN && r.top == k + 1 && r.seen == w.seen[k := n]
    requires r.hashed <= w.hashed + SignHashedAt(e, h, k) && n.in0 == h.sign0(k)
    ensures SignRecorded(e, h, joined, r, k + 1)
  {
    SignSeenGrows(h, w.seen, k, n);
    UptoGrows(joined, SignParts(e, h), k, w.hashed, r.hashed);
  }

  lemma SignDone(e: Env, h: Host, joined: set<seq<byte>>, w: World, k: nat, f: Effect)
    requires Settled(h) && 1 <= k <= 15 && SignWorld(e, h, joined, w, k)
    requires f.Good? && (k < 15 ==> SignReady(e, h, f.next, k + 1))
    requires Reaches(w.st, SignCall(h, k)) && Effects(e, w.st, SignCall(h, k)) == f
    requires Hashed(e, w.st, SignCall(h, k)) <= SignHashedAt(e, h, k)
    ensures var r := Next(e, w, Do(SignCall(h, k)));
      SignRecorded(e, h, joined, r.h, k + 1) && (k < 15 ==> SignWorld(e, h, joined, r, k + 1))
  {
    var c := SignCall(h, k);
    CallDone(e, w, c, f);
    var r, n := Next(e, w, Do(c)), Entry(w.st.session, c.in0, c.in1, c.random, f.output);
    SignRecordGrows(e, h, joined, w.h, r.h, k, n);
  }

  lemma SignSteps(e: Env, h: Host, joined: set<seq<byte>>, w: World, k: nat)
    requires Openable(e) && Roomy(e) && HonestSign(e, h) && 1 <= k <= 15 && SignWorld(e, h, joined, w, k)
    ensures var r := Next(e, w, Do(SignCall(h, k)));
      SignRecorded(e, h, joined, r.h, k + 1) && (k < 15 ==> SignWorld(e, h, joined, r, k + 1))
  {
    var f := SignStage(e, w.st.session, k, h.sign0(k), h.sign1(k), h.drawn(k));
    SignGoes(e, h, w.st.session, k);
    SignReaches(e, h, w.st, k);
    SignHashes(e, h, w.st, k);
    SignDone(e, h, joined, w, k, f);
  }

  lemma SignOpens(e: Env, h: Host, joined: set<seq<byte>>, w: World)
    requires HonestSign(e, h) && w.st.session == Blank(e) && w.h.hashed <= joined
    ensures SignWorld(e, h, joined, Next(e, w, Do(SignCall(h, 0))), 1)
  {
    var c, f := SignCall(h, 0), SignOpen(e, w.st.session, HANDLE, h.sign0(0));
    assert Effects(e, w.st, c) == f;
    OpenDone(e, w, c, f);
    SignBlankHashes(e, h, w.st);
    UptoGrows(joined, SignParts(e, h), 0, w.h.hashed, Next(e, w, Do(c)).h.hashed);
  }

  lemma SignBlankHashes(e: Env, h: Host, st: State)
    requires Settled(h) && st.session == Blank(e)
    ensures Hashed(e, st, SignCall(h, 0)) <= SignHashedAt(e, h, 0)
  {
    var c := SignCall(h, 0);
    assert c.in0 == h.sign0(0) && c.in1 == h.sign1(0) && c.command == SIGN;
  }

  function Signing(h: Host): seq<Action> {
    seq(16, k requires 0 <= k < 16 => Do(SignCall(h, k)))
  }

  /** Before call `k` of the Sign, and after its last one. */
  ghost predicate SignGoing(e: Env, h: Host, joined: set<seq<byte>>, w: World, k: nat)
    requires Settled(h)
  {
    if k == 0 then w.st.session == Blank(e) && w.h.hashed <= joined
    else if k < 16 then SignWorld(e, h, joined, w, k)
    else SignRecorded(e, h, joined, w.h, k)
  }

  lemma SignMovesOn(e: Env, h: Host, joined: set<seq<byte>>, w: World, k: nat)
    requires Openable(e) && Roomy(e) && HonestSign(e, h) && k < 16 && SignGoing(e, h, joined, w, k)
    ensures SignGoing(e, h, joined, Next(e, w, Do(SignCall(h, k))), k + 1)
  {
    if k == 0 { SignOpens(e, h, joined, w); } else { SignSteps(e, h, joined, w, k); }
  }

  lemma {:induction false} SignRuns(e: Env, h: Host, joined: set<seq<byte>>, first: seq<Action>,
                                    actions: seq<Action>, k: nat)
    requires Openable(e) && Roomy(e) && HonestSign(e, h) && k <= |actions| == 16
    requires forall j :: 0 <= j < 16 ==> actions[j] == Do(SignCall(h, j))
    requires SignGoing(e, h, joined, Run(e, first + actions[..0]), 0)
    ensures SignGoing(e, h, joined, Run(e, first + actions[..k]), k)
  {
    if k > 0 {
      SignRuns(e, h, joined, first, actions, k - 1);
      SignMovesOn(e, h, joined, Run(e, first + actions[..k - 1]), k - 1);
      RunMore(e, first, actions, k - 1);
    }
  }

  lemma SignCompletes(e: Env, h: Host, joined: set<seq<byte>>, first: seq<Action>)
    requires Openable(e) && Roomy(e) && HonestSign(e, h)
    requires Run(e, first).st.session == Blank(e) && Run(e, first).h.hashed <= joined
    ensures SignRecorded(e, h, joined, Run(e, first + Signing(h)).h, 16)
  {
    SignEnds(e, h, joined, first, Signing(h));
  }

  lemma SignEnds(e: Env, h: Host, joined: set<seq<byte>>, first: seq<Action>, actions: seq<Action>)
    requires Openable(e) && Roomy(e) && HonestSign(e, h) && |actions| == 16
    requires forall j :: 0 <= j < 16 ==> actions[j] == Do(SignCall(h, j))
    requires SignGoing(e, h, joined, Run(e, first), 0)
    ensures SignGoing(e, h, joined, Run(e, first + actions), 16)
  {
    Prefixes(first, actions);
    SignRuns(e, h, joined, first, actions, 16);
  }

  lemma Prefixes(first: seq<Action>, actions: seq<Action>)
    ensures first + actions[..0] == first && actions[..|actions|] == actions
  {}

  /** Every honest host completes its Join and then a Sign on the blobs of that Join. */
  lemma HonestCompletes(e: Env, h: Host)
    requires Openable(e) && Roomy(e) && Honest(e, h) && HonestSign(e, h)
    ensures var join, sign := Run(e, Joining(h)).h, Run(e, Joining(h) + Signing(h)).h;
      && join.mode == JOIN && join.top == 25 && sign.mode == SIGN && sign.top == 16
      && 1 in sign.seen && 24 in join.seen && sign.seen[1].in0 == join.seen[24].output
      && sign.hashed <= SignStrings(e, h, JoinStrings(e, h, 25), 16)
      && (Cong(OfBytes(h.in0(7)), Pow(OfBytes(h.in0(6)), Two(e.z.power1)), OfBytes(h.in1(4))) ==>
            JoinBasesFit(e, join))
  {
    JoinCompletes(e, h);
    SignCompletes(e, h, JoinStrings(e, h, 25), Joining(h));
  }

  /** If moreover the hash has no collision among the strings they hash, then the signature verifies
      against the credential of the Join. */
  lemma HonestVerifies(e: Env, h: Host)
    requires Openable(e) && Roomy(e) && Honest(e, h) && HonestSign(e, h)
    requires Collisionless(e, SignStrings(e, h, JoinStrings(e, h, 25), 16))
    requires Cong(OfBytes(h.in0(7)), Pow(OfBytes(h.in0(6)), Two(e.z.power1)), OfBytes(h.in1(4)))
    ensures var join, sign := Run(e, Joining(h)).h, Run(e, Joining(h) + Signing(h)).h;
      Conserved(e, join, sign) && DaaSign.SignVerifies(sign, Completed(join))
  {
    var join, sign := Run(e, Joining(h)).h, Run(e, Joining(h) + Signing(h)).h;
    HonestCompletes(e, h);
    JoinThenSign(e, Joining(h), Signing(h), join, sign);
  }
}
