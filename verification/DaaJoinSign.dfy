/** DAA Join followed by DAA Sign on the blobs that Join returned: the private values survive the
    split and the wrapping, and the signature verifies against the credential of the Join. */
module DaaJoinSign {
  import opened NumberTheory
  import opened Bytes
  import opened Daa
  import opened DaaRun
  import opened DaaAlgebra
  import opened DaaTheorems
  import opened DaaSign

  // ---- the settings structures survive marshalling

  predicate FormedSpecific(t: Specific) {
    && t.tag < 0x1_0000 && t.count < 0x1_0000_0000
    && |t.issuer| == DIGEST && |t.v0| == DIGEST && |t.v1| == DIGEST && |t.rekey| == DIGEST
  }

  predicate FormedIssuer(i: Issuer) {
    && i.tag < 0x1_0000 && |i.r0| == DIGEST && |i.r1| == DIGEST && |i.s0| == DIGEST
    && |i.s1| == DIGEST && |i.n| == DIGEST && |i.gamma| == DIGEST && |i.q| == 26
  }

  lemma SixFields(a: seq<byte>, b: seq<byte>, c: seq<byte>, d: seq<byte>, e: seq<byte>, f: seq<byte>, z: seq<byte>)
    requires |a| == 2 && |b| == |c| == |d| == |e| == 20 && |f| == 4
    ensures var s := a + b + c + d + e + f + z;
      s[0..2] == a && s[2..22] == b && s[22..42] == c && s[42..62] == d && s[62..82] == e && s[82..86] == f
  {}

  lemma SpecificRoundTrip(t: Specific)
    requires FormedSpecific(t)
    ensures SpecificOf(SpecificBytes(t)) == t
  {
    SmallPowers();
    OfBe(t.tag, 2);
    OfBe(t.count, 4);
    SixFields(Be(t.tag, 2), t.issuer, t.v0, t.v1, t.rekey, Be(t.count, 4), Zeros(2));
  }

  lemma IssuerInjective(i: Issuer, j: Issuer)
    requires FormedIssuer(i) && FormedIssuer(j) && IssuerBytes(i) == IssuerBytes(j)
    ensures i == j
  {
    IssuerRoundTrip(i);
    IssuerRoundTrip(j);
  }

  lemma EightFields(a: seq<byte>, b: seq<byte>, c: seq<byte>, d: seq<byte>, e: seq<byte>, f: seq<byte>,
                    g: seq<byte>, q: seq<byte>)
    requires |a| == 2 && |b| == |c| == |d| == |e| == |f| == |g| == 20 && |q| == 26
    ensures var s := a + b + c + d + e + f + g + q;
      s[0..2] == a && s[2..22] == b && s[22..42] == c && s[42..62] == d && s[62..82] == e
      && s[82..102] == f && s[102..122] == g && s[122..148] == q
  {}

  lemma IssuerRoundTrip(i: Issuer)
    requires FormedIssuer(i)
    ensures IssuerOf(IssuerBytes(i)) == i
  {
    SmallPowers();
    OfBe(i.tag, 2);
    EightFields(Be(i.tag, 2), i.r0, i.r1, i.s0, i.s1, i.n, i.gamma, i.q);
  }

  predicate Formed(s: Session) {
    FormedSpecific(s.tpm) && FormedIssuer(s.issuer)
  }

  /** The hash gives 20-byte digests. */
  ghost predicate Hashes(e: Env) {
    forall x :: |e.hash(x)| == DIGEST
  }

  lemma NumberBound(b: seq<byte>)
    ensures |b| == 2 ==> OfBytes(b) < 0x1_0000
    ensures |b| == 4 ==> OfBytes(b) < 0x1_0000_0000
  {
    SmallPowers();
    OfBytesBound(b);
  }

  lemma JoinKeyForms(e: Env, s: Session, in0: seq<byte>, in1: seq<byte>)
    requires Hashes(e) && Formed(s) && JoinKey(e, s, in0, in1).Good?
    ensures Formed(JoinKey(e, s, in0, in1).next)
  {}

  lemma JoinSettingsForms(e: Env, s: Session, in0: seq<byte>, in1: seq<byte>)
    requires Hashes(e) && Formed(s) && JoinSettings(e, s, in0, in1).Good?
    ensures Formed(JoinSettings(e, s, in0, in1).next)
  {
    NumberBound(in0[0..2]);
  }

  lemma JoinSecretsForms(e: Env, s: Session, in0: seq<byte>, x: Random)
    requires Formed(s) && JoinSecrets(e, s, in0, x).Good?
    ensures Formed(JoinSecrets(e, s, in0, x).next)
  {
    NumberBound(in0);
  }

  lemma JoinForms(e: Env, s: Session, k: nat, in0: seq<byte>, in1: seq<byte>, x: Random)
    requires Hashes(e) && Formed(s) && 1 <= k <= 24 && JoinStage(e, s, k, in0, in1, x).Good?
    ensures Formed(JoinStage(e, s, k, in0, in1, x).next)
  {
    if k == 1 {
      JoinKeyForms(e, s, in0, in1);
    } else if k == 2 {
      JoinSettingsForms(e, s, in0, in1);
    } else if k == 3 {
      JoinSecretsForms(e, s, in0, x);
    } else if k < 22 {
      JoinMiddle(e, s, k, in0, in1, x);
    }
  }

  lemma SignForms(e: Env, s: Session, k: nat, in0: seq<byte>, in1: seq<byte>, x: Random)
    requires Hashes(e) && Formed(s) && 1 <= k <= 15 && SignStage(e, s, k, in0, in1, x).Good?
    ensures Formed(SignStage(e, s, k, in0, in1, x).next)
  {
    if k == 1 {
      var data := Unwrap(e, in0, RT_DAA_TPM).data;
      NumberBound(data[0..2]);
      NumberBound(data[82..86]);
    } else if k < 15 {
      SignMiddle(e, s, k, in0, in1, x);
    }
  }

  lemma OpenForms(e: Env, st: State, c: Call)
    requires Hashes(e) && Formed(st.session) && Succeeds(e, st, c) && c.stage == 0
    ensures Formed(Effects(e, st, c).next)
  {
    NumberBound(c.in0);
    if c.command == SIGN { NumberBound(c.in0[0..2]); }
  }

  lemma EffectForms(e: Env, st: State, c: Call)
    requires Hashes(e) && Formed(st.session) && Succeeds(e, st, c)
    ensures Formed(Effects(e, st, c).next)
  {
    if c.stage == 0 {
      OpenForms(e, st, c);
    } else if c.command == JOIN {
      JoinForms(e, st.session, c.stage, c.in0, c.in1, c.random);
    } else {
      SignForms(e, st.session, c.stage, c.in0, c.in1, c.random);
    }
  }

  ghost predicate AllFormed(st: State, h: History) {
    Formed(st.session) && Formed(h.last) && forall k :: k in h.seen ==> Formed(h.seen[k].before)
  }

  lemma StepForms(e: Env, st: State, h: History, c: Call)
    requires Hashes(e) && AllFormed(st, h)
    ensures AllFormed(Step(e, st, c).0, Follow(e, st, h, c))
  {
    if Succeeds(e, st, c) { EffectForms(e, st, c); }
  }

  /** The sessions of a run, saved ones included, and the recorded ones. */
  ghost predicate WorldFormed(w: World) {
    && AllFormed(w.st, w.h)
    && forall k :: 0 <= k < |w.shelf| ==> AllFormed(State(w.shelf[k].session, HANDLE), w.shelf[k].history)
  }

  lemma BlankFormed(e: Env)
    ensures Formed(Blank(e))
  {}

  lemma NextForms(e: Env, w: World, a: Action)
    requires Hashes(e) && WorldFormed(w)
    ensures WorldFormed(Next(e, w, a))
  {
    if a.Do? { StepForms(e, w.st, w.h, a.call); }
    BlankFormed(e);
  }

  lemma {:induction false} RunForms(e: Env, actions: seq<Action>)
    requires Hashes(e)
    ensures WorldFormed(Run(e, actions))
  {
    if actions != [] {
      RunForms(e, actions[..|actions| - 1]);
      NextForms(e, Run(e, actions[..|actions| - 1]), actions[|actions| - 1]);
    }
  }

  // ---- what Join puts into its blobs

  lemma Join22(e: Env, h: History, top: nat)
    requires Recording(e, h, JOIN, top) && 22 < top
    ensures 22 in h.seen
    ensures JoinV0(e, At(h, 22), h.seen[22].in0, h.seen[22].random) == Good(At(h, 23), h.seen[22].output)
  {
    RecordedStage(e, h, JOIN, top, 22);
  }

  lemma Join23(e: Env, h: History, top: nat)
    requires Recording(e, h, JOIN, top) && 23 < top
    ensures 23 in h.seen
    ensures JoinV1(e, At(h, 23), h.seen[23].in0, h.seen[23].random) == Good(At(h, 24), h.seen[23].output)
  {
    RecordedStage(e, h, JOIN, top, 23);
  }

  lemma Join24(e: Env, h: History)
    requires Recording(e, h, JOIN, 25)
    ensures 24 in h.seen
    ensures h.seen[24].output == e.wrap(RT_DAA_TPM, e.ofSpecific(At(h, 24).tpm), h.seen[24].random.first)
    ensures IssuerMatches(e, At(h, 24)) && h.seen[24].before == At(h, 24)
  {
    RecordedStage(e, h, JOIN, 25, 24);
  }

  /** The values that stages 22 and 23 wrapped. */
  function JoinedV0(e: Env, h: History): nat {
    if 22 in h.seen then V0(e, At(h, 22), h.seen[22].in0) else 0
  }

  function JoinedV1(h: History): nat {
    if 23 in h.seen then V1(At(h, 23), h.seen[23].in0) else 0
  }

  lemma V0Stage(e: Env, s: Session, in0: seq<byte>, x: Random)
    requires JoinV0(e, s, in0, x).Good?
    ensures var Good(r, output) := JoinV0(e, s, in0, x);
      r.issuer == s.issuer && r.join == s.join && r.tpm == s.tpm.(v0 := e.hash(ToBytes(V0(e, s, in0))))
      && Scratch(r) == High(OfBytes(in0) + U0(s), e.z.power1)
      && output == e.wrap(RT_DAA_V0, ToBytes(V0(e, s, in0)), x.first)
  {
    LittleRead(e, High(OfBytes(in0) + U0(s), e.z.power1));
  }

  lemma V1Stage(e: Env, s: Session, in0: seq<byte>, x: Random)
    requires JoinV1(e, s, in0, x).Good?
    ensures var Good(r, output) := JoinV1(e, s, in0, x);
      r.issuer == s.issuer && r.tpm == s.tpm.(v1 := e.hash(ToBytes(V1(s, in0))))
      && output == e.wrap(RT_DAA_V1, ToBytes(V1(s, in0)), x.first)
  {}

  lemma JoinBlob0(e: Env, h: History)
    requires Recording(e, h, JOIN, 25)
    ensures var s, t := At(h, 22), At(h, 23);
      22 in h.seen && t.issuer == s.issuer && t.join == s.join
      && t.tpm == s.tpm.(v0 := e.hash(ToBytes(JoinedV0(e, h))))
      && h.seen[22].output == e.wrap(RT_DAA_V0, ToBytes(JoinedV0(e, h)), h.seen[22].random.first)
      && Scratch(t) == High(In0(h, 22) + U0(s), e.z.power1)
      && JoinedV0(e, h) == Low(In0(h, 22) + U0(s), e.z.power1)
  {
    Join22(e, h, 25);
    V0Stage(e, At(h, 22), h.seen[22].in0, h.seen[22].random);
  }

  lemma JoinBlob1(e: Env, h: History)
    requires Recording(e, h, JOIN, 25)
    ensures var s, t := At(h, 23), At(h, 24);
      23 in h.seen && t.issuer == s.issuer && t.tpm == s.tpm.(v1 := e.hash(ToBytes(JoinedV1(h))))
      && h.seen[23].output == e.wrap(RT_DAA_V1, ToBytes(JoinedV1(h)), h.seen[23].random.first)
      && JoinedV1(h) == In0(h, 23) + U1(s) + Scratch(s)
  {
    Join23(e, h, 25);
    V1Stage(e, At(h, 23), h.seen[23].in0, h.seen[23].random);
  }

  /** The settings that Join wraps at stage 24 name the two private values. */
  lemma JoinBlobs(e: Env, h: History)
    requires Recording(e, h, JOIN, 25)
    ensures var s, t := At(h, 22), At(h, 24);
      t.issuer == s.issuer && t.tpm.rekey == s.tpm.rekey && t.tpm.count == s.tpm.count
      && t.tpm.v0 == e.hash(ToBytes(JoinedV0(e, h))) && t.tpm.v1 == e.hash(ToBytes(JoinedV1(h)))
      && JoinedV0(e, h) == Low(In0(h, 22) + U0(s), e.z.power1)
      && JoinedV1(h) == In0(h, 23) + U1(s) + High(In0(h, 22) + U0(s), e.z.power1)
  {
    JoinBlob0(e, h);
    JoinBlob1(e, h);
  }

  lemma SplitConserves(x: nat, y: nat, k: nat)
    ensures Low(x, k) + Two(k) * (y + High(x, k)) == x + Two(k) * y
  {
    LowHigh(x, k);
    var q, r := DivMod(x, Two(k));
    Distribute(Two(k), y, q);
    Commute(Two(k), q);
  }

  /** Conservation: splitting u2 + u0 at 2^power1 and carrying the rest into v1 loses nothing. */
  lemma JoinConserves(e: Env, h: History)
    requires Recording(e, h, JOIN, 25)
    ensures var s, m := At(h, 22), Two(e.z.power1);
      JoinedV0(e, h) + m * JoinedV1(h) == (In0(h, 22) + U0(s)) + m * (In0(h, 23) + U1(s))
  {
    JoinBlobs(e, h);
    var s := At(h, 22);
    SplitConserves(In0(h, 22) + U0(s), In0(h, 23) + U1(s), e.z.power1);
  }

  // ---- Sign on these blobs

  /** What wrapping has to guarantee: opening a blob gives back what was wrapped, as long as the
      sizes fit their fields. */
  ghost predicate Unwraps(e: Env) {
    forall resource: nat, data, iv {:trigger e.wrap(resource, data, iv)} ::
      resource <= RT_DAA_V1 && |data| <= 0xffff_0000 ==>
        e.unwrap(e.wrap(resource, data, iv)) == Opened(resource, TAG_SENSITIVE, data)
  }

  lemma Sign1(e: Env, h: History, top: nat)
    requires Recording(e, h, SIGN, top) && 15 <= top
    ensures 1 in h.seen && |Wrapped(e, h, 1)| == 88 && At(h, 15).tpm == SpecificOf(Wrapped(e, h, 1))
    ensures IssuerMatches(e, At(h, 2)) && At(h, 15).issuer == At(h, 2).issuer && At(h, 15).tpm == At(h, 2).tpm
    ensures 2 in h.seen && h.seen[2].before == At(h, 2)
  {
    RecordedStage(e, h, SIGN, top, 1);
    RecordedStage(e, h, SIGN, top, 2);
    BlobStage(e, At(h, 1), h.seen[1].in0, h.seen[1].random);
    SignFixed(e, h, top, 2, 15);
  }

  lemma BlobStage(e: Env, s: Session, in0: seq<byte>, x: Random)
    requires SignBlob(e, s, in0, x).Good?
    ensures |Contents(e.unwrap(in0))| == 88
    ensures SignBlob(e, s, in0, x).next.tpm == SpecificOf(Contents(e.unwrap(in0)))
    ensures IssuerMatches(e, SignBlob(e, s, in0, x).next)
  {}

  /** The Sign session was started on the settings blob of the Join session, in one run without
      a hash collision. */
  ghost predicate Continued(e: Env, join: History, sign: History) {
    && Recording(e, join, JOIN, 25) && Recording(e, sign, SIGN, 16)
    && join.hashed <= sign.hashed && Collisionless(e, sign.hashed)
    && Marshals(e) && Unwraps(e) && (forall k :: k in join.seen ==> Formed(join.seen[k].before))
    && (forall k :: k in sign.seen ==> Formed(sign.seen[k].before))
    && 1 in sign.seen && 24 in join.seen && sign.seen[1].in0 == join.seen[24].output
  }

  lemma SameSettings(e: Env, join: History, sign: History)
    requires Continued(e, join, sign)
    ensures At(sign, 15).tpm == At(join, 24).tpm
  {
    Sign1(e, sign, 16);
    Join24(e, join);
    assert Bytewise(At(join, 24).tpm);
    assert |e.ofSpecific(At(join, 24).tpm)| == 88;
    SpecificRoundTrip(At(join, 24).tpm);
  }

  lemma CrossRun(e: Env, join: History, sign: History, j: nat, k: nat)
    requires Continued(e, join, sign) && j in join.seen && k in sign.seen
    ensures Gathered(e, j, join.seen[j], sign.hashed) && Gathered(e, k, sign.seen[k], sign.hashed)
  {
    assert Inside(join) && Inside(sign);
    assert Gathered(e, j, join.seen[j], join.hashed);
  }

  lemma SameHash(e: Env, strings: set<seq<byte>>, x: seq<byte>, y: seq<byte>)
    requires Collisionless(e, strings) && x in strings && y in strings && e.hash(x) == e.hash(y)
    ensures x == y
  {}

  lemma SameIssuer(e: Env, join: History, sign: History)
    requires Continued(e, join, sign)
    ensures At(sign, 15).issuer == At(join, 24).issuer
  {
    SameSettings(e, join, sign);
    Sign1(e, sign, 16);
    Join24(e, join);
    CrossRun(e, join, sign, 24, 2);
    var i, j := At(sign, 2).issuer, At(join, 24).issuer;
    SameHash(e, sign.hashed, e.ofIssuer(i), e.ofIssuer(j));
    assert Bytewise(i) && Bytewise(j);
    IssuerInjective(i, j);
  }

  lemma JoinGenerics(e: Env, join: History, k: nat)
    requires Recording(e, join, JOIN, 25) && 2 <= k <= 5
    ensures k + 2 in join.seen && e.hash(join.seen[k + 2].in0) == SignBase(At(join, 24).issuer, k)
    ensures e.hash(join.seen[k + 2].in1) == At(join, 24).issuer.n
  {
    JoinBlobs(e, join);
    JoinFactor(e, join, 25, k + 2, 22);
  }

  lemma SignGenerics(e: Env, sign: History, k: nat)
    requires Recording(e, sign, SIGN, 16) && 2 <= k <= 5
    ensures k in sign.seen && e.hash(sign.seen[k].in0) == SignBase(At(sign, 15).issuer, k)
    ensures e.hash(sign.seen[k].in1) == At(sign, 15).issuer.n
  {
    SignFactor(e, sign, 16, k);
  }

  lemma SameGenerics(e: Env, join: History, sign: History, k: nat)
    requires Continued(e, join, sign) && 2 <= k <= 5
    ensures In0(sign, k) == In0(join, k + 2) && In1(sign, k) == In1(join, k + 2)
  {
    SameIssuer(e, join, sign);
    JoinGenerics(e, join, k);
    SignGenerics(e, sign, k);
    CrossRun(e, join, sign, k + 2, k);
    SameHash(e, sign.hashed, join.seen[k + 2].in0, sign.seen[k].in0);
    SameHash(e, sign.hashed, join.seen[k + 2].in1, sign.seen[k].in1);
  }

  lemma SameV0(e: Env, join: History, sign: History)
    requires Continued(e, join, sign)
    ensures SignV0(e, sign) == JoinedV0(e, join)
  {
    SameSettings(e, join, sign);
    JoinBlobs(e, join);
    Join22(e, join, 25);
    SignS2(e, sign, 16);
    CrossRun(e, join, sign, 22, 13);
    SameHash(e, sign.hashed, Wrapped(e, sign, 13), ToBytes(JoinedV0(e, join)));
    OfToBytes(JoinedV0(e, join));
  }

  lemma SameV1(e: Env, join: History, sign: History)
    requires Continued(e, join, sign)
    ensures SignV1(e, sign) == JoinedV1(join)
  {
    SameSettings(e, join, sign);
    JoinBlobs(e, join);
    Join23(e, join, 25);
    SignS3(e, sign);
    CrossRun(e, join, sign, 23, 15);
    SameHash(e, sign.hashed, Wrapped(e, sign, 15), ToBytes(JoinedV1(join)));
    OfToBytes(JoinedV1(join));
  }

  lemma SameSecret(e: Env, join: History, sign: History)
    requires Continued(e, join, sign)
    ensures F0(e, At(sign, 15)) == F0(e, At(join, 22)) && F1(e, At(sign, 15)) == F1(e, At(join, 22))
  {
    SameSettings(e, join, sign);
    SameIssuer(e, join, sign);
    JoinBlobs(e, join);
    SecretFrom(e, At(sign, 15), At(join, 22));
  }

  lemma SecretFrom(e: Env, s: Session, t: Session)
    requires s.issuer == t.issuer && s.tpm.rekey == t.tpm.rekey && s.tpm.count == t.tpm.count
    ensures Secret(e, s) == Secret(e, t)
  {}

  /** U S0^u2 S1^u3: what Join returned, completed by what the issuer sent in. */
  function Completed(join: History): int {
    Out(join, 7) * (Pow(In0(join, 6), In0(join, 22)) * Pow(In0(join, 7), In0(join, 23)))
  }

  /** v0 + 2^power1 v1 = (u2 + u0) + 2^power1 (u3 + u1), with v0 and v1 as Sign uses them. */
  ghost predicate Conserved(e: Env, join: History, sign: History) {
    var s, m := At(join, 22), Two(e.z.power1);
    SignV0(e, sign) + m * SignV1(e, sign) == (In0(join, 22) + U0(s)) + m * (In0(join, 23) + U1(s))
  }

  /** The private values that Sign uses are those of the Join, and the signature verifies
      against the credential completed from the Join. */
  lemma SignAfterJoin(e: Env, join: History, sign: History)
    requires Continued(e, join, sign) && JoinBasesFit(e, join)
    ensures Conserved(e, join, sign) && SignVerifies(sign, Completed(join))
  {
    SameV0(e, join, sign);
    SameV1(e, join, sign);
    JoinConserves(e, join);
    SameAll(e, join, sign);
    CompletedIs(e, join, sign);
    SignHistoryEquation(e, sign, Completed(join));
  }

  lemma SameAll(e: Env, join: History, sign: History)
    requires Continued(e, join, sign) && JoinBasesFit(e, join)
    ensures In0(sign, 2) == In0(join, 4) && In0(sign, 3) == In0(join, 5) && In0(sign, 4) == In0(join, 6)
    ensures In0(sign, 5) == In0(join, 7) && In1(sign, 2) == In1(join, 4) && SignBasesFit(e, sign)
  {
    SameGenerics(e, join, sign, 2);
    SameGenerics(e, join, sign, 3);
    SameGenerics(e, join, sign, 4);
    SameGenerics(e, join, sign, 5);
  }

  /** R0^f0 R1^f1 S0^v0 S1^v1 from the numbers of the Join alone. */
  function JoinCredential(e: Env, join: History): int {
    var s := At(join, 22);
    Quad(In0(join, 4), In0(join, 5), In0(join, 6), In0(join, 7), F0(e, s), F1(e, s), JoinedV0(e, join), JoinedV1(join))
  }

  lemma CompletedJoin(e: Env, join: History)
    requires Recording(e, join, JOIN, 25) && JoinBasesFit(e, join)
    ensures Cong(Completed(join), JoinCredential(e, join), In1(join, 4))
  {
    JoinBlobs(e, join);
    JoinProducts(e, join, 25, 4, 22);
    var s := At(join, 22);
    LowHigh(In0(join, 22) + U0(s), e.z.power1);
    CredentialSplit(In0(join, 4), In0(join, 5), In0(join, 6), In0(join, 7), In1(join, 4), Two(e.z.power1),
      F0(e, s), F1(e, s), U0(s), U1(s), In0(join, 22), In0(join, 23), In0(join, 22) + U0(s), In0(join, 23) + U1(s),
      JoinedV0(e, join), JoinedV1(join), Out(join, 7));
  }

  lemma CompletedIs(e: Env, join: History, sign: History)
    requires Continued(e, join, sign) && JoinBasesFit(e, join)
    ensures Cong(Completed(join), Credential(e, sign), In1(sign, 2))
  {
    CompletedJoin(e, join);
    SameAll(e, join, sign);
    SameSecret(e, join, sign);
    SameV0(e, join, sign);
    SameV1(e, join, sign);
  }

  /** For every run in which a Join completed and a later Sign, started on the blob that Join
      returned, completed too. */
  lemma {:induction false} JoinThenSign(e: Env, first: seq<Action>, more: seq<Action>, join: History, sign: History)
    requires Hashes(e) && Marshals(e) && Unwraps(e) && join == Run(e, first).h && sign == Run(e, first + more).h
    requires Collisionless(e, sign.hashed) && JoinBasesFit(e, join)
    requires join.mode == JOIN && join.top == 25 && sign.mode == SIGN && sign.top == 16
    requires 1 in sign.seen && 24 in join.seen && sign.seen[1].in0 == join.seen[24].output
    ensures Conserved(e, join, sign) && SignVerifies(sign, Completed(join))
  {
    HashedGrows(e, first, more);
    RunRecords(e, first, join, 25);
    RunRecords(e, first + more, sign, 16);
    RunForms(e, first);
    RunForms(e, first + more);
    SignAfterJoin(e, join, sign);
  }

  // ---- which private values Sign accepts

  /** Sign stage 13 accepts the v0 blob of a Join exactly when v0 is not zero, and stage 15 the
      v1 blob exactly when v1 is not zero and fits its field. */
  lemma PrivateAccepted(e: Env, resource: nat, size: nat, v: nat, iv: seq<byte>)
    requires Unwraps(e) && resource <= RT_DAA_V1 && Fits(e, v) && e.z.scratch <= 0xffff_0000
    ensures Private(e, e.wrap(resource, ToBytes(v), iv), resource, size, e.hash(ToBytes(v))).Accepted?
       <==> 0 < v < Pow(256, size)
  {
    ToBytesLength(v, size);
    ToBytesLength(v, 0);
  }

  /** With the sizes of the emulator every v0 fits, so zero is the only value that stops Sign. */
  lemma V0Accepted(e: Env, s: Session, in0: seq<byte>, iv: seq<byte>)
    requires Unwraps(e) && 8 * e.z.v0 == e.z.power1 && Fits(e, V0(e, s, in0)) && e.z.scratch <= 0xffff_0000
    ensures Private(e, e.wrap(RT_DAA_V0, ToBytes(V0(e, s, in0)), iv), RT_DAA_V0, e.z.v0,
                    e.hash(ToBytes(V0(e, s, in0)))).Accepted?
       <==> V0(e, s, in0) != 0
  {
    PrivateAccepted(e, RT_DAA_V0, e.z.v0, V0(e, s, in0), iv);
    LowBelow(OfBytes(in0) + U0(s), e.z.v0);
  }

  lemma LowBelow(v: nat, k: nat)
    ensures Low(v, 8 * k) < Pow(256, k)
  {
    LowHigh(v, 8 * k);
    BytesAreBits(k);
  }

  lemma BytesAreBits(k: nat)
    ensures Pow(256, k) == Two(8 * k)
  {
    PowMul(2, 8, k);
    assert Pow(2, 8) == 256;
  }
}
