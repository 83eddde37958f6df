/** What the host can verify about a completed DAA Join and DAA Sign, over all runs: the numbers
    returned by a dozen separate calls satisfy the protocol's equations. */
module DaaTheorems {
  import opened NumberTheory
  import opened Bytes
  import opened Rsa
  import opened Daa
  import opened DaaRun
  import opened DaaAlgebra

  // ---- reading a recorded session

  /** The history of a session whose stages before `top` have all succeeded. */
  ghost predicate Recording(e: Env, h: History, mode: Command, top: nat) {
    && h.mode == mode && 2 <= top <= h.top
    && (forall g {:trigger Inside(g)} :: Inside(g) && g == h ==>
          Linked(e, g) && Collected(e, g) && Collisionless(e, g.hashed))
  }

  /** Marks where a recording is looked into. */
  predicate Inside(h: History) {
    true
  }

  function In0(h: History, k: nat): nat {
    if k in h.seen then OfBytes(h.seen[k].in0) else 0
  }

  function In1(h: History, k: nat): nat {
    if k in h.seen then OfBytes(h.seen[k].in1) else 0
  }

  function Out(h: History, k: nat): nat {
    if k in h.seen then OfBytes(h.seen[k].output) else 0
  }

  /** The session that stage `k` starts from. */
  function At(h: History, k: nat): Session {
    if k < h.top && k in h.seen then h.seen[k].before else h.last
  }

  lemma RecordedStage(e: Env, h: History, mode: Command, top: nat, k: nat)
    requires Recording(e, h, mode, top) && First(mode) <= k < top
    ensures k in h.seen && k <= Last(mode)
    ensures Again(e, mode, k, h.seen[k]) == Good(At(h, k + 1), h.seen[k].output)
    ensures h.seen[k].before == At(h, k)
  {
    assert Inside(h);
    assert Replayed(e)(mode, k, h.seen[k]) == Again(e, mode, k, h.seen[k]);
  }

  lemma SameInput(e: Env, h: History, mode: Command, top: nat, j: nat, k: nat)
    requires Recording(e, h, mode, top) && j in h.seen && k in h.seen
    ensures e.hash(h.seen[j].in0) == e.hash(h.seen[k].in0) ==> h.seen[j].in0 == h.seen[k].in0
    ensures e.hash(h.seen[j].in1) == e.hash(h.seen[k].in1) ==> h.seen[j].in1 == h.seen[k].in1
  {
    assert Inside(h);
  }

  // ---- Join: what stays fixed

  lemma {:induction false} JoinFixed(e: Env, h: History, top: nat, j: nat, k: nat)
    requires Recording(e, h, JOIN, top) && 4 <= j <= k <= top && k <= 22
    ensures At(h, j).issuer == At(h, k).issuer && At(h, j).tpm == At(h, k).tpm
    ensures At(h, j).join == At(h, k).join
    ensures j >= 10 ==> At(h, j).context.seed == At(h, k).context.seed
    ensures j >= 17 ==> At(h, j).context.digest == At(h, k).context.digest
    decreases k - j
  {
    if j < k {
      JoinStep(e, h, top, j);
      JoinFixed(e, h, top, j + 1, k);
    }
  }

  lemma JoinStep(e: Env, h: History, top: nat, j: nat)
    requires Recording(e, h, JOIN, top) && 4 <= j < top && j < 22
    ensures JoinKept(At(h, j), j, At(h, j + 1))
  {
    RecordedStage(e, h, JOIN, top, j);
    var m := h.seen[j];
    JoinMiddle(e, m.before, j, m.in0, m.in1, m.random);
  }

  // ---- products

  /** What a product stage computed, if it succeeded. */
  lemma PowerValue(e: Env, s: Session, base: seq<byte>, in0: seq<byte>, in1: seq<byte>, y: nat, z: nat,
                   defined: bool)
    requires Power(e, s, base, in0, in1, y, z, defined).Value?
    ensures var v := Power(e, s, base, in0, in1, y, z, defined).v; var n := OfBytes(in1);
      && e.hash(in0) == base && e.hash(in1) == s.issuer.n && n > 0
      && v == PowMod(OfBytes(in0), y, n) * z % n && Fits(e, v)
  {}

  /** What a successful product stage tells about its inputs and its result `v`. */
  ghost predicate Multiplied(e: Env, issuer: Issuer, base: seq<byte>, in0: seq<byte>, in1: seq<byte>,
                             y: nat, z: nat, v: nat)
  {
    && e.hash(in0) == base && e.hash(in1) == issuer.n && OfBytes(in1) > 0
    && v == PowMod(OfBytes(in0), y, OfBytes(in1)) * z % OfBytes(in1)
  }

  lemma KeepValue(e: Env, s: Session, base: seq<byte>, in0: seq<byte>, in1: seq<byte>, y: nat, z: nat,
                  defined: bool)
    requires Keep(e, s, Power(e, s, base, in0, in1, y, z, defined)).Good?
    ensures Multiplied(e, s.issuer, base, in0, in1, y, z,
                       Scratch(Keep(e, s, Power(e, s, base, in0, in1, y, z, defined)).next))
  {
    PowerValue(e, s, base, in0, in1, y, z, defined);
    LittleRead(e, Power(e, s, base, in0, in1, y, z, defined).v);
  }

  lemma ReleaseValue(e: Env, s: Session, base: seq<byte>, in0: seq<byte>, in1: seq<byte>, y: nat, z: nat)
    requires Release(e, s, Power(e, s, base, in0, in1, y, z, true)).Good?
    ensures Multiplied(e, s.issuer, base, in0, in1, y, z,
                       OfBytes(Release(e, s, Power(e, s, base, in0, in1, y, z, true)).output))
  {
    PowerValue(e, s, base, in0, in1, y, z, true);
    OfToBytes(Power(e, s, base, in0, in1, y, z, true).v);
  }

  lemma ReleaseBoundValue(e: Env, s: Session, base: seq<byte>, in0: seq<byte>, in1: seq<byte>, y: nat, z: nat)
    requires ReleaseBound(e, s, Power(e, s, base, in0, in1, y, z, true)).Good?
    ensures Multiplied(e, s.issuer, base, in0, in1, y, z,
                       OfBytes(ReleaseBound(e, s, Power(e, s, base, in0, in1, y, z, true)).output))
  {
    PowerValue(e, s, base, in0, in1, y, z, true);
    BigRead(e, Power(e, s, base, in0, in1, y, z, true).v);
  }

  /** The value that stage `k` of the first or second Join product multiplies up to. */
  function JoinExponent(e: Env, s: Session, k: nat): nat {
    match k
    case 4 => F0(e, s)
    case 5 => F1(e, s)
    case 6 => U0(s)
    case 7 => U1(s)
    case 9 => R0(e, s)
    case 10 => R1(e, s)
    case 11 => R2(e, s)
    case _ => R3(e, s)
  }

  function Base(i: Issuer, k: nat): seq<byte> {
    match k
    case 4 => i.r0 case 9 => i.r0
    case 5 => i.r1 case 10 => i.r1
    case 6 => i.s0 case 11 => i.s0
    case _ => i.s1
  }

  /** The product that stage `k` leaves: in the scratch register, or returned at 7 and 12. */
  function Product(h: History, k: nat): nat {
    if k == 7 || k == 12 then Out(h, k) else Scratch(At(h, k + 1))
  }

  lemma JoinProductStage(e: Env, h: History, top: nat, k: nat)
    requires Recording(e, h, JOIN, top) && 4 <= k <= 12 && k != 8 && k < top
    ensures k in h.seen
    ensures var s := At(h, k + 1);
            Multiplied(e, s.issuer, Base(s.issuer, k), h.seen[k].in0, h.seen[k].in1, JoinExponent(e, s, k),
                       if k == 4 || k == 9 then 1 else Product(h, k - 1), Product(h, k))
  {
    RecordedStage(e, h, JOIN, top, k);
    var m := h.seen[k];
    if k == 4 || k == 9 {
      JoinProductFirst(e, m.before, k, m.in0, m.in1, m.random);
    } else if k == 7 || k == 12 {
      JoinProductLast(e, m.before, k, m.in0, m.in1, m.random);
    } else {
      JoinProductInner(e, m.before, k, m.in0, m.in1, m.random);
    }
  }

  lemma JoinProductFirst(e: Env, s: Session, k: nat, in0: seq<byte>, in1: seq<byte>, x: Random)
    requires k in {4, 9} && JoinStage(e, s, k, in0, in1, x).Good?
    ensures var r := JoinStage(e, s, k, in0, in1, x).next;
      r.issuer == s.issuer
      && Multiplied(e, s.issuer, Base(s.issuer, k), in0, in1, JoinExponent(e, r, k), 1, Scratch(r))
  {
    var t := if k == 9 then Seeded(s, x.first) else s;
    KeepValue(e, t, Base(s.issuer, k), in0, in1, JoinExponent(e, t, k), 1, k == 9 || Q(s) != 0);
  }

  lemma JoinProductInner(e: Env, s: Session, k: nat, in0: seq<byte>, in1: seq<byte>, x: Random)
    requires k in {5, 6, 10, 11} && JoinStage(e, s, k, in0, in1, x).Good?
    ensures var r := JoinStage(e, s, k, in0, in1, x).next;
      r.issuer == s.issuer
      && Multiplied(e, s.issuer, Base(s.issuer, k), in0, in1, JoinExponent(e, r, k), Scratch(s), Scratch(r))
  {
    KeepValue(e, s, Base(s.issuer, k), in0, in1, JoinExponent(e, s, k), Scratch(s), k != 5 || Q(s) != 0);
  }

  lemma JoinProductLast(e: Env, s: Session, k: nat, in0: seq<byte>, in1: seq<byte>, x: Random)
    requires k in {7, 12} && JoinStage(e, s, k, in0, in1, x).Good?
    ensures var Good(r, output) := JoinStage(e, s, k, in0, in1, x);
      r.issuer == s.issuer
      && Multiplied(e, s.issuer, Base(s.issuer, k), in0, in1, JoinExponent(e, r, k), Scratch(s), OfBytes(output))
  {
    if k == 7 {
      ReleaseBoundValue(e, s, s.issuer.s1, in0, in1, U1(s), Scratch(s));
    } else {
      ReleaseValue(e, s, s.issuer.s1, in0, in1, R3(e, s), Scratch(s));
    }
  }

  lemma SameExponent(e: Env, s: Session, t: Session, k: nat)
    requires s.issuer == t.issuer && s.tpm == t.tpm && s.join == t.join
    requires 4 <= k != 8 && (k >= 9 ==> s.context.seed == t.context.seed)
    ensures JoinExponent(e, s, k) == JoinExponent(e, t, k)
  {}

  /** Stage `k` of a product, in terms of a later session `s`. */
  lemma JoinFactor(e: Env, h: History, top: nat, k: nat, later: nat)
    requires Recording(e, h, JOIN, top) && 4 <= k <= 12 && k != 8 && k < later <= top && later <= 22
    ensures k in h.seen
    ensures var s := At(h, later);
            Multiplied(e, s.issuer, Base(s.issuer, k), h.seen[k].in0, h.seen[k].in1, JoinExponent(e, s, k),
                       if k == 4 || k == 9 then 1 else Product(h, k - 1), Product(h, k))
  {
    JoinProductStage(e, h, top, k);
    JoinFixed(e, h, top, k + 1, later);
    SameExponent(e, At(h, k + 1), At(h, later), k);
  }

  /** Stages 4 to 7 return U ≡ R0^f0 R1^f1 S0^u0 S1^u1 and stages 9 to 12 return
      U~ ≡ R0^r0 R1^r1 S0^r2 S1^r3, modulo the n they were given. */
  lemma JoinProducts(e: Env, h: History, top: nat, k: nat, later: nat)
    requires Recording(e, h, JOIN, top) && k in {4, 9} && k + 3 < later <= top && later <= 22
    ensures In1(h, k) > 0
    ensures var s := At(h, later);
      Cong(Out(h, k + 3),
              Quad(In0(h, k), In0(h, k + 1), In0(h, k + 2), In0(h, k + 3), JoinExponent(e, s, k),
                   JoinExponent(e, s, k + 1), JoinExponent(e, s, k + 2), JoinExponent(e, s, k + 3)), In1(h, k))
  {
    var s := At(h, later);
    JoinFactor(e, h, top, k, later);
    JoinFactor(e, h, top, k + 1, later);
    JoinFactor(e, h, top, k + 2, later);
    JoinFactor(e, h, top, k + 3, later);
    SameInput(e, h, JOIN, top, k, k + 1);
    SameInput(e, h, JOIN, top, k, k + 2);
    SameInput(e, h, JOIN, top, k, k + 3);
    FourFactors(In0(h, k), In0(h, k + 1), In0(h, k + 2), In0(h, k + 3), JoinExponent(e, s, k),
      JoinExponent(e, s, k + 1), JoinExponent(e, s, k + 2), JoinExponent(e, s, k + 3), In1(h, k),
      Product(h, k), Product(h, k + 1), Product(h, k + 2), Product(h, k + 3));
  }

  /** Both products use the same bases and modulus. */
  lemma JoinSameBases(e: Env, h: History, top: nat)
    requires Recording(e, h, JOIN, top) && 13 <= top
    ensures In1(h, 4) == In1(h, 9) && In0(h, 4) == In0(h, 9) && In0(h, 5) == In0(h, 10)
    ensures In0(h, 6) == In0(h, 11) && In0(h, 7) == In0(h, 12)
  {
    JoinSameBase(e, h, top, 4);
    JoinSameBase(e, h, top, 5);
    JoinSameBase(e, h, top, 6);
    JoinSameBase(e, h, top, 7);
  }

  lemma JoinSameBase(e: Env, h: History, top: nat, k: nat)
    requires Recording(e, h, JOIN, top) && 13 <= top && 4 <= k <= 7
    ensures In0(h, k) == In0(h, k + 5) && In1(h, k) == In1(h, k + 5)
  {
    JoinFactor(e, h, top, k, 13);
    JoinFactor(e, h, top, k + 5, 13);
    SameInput(e, h, JOIN, top, k, k + 5);
  }

  // ---- responses

  lemma DeliverValue(e: Env, s: Session, v: nat)
    requires Deliver(e, s, v).Good?
    ensures OfBytes(Deliver(e, s, v).output) == v && Deliver(e, s, v).next == Advance(s) && Fits(e, v)
  {
    OfToBytes(v);
  }

  /** What the five response stages computed, in terms of the session after them. */
  ghost predicate Responses(e: Env, h: History, s: Session, first: nat, r3: nat, v0: nat, v1: nat) {
    var c := Challenge(s);
    && Out(h, first) == Respond(R0(e, s), c, F0(e, s))
    && Out(h, first + 1) == Respond(R1(e, s), c, F1(e, s))
    && Out(h, first + 2) == Low(Respond(R2(e, s), c, v0), e.z.power1)
    && Out(h, first + 4) == Respond(r3, c, v1) + High(Respond(R2(e, s), c, v0), e.z.power1)
  }

  lemma S0Stage(e: Env, s: Session)
    requires SendS0(e, s).Good?
    ensures OfBytes(SendS0(e, s).output) == Respond(R0(e, s), Challenge(s), F0(e, s)) && Q(s) > 0
  {
    DeliverValue(e, s, Respond(R0(e, s), Challenge(s), F0(e, s)));
  }

  lemma S1Stage(e: Env, s: Session)
    requires SendS1(e, s).Good?
    ensures OfBytes(SendS1(e, s).output) == Respond(R1(e, s), Challenge(s), F1(e, s))
  {
    DeliverValue(e, s, Respond(R1(e, s), Challenge(s), F1(e, s)));
  }

  lemma S2Stage(e: Env, s: Session, v: nat)
    requires SendS2(e, s, v).Good?
    ensures OfBytes(SendS2(e, s, v).output) == Low(Respond(R2(e, s), Challenge(s), v), e.z.power1)
  {
    var s2 := Low(Respond(R2(e, s), Challenge(s), v), e.z.power1);
    DeliverValue(e, Store(s, Little(e, s2)), s2);
  }

  lemma S12Stage(e: Env, s: Session, v: nat, output: seq<byte>)
    requires KeepS12(e, s, v, output).Good?
    ensures var r := KeepS12(e, s, v, output);
      Scratch(r.next) == High(Respond(R2(e, s), Challenge(s), v), e.z.power1) && r.output == output
  {
    LittleRead(e, High(Respond(R2(e, s), Challenge(s), v), e.z.power1));
  }

  lemma S3Stage(e: Env, s: Session, r: nat, v: nat)
    requires SendS3(e, s, r, v).Good?
    ensures OfBytes(SendS3(e, s, r, v).output) == Respond(r, Challenge(s), v) + Scratch(s)
  {
    DeliverValue(e, Cleared(e, s), Respond(r, Challenge(s), v) + Scratch(s));
  }

  // ---- Join: the response stages

  lemma Join17(e: Env, h: History, top: nat)
    requires Recording(e, h, JOIN, top) && 17 < top
    ensures 17 in h.seen && SendS0(e, At(h, 17)) == Good(At(h, 18), h.seen[17].output)
  {
    RecordedStage(e, h, JOIN, top, 17);
  }

  lemma Join18(e: Env, h: History, top: nat)
    requires Recording(e, h, JOIN, top) && 18 < top
    ensures 18 in h.seen && SendS1(e, At(h, 18)) == Good(At(h, 19), h.seen[18].output)
  {
    RecordedStage(e, h, JOIN, top, 18);
  }

  lemma Join19(e: Env, h: History, top: nat)
    requires Recording(e, h, JOIN, top) && 19 < top
    ensures 19 in h.seen && SendS2(e, At(h, 19), U0(At(h, 19))) == Good(At(h, 20), h.seen[19].output)
  {
    RecordedStage(e, h, JOIN, top, 19);
  }

  lemma Join20(e: Env, h: History, top: nat)
    requires Recording(e, h, JOIN, top) && 20 < top
    ensures 20 in h.seen
    ensures KeepS12(e, At(h, 20), U0(At(h, 20)), At(h, 20).context.digest) == Good(At(h, 21), h.seen[20].output)
  {
    RecordedStage(e, h, JOIN, top, 20);
  }

  lemma Join21(e: Env, h: History, top: nat)
    requires Recording(e, h, JOIN, top) && 21 < top
    ensures 21 in h.seen && SendS3(e, At(h, 21), R3(e, At(h, 21)), U1(At(h, 21))) == Good(At(h, 22), h.seen[21].output)
  {
    RecordedStage(e, h, JOIN, top, 21);
  }

  lemma JoinS0(e: Env, h: History, top: nat)
    requires Recording(e, h, JOIN, top) && 22 <= top
    ensures var s := At(h, 22);
      Out(h, 17) == Respond(R0(e, s), Challenge(s), F0(e, s)) && Q(s) > 0
  {
    Join17(e, h, top);
    S0Stage(e, At(h, 17));
    JoinFixed(e, h, top, 17, 22);
  }

  lemma JoinS1(e: Env, h: History, top: nat)
    requires Recording(e, h, JOIN, top) && 22 <= top
    ensures var s := At(h, 22); Out(h, 18) == Respond(R1(e, s), Challenge(s), F1(e, s))
  {
    Join18(e, h, top);
    S1Stage(e, At(h, 18));
    JoinFixed(e, h, top, 18, 22);
  }

  lemma JoinS2(e: Env, h: History, top: nat)
    requires Recording(e, h, JOIN, top) && 22 <= top
    ensures var s := At(h, 22);
      Out(h, 19) == Low(Respond(R2(e, s), Challenge(s), U0(s)), e.z.power1)
  {
    Join19(e, h, top);
    S2Stage(e, At(h, 19), U0(At(h, 19)));
    JoinFixed(e, h, top, 19, 22);
  }

  lemma JoinS12(e: Env, h: History, top: nat)
    requires Recording(e, h, JOIN, top) && 22 <= top
    ensures var s := At(h, 22);
      Out(h, 20) == Challenge(s)
      && Scratch(At(h, 21)) == High(Respond(R2(e, s), Challenge(s), U0(s)), e.z.power1)
  {
    Join20(e, h, top);
    S12Stage(e, At(h, 20), U0(At(h, 20)), At(h, 20).context.digest);
    JoinFixed(e, h, top, 20, 22);
  }

  lemma JoinS3(e: Env, h: History, top: nat)
    requires Recording(e, h, JOIN, top) && 22 <= top
    ensures var s := At(h, 22); Out(h, 21) == Respond(R3(e, s), Challenge(s), U1(s)) + Scratch(At(h, 21))
  {
    Join21(e, h, top);
    S3Stage(e, At(h, 21), R3(e, At(h, 21)), U1(At(h, 21)));
    JoinFixed(e, h, top, 21, 22);
  }

  lemma JoinResponses(e: Env, h: History, top: nat)
    requires Recording(e, h, JOIN, top) && 22 <= top
    ensures var s := At(h, 22);
      Responses(e, h, s, 17, R3(e, s), U0(s), U1(s)) && Out(h, 20) == Challenge(s) && Q(s) > 0
  {
    JoinS0(e, h, top);
    JoinS1(e, h, top);
    JoinS2(e, h, top);
    JoinS12(e, h, top);
    JoinS3(e, h, top);
  }

  /** The numbers of a completed Join satisfy R0^s0 R1^s1 S0^s2 S1^s3 ≡ U~ U^c modulo n. */
  ghost predicate JoinVerifies(h: History) {
    Cong(Quad(In0(h, 4), In0(h, 5), In0(h, 6), In0(h, 7), Out(h, 17), Out(h, 18), Out(h, 19), Out(h, 21)),
         Out(h, 12) * Pow(Out(h, 7), Out(h, 20)), In1(h, 4))
  }

  /** The issuer's S1 is S0^(2^power1). */
  ghost predicate JoinBasesFit(e: Env, h: History) {
    Cong(In0(h, 7), Pow(In0(h, 6), Two(e.z.power1)), In1(h, 4))
  }

  lemma JoinHistoryEquation(e: Env, h: History)
    requires Recording(e, h, JOIN, 22) && JoinBasesFit(e, h)
    ensures JoinVerifies(h)
  {
    var s := At(h, 22);
    JoinProducts(e, h, 22, 4, 22);
    JoinProducts(e, h, 22, 9, 22);
    JoinSameBases(e, h, 22);
    JoinResponses(e, h, 22);
    LowHigh(Respond(R2(e, s), Challenge(s), U0(s)), e.z.power1);
    RespondIs(R0(e, s), Challenge(s), F0(e, s));
    RespondIs(R1(e, s), Challenge(s), F1(e, s));
    RespondIs(R2(e, s), Challenge(s), U0(s));
    RespondIs(R3(e, s), Challenge(s), U1(s));
    Verification(In0(h, 4), In0(h, 5), In0(h, 6), In0(h, 7), In1(h, 4), Two(e.z.power1), Challenge(s),
      R0(e, s), R1(e, s), R2(e, s), R3(e, s), F0(e, s), F1(e, s), U0(s), U1(s), Out(h, 12), Out(h, 7),
      Out(h, 17), Out(h, 18), Respond(R2(e, s), Challenge(s), U0(s)), Out(h, 19), Out(h, 21));
  }

  /** For every run without a hash collision in which a Join has passed stage 21. */
  lemma {:induction false} JoinEquation(e: Env, actions: seq<Action>, h: History)
    requires Marshals(e) && h == Run(e, actions).h && Collisionless(e, h.hashed)
    requires h.mode == JOIN && h.top >= 22 && JoinBasesFit(e, h)
    ensures JoinVerifies(h)
  {
    RunRecords(e, actions, h, 22);
    JoinHistoryEquation(e, h);
  }

  // ---- the equation in w

  /** What the three stages on w returned: E ≡ w^f and E1 ≡ w^r for an element w whose order
      divides q. */
  ghost predicate OnW(e: Env, s: Session, w: nat, gamma: nat, big: nat, big1: nat) {
    && gamma > 0 && Q(s) > 0 && Cong(Pow(w, Q(s)), 1, gamma)
    && Cong(big, Pow(w, Secret(e, s)), gamma) && Cong(big1, Pow(w, BlindExponent(e, s)), gamma)
  }

  lemma WStage(e: Env, s: Session, in0: seq<byte>, in1: seq<byte>)
    requires CheckW(e, s, in0, in1).Good?
    ensures e.hash(in0) == s.issuer.gamma && OfBytes(in0) > 0
    ensures Cong(Pow(OfBytes(in1), Q(s)), 1, OfBytes(in0))
    ensures Scratch(CheckW(e, s, in0, in1).next) == OfBytes(in1)
  {
    LittleRead(e, OfBytes(in1));
    PowModCong(OfBytes(in1), Q(s), OfBytes(in0));
    CongSym(1, Pow(OfBytes(in1), Q(s)), OfBytes(in0));
  }

  lemma EStage(e: Env, s: Session, in0: seq<byte>)
    requires SendE(e, s, in0).Good?
    ensures e.hash(in0) == s.issuer.gamma && OfBytes(in0) > 0 && Q(s) > 0
    ensures Cong(OfBytes(SendE(e, s, in0).output), Pow(Scratch(s), Secret(e, s)), OfBytes(in0))
    ensures Scratch(SendE(e, s, in0).next) == Scratch(s)
  {
    PowModCong(Scratch(s), Secret(e, s), OfBytes(in0));
    OfToBytes(PowMod(Scratch(s), Secret(e, s), OfBytes(in0)));
  }

  lemma E1Stage(e: Env, s: Session, in0: seq<byte>)
    requires SendE1(e, s, in0).Good?
    ensures e.hash(in0) == s.issuer.gamma && OfBytes(in0) > 0
    ensures Cong(OfBytes(SendE1(e, s, in0).output), Pow(Scratch(s), BlindExponent(e, s)), OfBytes(in0))
  {
    PowModCong(Scratch(s), BlindExponent(e, s), OfBytes(in0));
    OfToBytes(PowMod(Scratch(s), BlindExponent(e, s), OfBytes(in0)));
  }

  /** Two halves of the secret, two responses, one equation. */
  lemma WEquation(e: Env, s: Session, w: nat, gamma: nat, big: nat, big1: nat, s0: nat, s1: nat)
    requires OnW(e, s, w, gamma, big, big1)
    requires s0 == Respond(R0(e, s), Challenge(s), F0(e, s))
    requires s1 == Respond(R1(e, s), Challenge(s), F1(e, s))
    ensures Cong(Pow(w, s0 + Shift(s1, e.z.power0)), big1 * Pow(big, Challenge(s)), gamma)
  {
    ShiftIs(s1, e.z.power0);
    ShiftIs(R1(e, s), e.z.power0);
    RespondIs(R0(e, s), Challenge(s), F0(e, s));
    RespondIs(R1(e, s), Challenge(s), F1(e, s));
    MulNonNegative(Two(e.z.power0), R1(e, s));
    LowHigh(Secret(e, s), e.z.power0);
    Pseudonym(w, Q(s), gamma, Two(e.z.power0), Challenge(s), R0(e, s), R1(e, s), Secret(e, s),
      F0(e, s), F1(e, s), s0, s1, BlindExponent(e, s), big, big1);
  }

  lemma Join13(e: Env, h: History, top: nat)
    requires Recording(e, h, JOIN, top) && 13 < top
    ensures 13 in h.seen && CheckW(e, At(h, 13), h.seen[13].in0, h.seen[13].in1) == Good(At(h, 14), h.seen[13].output)
  {
    RecordedStage(e, h, JOIN, top, 13);
  }

  lemma Join14(e: Env, h: History, top: nat)
    requires Recording(e, h, JOIN, top) && 14 < top
    ensures 14 in h.seen && SendE(e, At(h, 14), h.seen[14].in0) == Good(At(h, 15), h.seen[14].output)
  {
    RecordedStage(e, h, JOIN, top, 14);
  }

  lemma Join15(e: Env, h: History, top: nat)
    requires Recording(e, h, JOIN, top) && 15 < top
    ensures 15 in h.seen && SendE1(e, At(h, 15), h.seen[15].in0) == Good(At(h, 16), h.seen[15].output)
  {
    RecordedStage(e, h, JOIN, top, 15);
  }

  lemma JoinW(e: Env, h: History, top: nat)
    requires Recording(e, h, JOIN, top) && 22 <= top
    ensures var s := At(h, 22); 13 in h.seen && e.hash(h.seen[13].in0) == s.issuer.gamma && In0(h, 13) > 0
    ensures Cong(Pow(In1(h, 13), Q(At(h, 22))), 1, In0(h, 13)) && Scratch(At(h, 14)) == In1(h, 13)
  {
    Join13(e, h, top);
    WStage(e, At(h, 13), h.seen[13].in0, h.seen[13].in1);
    JoinFixed(e, h, top, 13, 22);
  }

  lemma JoinE(e: Env, h: History, top: nat)
    requires Recording(e, h, JOIN, top) && 22 <= top
    ensures var s := At(h, 22); 14 in h.seen && e.hash(h.seen[14].in0) == s.issuer.gamma && Q(s) > 0
    ensures Cong(Out(h, 14), Pow(Scratch(At(h, 14)), Secret(e, At(h, 22))), In0(h, 14))
    ensures Scratch(At(h, 15)) == Scratch(At(h, 14))
  {
    Join14(e, h, top);
    EStage(e, At(h, 14), h.seen[14].in0);
    JoinFixed(e, h, top, 14, 22);
  }

  lemma JoinE1(e: Env, h: History, top: nat)
    requires Recording(e, h, JOIN, top) && 22 <= top
    ensures var s := At(h, 22); 15 in h.seen && e.hash(h.seen[15].in0) == s.issuer.gamma
    ensures Cong(Out(h, 15), Pow(Scratch(At(h, 15)), BlindExponent(e, At(h, 22))), In0(h, 15))
  {
    Join15(e, h, top);
    E1Stage(e, At(h, 15), h.seen[15].in0);
    JoinFixed(e, h, top, 15, 22);
  }

  lemma JoinOnW(e: Env, h: History, top: nat)
    requires Recording(e, h, JOIN, top) && 22 <= top
    ensures OnW(e, At(h, 22), In1(h, 13), In0(h, 13), Out(h, 14), Out(h, 15))
  {
    JoinW(e, h, top);
    JoinE(e, h, top);
    JoinE1(e, h, top);
    SameInput(e, h, JOIN, top, 13, 14);
    SameInput(e, h, JOIN, top, 13, 15);
  }

  /** The numbers of a completed Join satisfy w^(s0 + 2^power0 s1) ≡ E1 E^c modulo gamma. */
  ghost predicate JoinPseudonymHolds(e: Env, h: History) {
    Cong(Pow(In1(h, 13), Out(h, 17) + Shift(Out(h, 18), e.z.power0)),
         Out(h, 15) * Pow(Out(h, 14), Out(h, 20)), In0(h, 13))
  }

  lemma JoinHistoryPseudonym(e: Env, h: History)
    requires Recording(e, h, JOIN, 22)
    ensures JoinPseudonymHolds(e, h)
  {
    JoinOnW(e, h, 22);
    JoinResponses(e, h, 22);
    WEquation(e, At(h, 22), In1(h, 13), In0(h, 13), Out(h, 14), Out(h, 15), Out(h, 17), Out(h, 18));
  }

  /** Every run without a hash collision, whatever else was called, gives a recording of the
      session it opened last. */
  lemma {:induction false} RunRecords(e: Env, actions: seq<Action>, h: History, top: nat)
    requires Marshals(e) && h == Run(e, actions).h && Collisionless(e, h.hashed) && 2 <= top <= h.top
    ensures Recording(e, h, h.mode, top)
  {
    RunInvariant(e, actions);
  }

  /** For every run without a hash collision in which a Join has passed stage 21. */
  lemma {:induction false} JoinPseudonym(e: Env, actions: seq<Action>, h: History)
    requires Marshals(e) && h == Run(e, actions).h && Collisionless(e, h.hashed)
    requires h.mode == JOIN && h.top >= 22
    ensures JoinPseudonymHolds(e, h)
  {
    RunRecords(e, actions, h, 22);
    JoinHistoryPseudonym(e, h);
  }
}
