/** The stages of `TPM_DAA_Join` and `TPM_DAA_Sign` (tpm-emulator/tpm/tpm_daa.c) as functions on
    a DAA session: what each stage checks, what it keeps in the session and what it returns. */
module Daa {
  import opened NumberTheory
  import opened Bytes
  import opened Rsa

  /** Sizes in bytes and exponent splits; SOURCE_SIZES holds the values of the emulator. */
  datatype Sizes = Sizes(
    power0: nat, power1: nat,
    r0: nat, r1: nat, r2: nat, r3: nat, r4: nat,
    nt: nat, v0: nat, v1: nat, ne: nat, w: nat, modulus: nat, scratch: nat)

  const SOURCE_SIZES: Sizes :=
    Sizes(104, 1024, 43, 43, 128, 168, 219, 20, 128, 192, 256, 256, 256, 256)

  const DIGEST: nat := 20
  const TAG_ISSUER: nat := 0x002F
  const TAG_TPM: nat := 0x0032
  const TAG_CONTEXT: nat := 0x002D
  const TAG_SENSITIVE: nat := 0x0031
  const RT_DAA_TPM: nat := 8
  const RT_DAA_V0: nat := 9
  const RT_DAA_V1: nat := 10
  const ST_INVALID: nat := 0
  const ST_DAA: nat := 8

  /** TPM_DAA_ISSUER: digests of the issuer's public values, and the order q. */
  datatype Issuer = Issuer(tag: nat, r0: seq<byte>, r1: seq<byte>, s0: seq<byte>, s1: seq<byte>,
                           n: seq<byte>, gamma: seq<byte>, q: seq<byte>)

  /** TPM_DAA_TPM. */
  datatype Specific = Specific(tag: nat, issuer: seq<byte>, v0: seq<byte>, v1: seq<byte>,
                               rekey: seq<byte>, count: nat)

  /** TPM_DAA_CONTEXT. */
  datatype Context = Context(tag: nat, context: seq<byte>, digest: seq<byte>, seed: seq<byte>,
                             scratch: seq<byte>, stage: nat)

  /** TPM_DAA_JOINDATA. */
  datatype JoinData = JoinData(u0: seq<byte>, u1: seq<byte>, n0: seq<byte>)

  /** TPM_DAA_SESSION_DATA. */
  datatype Session = Session(kind: nat, issuer: Issuer, tpm: Specific, context: Context,
                             join: JoinData, handle: nat)

  /** An unwrapped TPM_DAA_BLOB. */
  datatype Blob = BadFormat | BadDecryption | BadIntegrity
                | Opened(resource: nat, tag: nat, data: seq<byte>)

  /** What the stages use from the rest of the TPM: the hash, mask generation, the host's byte
      order of DAA_count, the DAA seed, signature checking with the issuer's keys, decryption
      with the endorsement key, identity keys, the wrapping of blobs, and the marshalling of the
      three settings structures (see Marshals). */
  datatype Env = Env(
    z: Sizes,
    hash: seq<byte> -> seq<byte>,
    mask: (seq<byte>, nat) -> seq<byte>,
    hostCount: nat -> seq<byte>,
    seed: seq<byte>,
    signed: (seq<byte>, seq<byte>, seq<byte>) -> bool,
    decrypted: seq<byte> -> Blob,
    identity: seq<byte> -> Blob,
    wrap: (nat, seq<byte>, seq<byte>) -> seq<byte>,
    unwrap: seq<byte> -> Blob,
    ofSpecific: Specific -> seq<byte>,
    ofJoin: JoinData -> seq<byte>,
    ofIssuer: Issuer -> seq<byte>)

  /** Random bytes drawn during a call. */
  datatype Random = Random(first: seq<byte>, second: seq<byte>)

  /** Undefined stands for the calls whose C behaviour is undefined: a zero modulus, or a number
      that does not fit its buffer. */
  datatype Code = STAGE | ISSUER_SETTINGS | TPM_SETTINGS | INPUT_DATA0 | INPUT_DATA1
                | ISSUER_VALIDITY | WRONG_W | DECRYPT_ERROR | RESOURCES | BAD_HANDLE
                | AUTHFAIL | UNDEFINED

  datatype Effect = Bad(code: Code) | Good(next: Session, output: seq<byte>)

  // ---- encodings

  /** A byte-array field of a fixed size. */
  function Field(s: seq<byte>, k: nat): (f: seq<byte>)
    ensures |f| == k && (|s| == k ==> f == s)
  {
    if |s| >= k then s[..k] else s + Zeros(k - |s|)
  }

  /** TPM_DAA_TPM marshalled into a zeroed buffer of the size of the C structure. */
  function SpecificBytes(t: Specific): (b: seq<byte>)
    ensures |b| == 88
  {
    Be(t.tag, 2) + Field(t.issuer, DIGEST) + Field(t.v0, DIGEST) + Field(t.v1, DIGEST)
      + Field(t.rekey, DIGEST) + Be(t.count, 4) + Zeros(2)
  }

  function SpecificOf(b: seq<byte>): Specific
    requires |b| >= 86
  {
    Specific(OfBytes(b[0..2]), b[2..22], b[22..42], b[42..62], b[62..82], OfBytes(b[82..86]))
  }

  function JoinBytes(j: JoinData): (b: seq<byte>)
    ensures |b| == 286
  {
    Field(j.u0, 128) + Field(j.u1, 138) + Field(j.n0, DIGEST)
  }

  function IssuerBytes(i: Issuer): (b: seq<byte>)
    ensures |b| == 148
  {
    Be(i.tag, 2) + Field(i.r0, DIGEST) + Field(i.r1, DIGEST) + Field(i.s0, DIGEST)
      + Field(i.s1, DIGEST) + Field(i.n, DIGEST) + Field(i.gamma, DIGEST) + Field(i.q, 26)
  }

  function IssuerOf(b: seq<byte>): Issuer
    requires |b| == 148
  {
    Issuer(OfBytes(b[0..2]), b[2..22], b[22..42], b[42..62], b[62..82], b[82..102], b[102..122],
           b[122..148])
  }

  /** Marks a structure whose bytes are looked into. */
  predicate Bytewise<T(!new)>(t: T) {
    true
  }

  /** The marshalling functions are the encodings above. */
  ghost predicate Marshals(e: Env) {
    && (forall t {:trigger Bytewise<Specific>(t)} :: Bytewise<Specific>(t) ==> e.ofSpecific(t) == SpecificBytes(t))
    && (forall j {:trigger Bytewise<JoinData>(j)} :: Bytewise<JoinData>(j) ==> e.ofJoin(j) == JoinBytes(j))
    && (forall i {:trigger Bytewise<Issuer>(i)} :: Bytewise<Issuer>(i) ==> e.ofIssuer(i) == IssuerBytes(i))
  }

  function JoinInput(e: Env, s: Session): seq<byte> {
    e.ofSpecific(s.tpm) + e.ofJoin(s.join)
  }

  function SignInput(e: Env, s: Session): seq<byte> {
    e.ofSpecific(s.tpm)
  }

  /** `memset(session, 0, sizeof(TPM_DAA_SESSION_DATA))`. */
  function Blank(e: Env): Session {
    Session(ST_INVALID, NoIssuer(0), NoSpecific(0), NoContext(e, 0), NoJoin(), 0)
  }

  function NoIssuer(tag: nat): Issuer {
    var d := Zeros(DIGEST);
    Issuer(tag, d, d, d, d, d, d, Zeros(26))
  }

  function NoSpecific(tag: nat): Specific {
    var d := Zeros(DIGEST);
    Specific(tag, d, d, d, d, 0)
  }

  function NoContext(e: Env, tag: nat): Context {
    var d := Zeros(DIGEST);
    Context(tag, d, d, d, Zeros(e.z.scratch), 0)
  }

  function NoJoin(): JoinData {
    JoinData(Zeros(128), Zeros(138), Zeros(DIGEST))
  }

  // ---- big numbers

  predicate Fits(e: Env, v: nat) {
    |ToBytes(v)| <= e.z.scratch
  }

  /** A scratch register that holds `v`, least significant byte first. */
  function Little(e: Env, v: nat): seq<byte> {
    Le(v, e.z.scratch)
  }

  function Big(e: Env, v: nat): seq<byte> {
    Be(v, e.z.scratch)
  }

  function Scratch(s: Session): nat {
    OfLe(s.context.scratch)
  }

  lemma LittleRead(e: Env, v: nat)
    requires Fits(e, v)
    ensures OfLe(Little(e, v)) == v
  {
    ToBytesLength(v, e.z.scratch);
    OfLeLe(v, e.z.scratch);
  }

  lemma BigRead(e: Env, v: nat)
    requires Fits(e, v)
    ensures OfBytes(Big(e, v)) == v
  {
    ToBytesLength(v, e.z.scratch);
    OfBe(v, e.z.scratch);
  }

  function Q(s: Session): nat {
    OfBytes(s.issuer.q)
  }

  /** f = (H(rekey || count || 0) || H(rekey || count || 1)) mod q. */
  function Secret(e: Env, s: Session): nat {
    var base := s.tpm.rekey + e.hostCount(s.tpm.count);
    var f := OfBytes(e.hash(base + [0]) + e.hash(base + [1]));
    if Q(s) == 0 then f else f % Q(s)
  }

  function Two(k: nat): (p: nat)
    ensures p > 0
  {
    PowPositive(2, k);
    Pow(2, k)
  }

  /** The low `k` bits. */
  function Low(v: nat, k: nat): nat {
    if k == 0 then 0 else v % 2 + 2 * Low(v / 2, k - 1)
  }

  /** The rest, shifted right by `k` bits. */
  function High(v: nat, k: nat): nat {
    if k == 0 then v else High(v / 2, k - 1)
  }

  /** Shifted left by `k` bits. */
  function Shift(v: nat, k: nat): nat {
    if k == 0 then v else 2 * Shift(v, k - 1)
  }

  lemma {:induction false} ShiftIs(v: nat, k: nat)
    ensures Shift(v, k) == Two(k) * v
  {
    if k > 0 {
      ShiftIs(v, k - 1);
      assert Two(k) * v == 2 * (Two(k - 1) * v);
    }
  }

  /** Low and high bits together are the number. */
  lemma {:induction false} LowShift(v: nat, k: nat)
    ensures Low(v, k) + Shift(High(v, k), k) == v
  {
    if k > 0 { LowShift(v / 2, k - 1); }
  }

  /** Keeping the low bits is the remainder of `tpm_bn_mod`, dropping them the quotient of
      `tpm_bn_fdiv_q_2exp`. */
  lemma {:induction false} LowHigh(v: nat, k: nat)
    ensures Low(v, k) == v % Two(k) && High(v, k) == v / Two(k)
  {
    if k > 0 {
      LowHigh(v / 2, k - 1);
      var m := Two(k - 1);
      var q, r := DivMod(v / 2, m);
      assert q * (2 * m) == 2 * (q * m);
      Quotient(v, q, v % 2 + 2 * r, 2 * m);
    }
  }

  /** c v by repeated addition, a form that the solver does not multiply out. */
  function Times(c: nat, v: nat): nat {
    if v == 0 then 0 else c + Times(c, v - 1)
  }

  /** r + c v. */
  function Respond(r: nat, c: nat, v: nat): nat {
    r + Times(c, v)
  }

  lemma {:induction false} TimesIs(c: nat, v: nat)
    ensures Times(c, v) == c * v
  {
    if v > 0 {
      TimesIs(c, v - 1);
      assert c * v == c + c * (v - 1);
    }
  }

  lemma RespondIs(r: nat, c: nat, v: nat)
    ensures Respond(r, c, v) == r + c * v
  {
    TimesIs(c, v);
  }

  function F0(e: Env, s: Session): nat {
    Low(Secret(e, s), e.z.power0)
  }

  function F1(e: Env, s: Session): nat {
    High(Secret(e, s), e.z.power0)
  }

  /** The blinding value with the given digit in its label, regenerated from the seed. */
  function Blind(e: Env, seed: seq<byte>, digit: byte, size: nat): nat {
    OfBytes(e.mask([0x72, digit] + seed, size))
  }

  function R0(e: Env, s: Session): nat {
    Blind(e, s.context.seed, 0x30, e.z.r0)
  }

  function R1(e: Env, s: Session): nat {
    Blind(e, s.context.seed, 0x31, e.z.r1)
  }

  function R2(e: Env, s: Session): nat {
    Blind(e, s.context.seed, 0x32, e.z.r2)
  }

  function R3(e: Env, s: Session): nat {
    Blind(e, s.context.seed, 0x33, e.z.r3)
  }

  function R4(e: Env, s: Session): nat {
    Blind(e, s.context.seed, 0x34, e.z.r4)
  }

  function U0(s: Session): nat {
    OfBytes(s.join.u0)
  }

  function U1(s: Session): nat {
    OfBytes(s.join.u1)
  }

  /** DAA_session->DAA_digest as the challenge c. */
  function Challenge(s: Session): nat {
    OfBytes(s.context.digest)
  }

  // ---- the checks that open a stage

  predicate IssuerMatches(e: Env, s: Session) {
    e.hash(e.ofIssuer(s.issuer)) == s.tpm.issuer
  }

  predicate JoinMatches(e: Env, s: Session) {
    e.hash(JoinInput(e, s)) == s.context.context
  }

  predicate SignMatches(e: Env, s: Session) {
    e.hash(SignInput(e, s)) == s.context.context
  }

  function WithContext(s: Session, c: Context): Session {
    s.(context := c)
  }

  function Store(s: Session, scratch: seq<byte>): Session {
    s.(context := s.context.(scratch := scratch))
  }

  function Cleared(e: Env, s: Session): Session {
    Store(s, Zeros(e.z.scratch))
  }

  function Digested(s: Session, d: seq<byte>): Session {
    s.(context := s.context.(digest := d))
  }

  function Advance(s: Session): Session {
    s.(context := s.context.(stage := s.context.stage + 1))
  }

  /** `tpm_daa_update_digestContext`. */
  function SealJoin(e: Env, s: Session): Session {
    s.(context := s.context.(context := e.hash(JoinInput(e, s))))
  }

  /** `tpm_daa_update_digestContext_sign`. */
  function SealSign(e: Env, s: Session): Session {
    s.(context := s.context.(context := e.hash(SignInput(e, s))))
  }

  // ---- kinds of stages

  datatype Number = Wrong(code: Code) | Value(v: nat)

  /** Z * X^Y mod n, after checking the digests of X and n; `defined` is false where the
      exponent itself was undefined. */
  function Power(e: Env, s: Session, base: seq<byte>, in0: seq<byte>, in1: seq<byte>, y: nat, z: nat,
                 defined: bool): Number
  {
    if e.hash(in0) != base then Wrong(INPUT_DATA0)
    else if e.hash(in1) != s.issuer.n then Wrong(INPUT_DATA1)
    else
      var n := OfBytes(in1);
      if n == 0 || !defined then Wrong(UNDEFINED)
      else
        var v := PowMod(OfBytes(in0), y, n) * z % n;
        if Fits(e, v) then Value(v) else Wrong(UNDEFINED)
  }

  /** A partial product is kept in the scratch register. */
  function Keep(e: Env, s: Session, v: Number): Effect {
    match v
    case Wrong(c) => Bad(c)
    case Value(x) => Good(Advance(Store(s, Little(e, x))), [])
  }

  /** A complete product is returned and the scratch register cleared. */
  function Release(e: Env, s: Session, v: Number): Effect {
    match v
    case Wrong(c) => Bad(c)
    case Value(x) => Good(Advance(Cleared(e, s)), ToBytes(x))
  }

  /** Stage 7 also binds the product into the digest. */
  function ReleaseBound(e: Env, s: Session, v: Number): Effect {
    match v
    case Wrong(c) => Bad(c)
    case Value(x) =>
      var d := e.hash(Big(e, x) + Be(s.tpm.count, 4) + s.join.n0);
      Good(Advance(Cleared(e, Digested(s, d))), Big(e, x))
  }

  /** A number is returned. */
  function Deliver(e: Env, s: Session, v: nat): Effect {
    if Fits(e, v) then Good(Advance(s), ToBytes(v)) else Bad(UNDEFINED)
  }

  function CheckW(e: Env, s: Session, in0: seq<byte>, in1: seq<byte>): Effect {
    if e.hash(in0) != s.issuer.gamma then Bad(INPUT_DATA0)
    else if |in1| != e.z.w then Bad(INPUT_DATA1)
    else if OfBytes(in0) == 0 || !Fits(e, OfBytes(in1)) then Bad(UNDEFINED)
    else if PowMod(OfBytes(in1), Q(s), OfBytes(in0)) != 1 then Bad(WRONG_W)
    else Good(Advance(Store(s, Little(e, OfBytes(in1)))), [])
  }

  function PowerOfW(e: Env, s: Session, in0: seq<byte>, y: nat): Number {
    if e.hash(in0) != s.issuer.gamma then Wrong(INPUT_DATA0)
    else if OfBytes(in0) == 0 || Q(s) == 0 then Wrong(UNDEFINED)
    else
      var v := PowMod(Scratch(s), y, OfBytes(in0));
      if Fits(e, v) then Value(v) else Wrong(UNDEFINED)
  }

  function SendE(e: Env, s: Session, in0: seq<byte>): Effect {
    match PowerOfW(e, s, in0, Secret(e, s))
    case Wrong(c) => Bad(c)
    case Value(x) => Good(Advance(s), ToBytes(x))
  }

  /** r = (2^power0 * r1 mod q + r0) mod q. */
  function BlindExponent(e: Env, s: Session): nat {
    if Q(s) == 0 then 0 else (Shift(R1(e, s), e.z.power0) % Q(s) + R0(e, s)) % Q(s)
  }

  function SendE1(e: Env, s: Session, in0: seq<byte>): Effect {
    match PowerOfW(e, s, in0, BlindExponent(e, s))
    case Wrong(c) => Bad(c)
    case Value(x) => Good(Advance(Cleared(e, s)), ToBytes(x))
  }

  function SendNonce(e: Env, s: Session, in0: seq<byte>, x: Random): Effect {
    if |in0| != DIGEST then Bad(INPUT_DATA0)
    else Good(Advance(Digested(s, e.hash(in0 + x.first))), x.first)
  }

  function SendS0(e: Env, s: Session): Effect {
    if Q(s) == 0 then Bad(UNDEFINED)
    else Deliver(e, s, Respond(R0(e, s), Challenge(s), F0(e, s)))
  }

  function SendS1(e: Env, s: Session): Effect {
    if Q(s) == 0 then Bad(UNDEFINED)
    else Deliver(e, s, Respond(R1(e, s), Challenge(s), F1(e, s)))
  }

  /** s2 is the low part of r2 + c * v. */
  function SendS2(e: Env, s: Session, v: nat): Effect {
    var s2 := Low(Respond(R2(e, s), Challenge(s), v), e.z.power1);
    Deliver(e, Store(s, Little(e, s2)), s2)
  }

  /** s12 is the high part, kept for the next stage. */
  function KeepS12(e: Env, s: Session, v: nat, output: seq<byte>): Effect {
    var s12 := High(Respond(R2(e, s), Challenge(s), v), e.z.power1);
    if Fits(e, s12) then Good(Advance(Store(s, Little(e, s12))), output) else Bad(UNDEFINED)
  }

  function SendS3(e: Env, s: Session, r: nat, v: nat): Effect {
    Deliver(e, Cleared(e, s), Respond(r, Challenge(s), v) + Scratch(s))
  }

  // ---- TPM_DAA_Join

  function JoinOpen(e: Env, handle: nat, in0: seq<byte>): Effect {
    if |in0| != 4 || OfBytes(in0) == 0 then Bad(INPUT_DATA0)
    else
      var t := NoSpecific(TAG_TPM).(count := OfBytes(in0));
      var s := SealJoin(e, Session(ST_DAA, NoIssuer(TAG_ISSUER), t, NoContext(e, TAG_CONTEXT), NoJoin(), handle));
      Good(s.(context := s.context.(stage := 1)), Be(handle, 4))
  }

  /** Stage 1: the first key fixes n0 and rekey, each further key must be signed by the one
      before; the count runs down and its last call moves on. */
  function JoinKey(e: Env, s: Session, in0: seq<byte>, in1: seq<byte>): Effect {
    if |in0| != e.z.modulus then Bad(INPUT_DATA0)
    else if s.context.scratch == Zeros(e.z.scratch) then
      var scratch := Field(in0, e.z.scratch);
      var n0 := e.hash(scratch);
      var t := s.tpm.(rekey := e.hash(e.seed + n0));
      Good(CountDown(e, Store(s, scratch).(tpm := t, join := s.join.(n0 := n0))), [])
    else if |in1| != e.z.modulus then Bad(INPUT_DATA1)
    else if !e.signed(s.context.scratch, in0, in1) then Bad(ISSUER_VALIDITY)
    else Good(CountDown(e, Store(s, Field(in0, e.z.scratch))), [])
  }

  function CountDown(e: Env, s: Session): Session {
    var count := if s.tpm.count == 0 then 0xffffffff else s.tpm.count - 1;
    var t := s.(tpm := s.tpm.(count := count));
    SealJoin(e, if count == 0 then Advance(t) else t)
  }

  function JoinSettings(e: Env, s: Session, in0: seq<byte>, in1: seq<byte>): Effect {
    if |in0| != 148 then Bad(INPUT_DATA0)
    else if IssuerOf(in0).tag != TAG_ISSUER then Bad(INPUT_DATA0)
    else if |in1| != e.z.modulus then Bad(INPUT_DATA1)
    else if !e.signed(s.context.scratch, s.join.n0 + in0, in1) then Bad(ISSUER_VALIDITY)
    else
      var i := IssuerOf(in0);
      var t := s.tpm.(issuer := e.hash(e.ofIssuer(i)));
      Good(Advance(Cleared(e, SealJoin(e, s.(issuer := i, tpm := t)))), [])
  }

  function JoinSecrets(e: Env, s: Session, in0: seq<byte>, x: Random): Effect {
    if |in0| != 4 then Bad(INPUT_DATA0)
    else
      var t := s.tpm.(count := OfBytes(in0));
      Good(SealJoin(e, Advance(s.(tpm := t, join := s.join.(u0 := x.first, u1 := x.second)))), [])
  }

  function JoinEndorse(e: Env, s: Session, in0: seq<byte>): Effect {
    if |in0| != e.z.ne then Bad(INPUT_DATA0)
    else
      match e.decrypted(in0)
      case Opened(_, _, data) =>
        Good(Advance(Digested(s, Zeros(DIGEST))), e.hash(s.context.digest + data))
      case _ => Bad(DECRYPT_ERROR)
  }

  function Seeded(s: Session, seed: seq<byte>): Session {
    s.(context := s.context.(seed := seed))
  }

  /** Stages 4 to 7 build U, stages 9 to 12 build U~. */
  function JoinProduct(e: Env, s: Session, k: nat, in0: seq<byte>, in1: seq<byte>, x: Random): Effect {
    var i := s.issuer;
    var t := if k == 9 then Seeded(s, x.first) else s;
    var q := Q(s) != 0;
    match k
    case 4 => Keep(e, s, Power(e, s, i.r0, in0, in1, F0(e, s), 1, q))
    case 5 => Keep(e, s, Power(e, s, i.r1, in0, in1, F1(e, s), Scratch(s), q))
    case 6 => Keep(e, s, Power(e, s, i.s0, in0, in1, U0(s), Scratch(s), true))
    case 7 => ReleaseBound(e, s, Power(e, s, i.s1, in0, in1, U1(s), Scratch(s), true))
    case 9 => Keep(e, t, Power(e, t, i.r0, in0, in1, R0(e, t), 1, true))
    case 10 => Keep(e, s, Power(e, s, i.r1, in0, in1, R1(e, s), Scratch(s), true))
    case 11 => Keep(e, s, Power(e, s, i.s0, in0, in1, R2(e, s), Scratch(s), true))
    case _ => Release(e, s, Power(e, s, i.s1, in0, in1, R3(e, s), Scratch(s), true))
  }

  function V0(e: Env, s: Session, in0: seq<byte>): nat {
    Low(OfBytes(in0) + U0(s), e.z.power1)
  }

  function V1(s: Session, in0: seq<byte>): nat {
    OfBytes(in0) + U1(s) + Scratch(s)
  }

  /** Stage 22: v0 is the low part of u2 + u0; the carry is kept for stage 23. */
  function JoinV0(e: Env, s: Session, in0: seq<byte>, x: Random): Effect {
    if |in0| != e.z.v0 then Bad(INPUT_DATA0)
    else
      var v0, v10 := V0(e, s, in0), High(OfBytes(in0) + U0(s), e.z.power1);
      if !Fits(e, v0) || !Fits(e, v10) then Bad(UNDEFINED)
      else
        var t := Store(s, Little(e, v10)).(tpm := s.tpm.(v0 := e.hash(ToBytes(v0))));
        Good(SealJoin(e, Advance(t)), e.wrap(RT_DAA_V0, ToBytes(v0), x.first))
  }

  /** Stage 23: v1 = u3 + u1 + the carry. */
  function JoinV1(e: Env, s: Session, in0: seq<byte>, x: Random): Effect {
    if |in0| != e.z.v1 then Bad(INPUT_DATA0)
    else
      var v1 := V1(s, in0);
      if !Fits(e, v1) then Bad(UNDEFINED)
      else
        var t := Cleared(e, s).(tpm := s.tpm.(v1 := e.hash(ToBytes(v1))));
        Good(SealJoin(e, Advance(t)), e.wrap(RT_DAA_V1, ToBytes(v1), x.first))
  }

  function JoinBody(e: Env, s: Session, k: nat, in0: seq<byte>, in1: seq<byte>, x: Random): Effect
    requires 1 <= k <= 24
  {
    if k == 1 then JoinKey(e, s, in0, in1)
    else if k == 2 then JoinSettings(e, s, in0, in1)
    else if k == 3 then JoinSecrets(e, s, in0, x)
    else if k == 8 then JoinEndorse(e, s, in0)
    else if k <= 12 then JoinProduct(e, s, k, in0, in1, x)
    else if k == 13 then CheckW(e, s, in0, in1)
    else if k == 14 then SendE(e, s, in0)
    else if k == 15 then SendE1(e, s, in0)
    else if k == 16 then SendNonce(e, s, in0, x)
    else if k == 17 then SendS0(e, s)
    else if k == 18 then SendS1(e, s)
    else if k == 19 then SendS2(e, s, U0(s))
    else if k == 20 then KeepS12(e, s, U0(s), s.context.digest)
    else if k == 21 then SendS3(e, s, R3(e, s), U1(s))
    else if k == 22 then JoinV0(e, s, in0, x)
    else if k == 23 then JoinV1(e, s, in0, x)
    else Good(Blank(e), e.wrap(RT_DAA_TPM, e.ofSpecific(s.tpm), x.first))
  }

  function JoinStage(e: Env, s: Session, k: nat, in0: seq<byte>, in1: seq<byte>, x: Random): Effect
    requires 1 <= k <= 24
  {
    if s.context.stage != k then Bad(STAGE)
    else if k >= 3 && !IssuerMatches(e, s) then Bad(ISSUER_SETTINGS)
    else if !JoinMatches(e, s) then Bad(TPM_SETTINGS)
    else JoinBody(e, s, k, in0, in1, x)
  }

  // ---- TPM_DAA_Sign

  /** Stage 0 takes over what the slot still holds outside the issuer settings and context. */
  function SignOpen(e: Env, s: Session, handle: nat, in0: seq<byte>): Effect {
    if |in0| != 148 then Bad(INPUT_DATA0)
    else if IssuerOf(in0).tag != TAG_ISSUER then Bad(INPUT_DATA0)
    else
      var c := NoContext(e, 0).(stage := 1);
      Good(s.(kind := ST_DAA, handle := handle, issuer := IssuerOf(in0), context := c), Be(handle, 4))
  }

  function Unwrap(e: Env, in0: seq<byte>, resource: nat): Content {
    match e.unwrap(in0)
    case BadFormat => Rejected(INPUT_DATA0)
    case BadDecryption => Rejected(DECRYPT_ERROR)
    case BadIntegrity => Rejected(INPUT_DATA0)
    case Opened(rt, tag, data) =>
      if rt != resource || tag != TAG_SENSITIVE then Rejected(INPUT_DATA0) else Accepted(data)
  }

  datatype Content = Rejected(code: Code) | Accepted(data: seq<byte>)

  function SignBlob(e: Env, s: Session, in0: seq<byte>, x: Random): Effect {
    match Unwrap(e, in0, RT_DAA_TPM)
    case Rejected(c) => Bad(c)
    case Accepted(data) =>
      if |data| != 88 then Bad(INPUT_DATA0)
      else
        var t := s.(tpm := SpecificOf(data));
        if !IssuerMatches(e, t) then Bad(ISSUER_SETTINGS)
        else
          var u := Seeded(SealSign(e, t), x.first);
          Good(u.(context := u.context.(stage := 2)), [])
  }

  /** Stages 2 to 5 build T. */
  function SignProduct(e: Env, s: Session, k: nat, in0: seq<byte>, in1: seq<byte>): Effect {
    var i := s.issuer;
    match k
    case 2 => Keep(e, s, Power(e, s, i.r0, in0, in1, R0(e, s), 1, true))
    case 3 => Keep(e, s, Power(e, s, i.r1, in0, in1, R1(e, s), Scratch(s), true))
    case 4 => Keep(e, s, Power(e, s, i.s0, in0, in1, R2(e, s), Scratch(s), true))
    case _ => Release(e, s, Power(e, s, i.s1, in0, in1, R4(e, s), Scratch(s), true))
  }

  /** Stage 10: the message or the identity key goes into the challenge. */
  function SignSelect(e: Env, s: Session, in0: seq<byte>, in1: seq<byte>): Effect {
    if |in0| != 1 || (in0[0] != 0 && in0[0] != 1) then Bad(INPUT_DATA0)
    else if in0[0] == 1 then
      if |in1| != DIGEST then Bad(INPUT_DATA1)
      else
        var d := e.hash(s.context.digest + [1] + in1);
        Good(Advance(Digested(s, d)), d)
    else
      match e.identity(in1)
      case Opened(_, _, modulus) =>
        var d := e.hash(s.context.digest + [0] + modulus);
        Good(Advance(Digested(s, d)), d)
      case _ => Bad(INPUT_DATA1)
  }

  /** The private value in a blob of the right kind and size whose digest is the recorded one. */
  function Private(e: Env, in0: seq<byte>, resource: nat, size: nat, digest: seq<byte>): Content {
    match Unwrap(e, in0, resource)
    case Rejected(c) => Rejected(c)
    case Accepted(data) =>
      if |data| == 0 || |data| > size then Rejected(INPUT_DATA0)
      else if e.hash(data) != digest then Rejected(INPUT_DATA0)
      else Accepted(data)
  }

  function SignPrivate(e: Env, s: Session, k: nat, in0: seq<byte>): Effect
    requires 13 <= k <= 15
  {
    match if k == 15 then Private(e, in0, RT_DAA_V1, e.z.v1, s.tpm.v1)
          else Private(e, in0, RT_DAA_V0, e.z.v0, s.tpm.v0)
    case Rejected(c) => Bad(c)
    case Accepted(data) =>
      if k == 13 then SendS2(e, s, OfBytes(data))
      else if k == 14 then KeepS12(e, s, OfBytes(data), [])
      else
        match SendS3(e, s, R4(e, s), OfBytes(data))
        case Bad(c) => Bad(c)
        case Good(_, output) => Good(Blank(e), output)
  }

  function SignBody(e: Env, s: Session, k: nat, in0: seq<byte>, in1: seq<byte>, x: Random): Effect
    requires 1 <= k <= 15
  {
    if k == 1 then SignBlob(e, s, in0, x)
    else if k <= 5 then SignProduct(e, s, k, in0, in1)
    else if k == 6 then CheckW(e, s, in0, in1)
    else if k == 7 then SendE(e, s, in0)
    else if k == 8 then SendE1(e, s, in0)
    else if k == 9 then SendNonce(e, s, in0, x)
    else if k == 10 then SignSelect(e, s, in0, in1)
    else if k == 11 then SendS0(e, s)
    else if k == 12 then SendS1(e, s)
    else SignPrivate(e, s, k, in0)
  }

  function SignStage(e: Env, s: Session, k: nat, in0: seq<byte>, in1: seq<byte>, x: Random): Effect
    requires 1 <= k <= 15
  {
    if s.context.stage != k then Bad(STAGE)
    else if k >= 2 && !IssuerMatches(e, s) then Bad(ISSUER_SETTINGS)
    else if k >= 2 && !SignMatches(e, s) then Bad(TPM_SETTINGS)
    else SignBody(e, s, k, in0, in1, x)
  }
}
