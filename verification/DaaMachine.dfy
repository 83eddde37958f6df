/** `TPM_DAA_Join` and `TPM_DAA_Sign` in the form of the source: one session slot whose fields
    are overwritten stage by stage. Every call is proved to take the step of DaaRun. */
module DaaMachine {
  import opened NumberTheory
  import opened Bytes
  import opened Rsa
  import opened Daa
  import opened DaaRun
  import DaaTheorems
  import opened DaaGuards
  import DaaTranscript

  /** The slot sessionsDAA[0] and currentDAA. */
  class Slot {
    var kind: nat
    var issuer: Issuer
    var tpm: Specific
    var tag: nat
    var digestContext: seq<byte>
    var digest: seq<byte>
    var seed: seq<byte>
    const scratch: array<byte>
    var stage: nat
    var join: JoinData
    var handle: nat
    var current: nat

    constructor (e: Env)
      ensures Shape(e) && Value() == Blank(e) && current == 0 && fresh(scratch)
    {
      var a := new byte[e.z.scratch](_ => 0);
      kind, handle, current, tag, stage := ST_INVALID, 0, 0, 0, 0;
      issuer, tpm, join := NoIssuer(0), NoSpecific(0), NoJoin();
      digestContext, digest, seed := Zeros(DIGEST), Zeros(DIGEST), Zeros(DIGEST);
      scratch := a;
      new;
      assert scratch[..] == Zeros(e.z.scratch);
    }

    ghost predicate Shape(e: Env)
      reads this
    {
      scratch.Length == e.z.scratch
    }

    function Value(): Session
      reads this, scratch
    {
      Session(kind, issuer, tpm, Context(tag, digestContext, digest, seed, scratch[..], stage), join, handle)
    }

    // ---- the scratch register

    method ClearScratch(e: Env)
      requires Shape(e)
      modifies scratch
      ensures Value() == Cleared(e, old(Value()))
    {
      Write(scratch, 0, Zeros(scratch.Length));
    }

    /** `memset` and `tpm_bn_export` with order -1. */
    method StoreScratch(e: Env, v: nat)
      requires Shape(e)
      modifies scratch
      ensures Value() == Store(old(Value()), Little(e, v))
    {
      var i, rest := 0, v;
      while i < scratch.Length
        invariant 0 <= i <= scratch.Length
        invariant Le(v, scratch.Length) == scratch[..i] + Le(rest, scratch.Length - i)
      {
        scratch[i] := LowByte(rest);
        assert scratch[..i + 1] == scratch[..i] + [LowByte(rest)];
        rest := rest / 256;
        i := i + 1;
      }
      assert scratch[..i] == scratch[..];
    }

    /** `tpm_bn_import` with order -1. */
    method LoadScratch() returns (v: nat)
      ensures v == Scratch(Value())
    {
      v := 0;
      var i := scratch.Length;
      while i > 0
        invariant 0 <= i <= scratch.Length && v == OfLe(scratch[i..])
      {
        i := i - 1;
        v := 256 * v + scratch[i] as nat;
        assert scratch[i..][1..] == scratch[i + 1..];
      }
      assert scratch[0..] == scratch[..];
    }

    // ---- leaving a stage

    /** `memset(session, 0, sizeof(TPM_DAA_SESSION_DATA))`. */
    method Wipe(e: Env)
      requires Shape(e)
      modifies this, scratch
      ensures Value() == Blank(e) && current == old(current)
    {
      kind, handle, tag, stage := ST_INVALID, 0, 0, 0;
      issuer, tpm, join := NoIssuer(0), NoSpecific(0), NoJoin();
      digestContext, digest, seed := Zeros(DIGEST), Zeros(DIGEST), Zeros(DIGEST);
      ClearScratch(e);
    }

    method Fail(e: Env, code: Code) returns (r: Reply)
      requires Shape(e)
      modifies this, scratch
      ensures Value() == Blank(e) && current == old(current) && r == Failed(code)
    {
      Wipe(e);
      r := Failed(code);
    }

    /** The call did what the stage function says, or wiped the session. */
    ghost predicate Took(e: Env, r: Reply, f: Effect)
      reads this, scratch
    {
      match f
      case Bad(code) => r == Failed(code) && Value() == Blank(e)
      case Good(next, output) => r == Done(output) && Value() == next
    }

    // ---- product stages

    /** Z * X^Y mod n, with Z from the scratch register except in the first stage of a product. */
    method Multiply(e: Env, base: seq<byte>, in0: seq<byte>, in1: seq<byte>, y: nat, first: bool, defined: bool)
      returns (v: Number)
      ensures v == Power(e, Value(), base, in0, in1, y, if first then 1 else Scratch(Value()), defined)
      ensures v.Value? ==>
        && e.hash(in0) == base && e.hash(in1) == issuer.n && v.v < OfBytes(in1)
        && Cong(v.v, Pow(OfBytes(in0), y) * (if first then 1 else Scratch(Value())), OfBytes(in1))
    {
      ghost var z := if first then 1 else Scratch(Value());
      ProductMeans(e, Value(), base, in0, in1, y, z, defined);
      if e.hash(in0) != base { return Wrong(INPUT_DATA0); }
      if e.hash(in1) != issuer.n { return Wrong(INPUT_DATA1); }
      var X, n := OfBytes(in0), OfBytes(in1);
      if n == 0 || !defined { return Wrong(UNDEFINED); }
      var tmp := PowMod(X, y, n);
      if first {
        SmallMod(tmp, n);
      } else {
        var Z := LoadScratch();
        MulNonNegative(tmp, Z);
        tmp := tmp * Z % n;
      }
      if !Fits(e, tmp) { return Wrong(UNDEFINED); }
      v := Number.Value(tmp);
    }

    method KeepProduct(e: Env, base: seq<byte>, in0: seq<byte>, in1: seq<byte>, y: nat, first: bool, defined: bool)
      returns (r: Reply)
      requires Shape(e)
      modifies this, scratch
      ensures current == old(current)
      ensures var s := old(Value());
        Took(e, r, Keep(e, s, Power(e, s, base, in0, in1, y, if first then 1 else Scratch(s), defined)))
    {
      var v := Multiply(e, base, in0, in1, y, first, defined);
      if v.Wrong? {
        r := Fail(e, v.code);
      } else {
        StoreScratch(e, v.v);
        stage := stage + 1;
        r := Done([]);
      }
    }

    method ReleaseProduct(e: Env, base: seq<byte>, in0: seq<byte>, in1: seq<byte>, y: nat) returns (r: Reply)
      requires Shape(e)
      modifies this, scratch
      ensures current == old(current)
      ensures var s := old(Value());
        Took(e, r, Release(e, s, Power(e, s, base, in0, in1, y, Scratch(s), true)))
    {
      var v := Multiply(e, base, in0, in1, y, false, true);
      if v.Wrong? {
        r := Fail(e, v.code);
      } else {
        ClearScratch(e);
        stage := stage + 1;
        r := Done(ToBytes(v.v));
      }
    }

    method ReleaseBoundProduct(e: Env, base: seq<byte>, in0: seq<byte>, in1: seq<byte>, y: nat) returns (r: Reply)
      requires Shape(e)
      modifies this, scratch
      ensures current == old(current)
      ensures var s := old(Value());
        Took(e, r, ReleaseBound(e, s, Power(e, s, base, in0, in1, y, Scratch(s), true)))
    {
      var v := Multiply(e, base, in0, in1, y, false, true);
      if v.Wrong? {
        r := Fail(e, v.code);
      } else {
        var output := Big(e, v.v);
        digest := e.hash(output + Be(tpm.count, 4) + join.n0);
        ClearScratch(e);
        stage := stage + 1;
        r := Done(output);
      }
    }

    // ---- the secret f and the stages on w

    method ComputeSecret(e: Env) returns (f: nat)
      ensures f == Secret(e, Value())
    {
      var low := e.hash(tpm.rekey + e.hostCount(tpm.count) + [0]);
      var high := e.hash(tpm.rekey + e.hostCount(tpm.count) + [1]);
      f := OfBytes(low + high);
      var q := OfBytes(issuer.q);
      if q != 0 { f := f % q; }
    }

    /** Only an element w whose q-th power is 1 gets into the scratch register. */
    method CheckWitness(e: Env, in0: seq<byte>, in1: seq<byte>) returns (r: Reply)
      requires Shape(e)
      modifies this, scratch
      ensures current == old(current)
      ensures Took(e, r, CheckW(e, old(Value()), in0, in1))
      ensures r.Done? ==>
        && Scratch(Value()) == OfBytes(in1) && e.hash(in0) == issuer.gamma && OfBytes(in0) > 0
        && Cong(Pow(OfBytes(in1), OfBytes(issuer.q)), 1, OfBytes(in0))
    {
      if CheckW(e, Value(), in0, in1).Good? { DaaTheorems.WStage(e, Value(), in0, in1); }
      if e.hash(in0) != issuer.gamma { r := Fail(e, INPUT_DATA0); return; }
      if |in1| != e.z.w { r := Fail(e, INPUT_DATA1); return; }
      var w, gamma, q := OfBytes(in1), OfBytes(in0), OfBytes(issuer.q);
      if gamma == 0 || !Fits(e, w) { r := Fail(e, UNDEFINED); return; }
      var w1 := PowMod(w, q, gamma);
      if w1 != 1 { r := Fail(e, WRONG_W); return; }
      StoreScratch(e, w);
      stage := stage + 1;
      r := Done([]);
    }

    /** The scratch register to the power `y`, modulo gamma. */
    method RaiseW(e: Env, in0: seq<byte>, y: nat) returns (v: Number)
      ensures v == PowerOfW(e, Value(), in0, y)
    {
      if e.hash(in0) != issuer.gamma { return Wrong(INPUT_DATA0); }
      var gamma, q := OfBytes(in0), OfBytes(issuer.q);
      if gamma == 0 || q == 0 { return Wrong(UNDEFINED); }
      var w := LoadScratch();
      var E := PowMod(w, y, gamma);
      if !Fits(e, E) { return Wrong(UNDEFINED); }
      v := Number.Value(E);
    }

    method ReturnE(e: Env, in0: seq<byte>) returns (r: Reply)
      requires Shape(e)
      modifies this, scratch
      ensures current == old(current)
      ensures Took(e, r, SendE(e, old(Value()), in0))
    {
      var f := ComputeSecret(e);
      var v := RaiseW(e, in0, f);
      if v.Wrong? {
        r := Fail(e, v.code);
      } else {
        stage := stage + 1;
        r := Done(ToBytes(v.v));
      }
    }

    /** r = 2^power0 * r1 mod q, then r = r + r0 mod q. */
    method ComputeBlind(e: Env) returns (r: nat)
      ensures r == BlindExponent(e, Value())
    {
      var q := OfBytes(issuer.q);
      var r0 := Blind(e, seed, 0x30, e.z.r0);
      var r1 := Blind(e, seed, 0x31, e.z.r1);
      r := 0;
      if q != 0 {
        r := Two(e.z.power0);
        MulNonNegative(r, r1);
        ShiftIs(r1, e.z.power0);
        r := r * r1;
        r := r % q;
        r := r + r0;
        r := r % q;
      }
    }

    method ReturnE1(e: Env, in0: seq<byte>) returns (r: Reply)
      requires Shape(e)
      modifies this, scratch
      ensures current == old(current)
      ensures Took(e, r, SendE1(e, old(Value()), in0))
    {
      var y := ComputeBlind(e);
      var v := RaiseW(e, in0, y);
      if v.Wrong? {
        r := Fail(e, v.code);
      } else {
        ClearScratch(e);
        stage := stage + 1;
        r := Done(ToBytes(v.v));
      }
    }

    method ReturnNonce(e: Env, in0: seq<byte>, x: Random) returns (r: Reply)
      requires Shape(e)
      modifies this, scratch
      ensures current == old(current)
      ensures Took(e, r, SendNonce(e, old(Value()), in0, x))
    {
      if |in0| != DIGEST { r := Fail(e, INPUT_DATA0); return; }
      digest := in0;
      digest := e.hash(digest + x.first);
      stage := stage + 1;
      r := Done(x.first);
    }

    // ---- responses

    /** s = r + c * v. */
    method Answer(blind: nat, v: nat) returns (s: nat)
      ensures s == Respond(blind, Challenge(Value()), v)
    {
      var tmp := OfBytes(digest);
      MulNonNegative(tmp, v);
      RespondIs(blind, tmp, v);
      s := tmp * v;
      s := blind + s;
    }

    method Return(e: Env, v: nat) returns (r: Reply)
      requires Shape(e)
      modifies this, scratch
      ensures current == old(current)
      ensures Took(e, r, Deliver(e, old(Value()), v))
    {
      if !Fits(e, v) {
        r := Fail(e, UNDEFINED);
      } else {
        stage := stage + 1;
        r := Done(ToBytes(v));
      }
    }

    /** Keeping the low bits: remainder by a power of two. */
    method LowBits(v: nat, k: nat) returns (r: nat)
      ensures r == Low(v, k)
    {
      LowHigh(v, k);
      r := v % Two(k);
    }

    method HighBits(v: nat, k: nat) returns (r: nat)
      ensures r == High(v, k)
    {
      LowHigh(v, k);
      r := v / Two(k);
    }

    method ReturnS0(e: Env) returns (r: Reply)
      requires Shape(e)
      modifies this, scratch
      ensures current == old(current)
      ensures Took(e, r, SendS0(e, old(Value())))
    {
      if OfBytes(issuer.q) == 0 { r := Fail(e, UNDEFINED); return; }
      var r0 := Blind(e, seed, 0x30, e.z.r0);
      var f := ComputeSecret(e);
      var f0 := LowBits(f, e.z.power0);
      var s0 := Answer(r0, f0);
      r := Return(e, s0);
    }

    method ReturnS1(e: Env) returns (r: Reply)
      requires Shape(e)
      modifies this, scratch
      ensures current == old(current)
      ensures Took(e, r, SendS1(e, old(Value())))
    {
      if OfBytes(issuer.q) == 0 { r := Fail(e, UNDEFINED); return; }
      var r1 := Blind(e, seed, 0x31, e.z.r1);
      var f := ComputeSecret(e);
      var f1 := HighBits(f, e.z.power0);
      var s1 := Answer(r1, f1);
      r := Return(e, s1);
    }

    /** What is returned is the remainder of r2 + c v by 2^power1. */
    method ReturnS2(e: Env, v: nat) returns (r: Reply)
      requires Shape(e)
      modifies this, scratch
      ensures current == old(current)
      ensures Took(e, r, SendS2(e, old(Value()), v))
      ensures var s := old(Value()); r.Done? ==>
        OfBytes(r.output) == Respond(R2(e, s), Challenge(s), v) % Two(e.z.power1)
    {
      ghost var s := Value();
      LowHigh(Respond(R2(e, s), Challenge(s), v), e.z.power1);
      if SendS2(e, s, v).Good? { DaaTheorems.S2Stage(e, s, v); }
      var s2 := Answer(Blind(e, seed, 0x32, e.z.r2), v);
      s2 := LowBits(s2, e.z.power1);
      StoreScratch(e, s2);
      r := Return(e, s2);
    }

    /** What is kept is the quotient of r2 + c v by 2^power1. */
    method StoreS12(e: Env, v: nat, output: seq<byte>) returns (r: Reply)
      requires Shape(e)
      modifies this, scratch
      ensures current == old(current)
      ensures Took(e, r, KeepS12(e, old(Value()), v, output))
      ensures var s := old(Value()); r.Done? ==>
        Scratch(Value()) == Respond(R2(e, s), Challenge(s), v) / Two(e.z.power1)
    {
      ghost var s := Value();
      LowHigh(Respond(R2(e, s), Challenge(s), v), e.z.power1);
      if KeepS12(e, s, v, output).Good? { DaaTheorems.S12Stage(e, s, v, output); }
      var s12 := Answer(Blind(e, seed, 0x32, e.z.r2), v);
      s12 := HighBits(s12, e.z.power1);
      if !Fits(e, s12) { r := Fail(e, UNDEFINED); return; }
      StoreScratch(e, s12);
      stage := stage + 1;
      r := Done(output);
    }

    /** The last response takes the kept quotient along, and the register is cleared. */
    method ReturnS3(e: Env, blind: nat, v: nat) returns (r: Reply)
      requires Shape(e)
      modifies this, scratch
      ensures current == old(current)
      ensures Took(e, r, SendS3(e, old(Value()), blind, v))
      ensures var s := old(Value()); r.Done? ==>
        OfBytes(r.output) == blind + OfBytes(old(digest)) * v + Scratch(s) && scratch[..] == Zeros(e.z.scratch)
    {
      RespondIs(blind, OfBytes(digest), v);
      if SendS3(e, Value(), blind, v).Good? { DaaTheorems.S3Stage(e, Value(), blind, v); }
      var s3 := Answer(blind, v);
      var tmp := LoadScratch();
      s3 := s3 + tmp;
      ClearScratch(e);
      r := Return(e, s3);
    }

    // ---- the other stages of Join

    /** `tpm_daa_update_digestContext`. */
    method UpdateContext(e: Env)
      modifies this`digestContext
      ensures Value() == SealJoin(e, old(Value()))
    {
      digestContext := e.hash(e.ofSpecific(tpm) + e.ofJoin(join));
    }

    /** `memset(&session->DAA_session, 0, sizeof(TPM_DAA_CONTEXT))`, then the tag. */
    method ResetContext(e: Env, t: nat)
      requires Shape(e)
      modifies this, scratch
      ensures current == old(current)
      ensures Value() == WithContext(old(Value()), NoContext(e, t))
    {
      tag, digestContext, digest, seed, stage := t, Zeros(DIGEST), Zeros(DIGEST), Zeros(DIGEST), 0;
      ClearScratch(e);
    }

    method OpenJoin(e: Env, in0: seq<byte>) returns (r: Reply)
      requires Shape(e)
      modifies this, scratch
      ensures Took(e, r, JoinOpen(e, HANDLE, in0)) && current == if r.Done? then HANDLE else old(current)
    {
      kind, handle := ST_DAA, HANDLE;
      issuer, tpm, join := NoIssuer(TAG_ISSUER), NoSpecific(TAG_TPM), NoJoin();
      ResetContext(e, TAG_CONTEXT);
      if |in0| != 4 { r := Fail(e, INPUT_DATA0); return; }
      var count := OfBytes(in0);
      if count == 0 { r := Fail(e, INPUT_DATA0); return; }
      tpm := tpm.(count := count);
      UpdateContext(e);
      stage := 1;
      current := HANDLE;
      r := Done(Be(HANDLE, 4));
    }

    method FinishKey(e: Env) returns (r: Reply)
      requires Shape(e)
      modifies this
      ensures r == Done([]) && Value() == CountDown(e, old(Value())) && current == old(current)
    {
      var count := if tpm.count == 0 then 0xffffffff else tpm.count - 1;
      tpm := tpm.(count := count);
      if tpm.count == 0 { stage := stage + 1; }
      UpdateContext(e);
      r := Done([]);
    }

    /** `memcpy` of an input over the whole scratch register. */
    method CopyScratch(e: Env, in0: seq<byte>)
      requires Shape(e)
      modifies scratch
      ensures Value() == Store(old(Value()), Field(in0, e.z.scratch))
    {
      Write(scratch, 0, Field(in0, e.z.scratch));
      assert scratch[..] == Field(in0, e.z.scratch);
    }

    method TakeKey(e: Env, in0: seq<byte>, in1: seq<byte>) returns (r: Reply)
      requires Shape(e)
      modifies this, scratch
      ensures current == old(current)
      ensures Took(e, r, JoinKey(e, old(Value()), in0, in1))
    {
      if |in0| != e.z.modulus { r := Fail(e, INPUT_DATA0); return; }
      if scratch[..] == Zeros(e.z.scratch) {
        CopyScratch(e, in0);
        var n0 := e.hash(scratch[..]);
        join := join.(n0 := n0);
        tpm := tpm.(rekey := e.hash(e.seed + n0));
      } else {
        if |in1| != e.z.modulus { r := Fail(e, INPUT_DATA1); return; }
        if !e.signed(scratch[..], in0, in1) { r := Fail(e, ISSUER_VALIDITY); return; }
        CopyScratch(e, in0);
      }
      r := FinishKey(e);
    }

    /** The size, the fields and the tag of the issuer settings. */
    method ReadIssuer(in0: seq<byte>) returns (ok: bool)
      modifies this`issuer
      ensures ok == (|in0| == 148 && IssuerOf(in0).tag == TAG_ISSUER)
      ensures ok ==> Value() == old(Value()).(issuer := IssuerOf(in0))
    {
      if |in0| != 148 { return false; }
      issuer := IssuerOf(in0);
      ok := issuer.tag == TAG_ISSUER;
    }

    method TakeSettings(e: Env, in0: seq<byte>, in1: seq<byte>) returns (r: Reply)
      requires Shape(e)
      modifies this, scratch
      ensures current == old(current)
      ensures Took(e, r, JoinSettings(e, old(Value()), in0, in1))
    {
      var ok := ReadIssuer(in0);
      if !ok { r := Fail(e, INPUT_DATA0); return; }
      if |in1| != e.z.modulus { r := Fail(e, INPUT_DATA1); return; }
      if !e.signed(scratch[..], join.n0 + in0, in1) { r := Fail(e, ISSUER_VALIDITY); return; }
      tpm := tpm.(issuer := e.hash(e.ofIssuer(issuer)));
      UpdateContext(e);
      ClearScratch(e);
      stage := stage + 1;
      r := Done([]);
    }

    method TakeSecrets(e: Env, in0: seq<byte>, x: Random) returns (r: Reply)
      requires Shape(e)
      modifies this, scratch
      ensures current == old(current)
      ensures Took(e, r, JoinSecrets(e, old(Value()), in0, x))
    {
      if |in0| != 4 { r := Fail(e, INPUT_DATA0); return; }
      tpm := tpm.(count := OfBytes(in0));
      join := join.(u0 := x.first);
      join := join.(u1 := x.second);
      stage := stage + 1;
      UpdateContext(e);
      r := Done([]);
    }

    method Endorse(e: Env, in0: seq<byte>) returns (r: Reply)
      requires Shape(e)
      modifies this, scratch
      ensures current == old(current)
      ensures Took(e, r, JoinEndorse(e, old(Value()), in0))
    {
      if |in0| != e.z.ne { r := Fail(e, INPUT_DATA0); return; }
      var plain := e.decrypted(in0);
      if !plain.Opened? { r := Fail(e, DECRYPT_ERROR); return; }
      var output := e.hash(digest + plain.data);
      digest := Zeros(DIGEST);
      stage := stage + 1;
      r := Done(output);
    }

    /** The blob holds v0, the low bits of u2 + u0, the settings its digest, and the register the
        other bits, so that nothing of u2 + u0 is lost. */
    method WrapV0(e: Env, in0: seq<byte>, x: Random) returns (r: Reply)
      requires Shape(e)
      modifies this, scratch
      ensures current == old(current)
      ensures Took(e, r, JoinV0(e, old(Value()), in0, x))
      ensures r.Done? ==>
        var sum := OfBytes(in0) + OfBytes(old(join.u0)); var v0 := Low(sum, e.z.power1);
        && v0 + Shift(Scratch(Value()), e.z.power1) == sum
        && tpm == old(tpm).(v0 := e.hash(ToBytes(v0))) && r.output == e.wrap(RT_DAA_V0, ToBytes(v0), x.first)
    {
      V0Means(e, Value(), in0, x);
      r := SplitV0(e, in0, x);
    }

    method SplitV0(e: Env, in0: seq<byte>, x: Random) returns (r: Reply)
      requires Shape(e)
      modifies this, scratch
      ensures current == old(current)
      ensures Took(e, r, JoinV0(e, old(Value()), in0, x))
    {
      if |in0| != e.z.v0 { r := Fail(e, INPUT_DATA0); return; }
      var u2, u0 := OfBytes(in0), OfBytes(join.u0);
      var v0 := LowBits(u2 + u0, e.z.power1);
      var v10 := HighBits(u2 + u0, e.z.power1);
      assert v0 == V0(e, Value(), in0) && v10 == High(OfBytes(in0) + U0(Value()), e.z.power1);
      if !Fits(e, v0) || !Fits(e, v10) { r := Fail(e, UNDEFINED); return; }
      KeepV0(e, v0, v10);
      r := Done(e.wrap(RT_DAA_V0, ToBytes(v0), x.first));
    }

    method KeepV0(e: Env, v0: nat, v10: nat)
      requires Shape(e)
      modifies this, scratch
      ensures current == old(current)
      ensures Value() == SealJoin(e, Advance(
        Store(old(Value()), Little(e, v10)).(tpm := old(Value()).tpm.(v0 := e.hash(ToBytes(v0))))))
    {
      tpm := tpm.(v0 := e.hash(ToBytes(v0)));
      StoreScratch(e, v10);
      stage := stage + 1;
      UpdateContext(e);
    }

    /** The blob holds v1, the sum of u3, u1 and the kept quotient, and the settings its digest. */
    method WrapV1(e: Env, in0: seq<byte>, x: Random) returns (r: Reply)
      requires Shape(e)
      modifies this, scratch
      ensures current == old(current)
      ensures Took(e, r, JoinV1(e, old(Value()), in0, x))
      ensures r.Done? ==>
        var v1 := OfBytes(in0) + OfBytes(old(join.u1)) + Scratch(old(Value()));
        && tpm == old(tpm).(v1 := e.hash(ToBytes(v1))) && r.output == e.wrap(RT_DAA_V1, ToBytes(v1), x.first)
        && scratch[..] == Zeros(e.z.scratch)
    {
      r := SumV1(e, in0, x);
    }

    method SumV1(e: Env, in0: seq<byte>, x: Random) returns (r: Reply)
      requires Shape(e)
      modifies this, scratch
      ensures current == old(current)
      ensures Took(e, r, JoinV1(e, old(Value()), in0, x))
    {
      if |in0| != e.z.v1 { r := Fail(e, INPUT_DATA0); return; }
      var u3, u1 := OfBytes(in0), OfBytes(join.u1);
      var tmp := LoadScratch();
      var v1 := u3 + u1 + tmp;
      if !Fits(e, v1) { r := Fail(e, UNDEFINED); return; }
      tpm := tpm.(v1 := e.hash(ToBytes(v1)));
      ClearScratch(e);
      stage := stage + 1;
      UpdateContext(e);
      r := Done(e.wrap(RT_DAA_V1, ToBytes(v1), x.first));
    }

    method JoinPower(e: Env, k: nat, in0: seq<byte>, in1: seq<byte>, x: Random) returns (r: Reply)
      requires 4 <= k <= 12 && k != 8
      requires Shape(e)
      modifies this, scratch
      ensures current == old(current)
      ensures Took(e, r, JoinProduct(e, old(Value()), k, in0, in1, x))
    {
      if k == 4 || k == 5 {
        r := SecretPower(e, k, in0, in1);
      } else if k == 6 {
        r := KeepProduct(e, issuer.s0, in0, in1, OfBytes(join.u0), false, true);
      } else if k == 7 {
        r := ReleaseBoundProduct(e, issuer.s1, in0, in1, OfBytes(join.u1));
      } else {
        r := BlindPower(e, k, in0, in1, x);
      }
    }

    method SecretPower(e: Env, k: nat, in0: seq<byte>, in1: seq<byte>) returns (r: Reply)
      requires 4 <= k <= 5
      requires Shape(e)
      modifies this, scratch
      ensures current == old(current)
      ensures forall x :: Took(e, r, JoinProduct(e, old(Value()), k, in0, in1, x))
    {
      var q := OfBytes(issuer.q);
      var f := ComputeSecret(e);
      if k == 4 {
        var f0 := LowBits(f, e.z.power0);
        r := KeepProduct(e, issuer.r0, in0, in1, f0, true, q != 0);
      } else {
        var f1 := HighBits(f, e.z.power0);
        r := KeepProduct(e, issuer.r1, in0, in1, f1, false, q != 0);
      }
    }

    method BlindPower(e: Env, k: nat, in0: seq<byte>, in1: seq<byte>, x: Random) returns (r: Reply)
      requires 9 <= k <= 12
      requires Shape(e)
      modifies this, scratch
      ensures current == old(current)
      ensures Took(e, r, JoinProduct(e, old(Value()), k, in0, in1, x))
    {
      if k == 9 {
        seed := x.first;
        r := KeepProduct(e, issuer.r0, in0, in1, Blind(e, seed, 0x30, e.z.r0), true, true);
      } else if k == 10 {
        r := KeepProduct(e, issuer.r1, in0, in1, Blind(e, seed, 0x31, e.z.r1), false, true);
      } else if k == 11 {
        r := KeepProduct(e, issuer.s0, in0, in1, Blind(e, seed, 0x32, e.z.r2), false, true);
      } else {
        r := ReleaseProduct(e, issuer.s1, in0, in1, Blind(e, seed, 0x33, e.z.r3));
      }
    }

    method JoinRest(e: Env, k: nat, in0: seq<byte>, in1: seq<byte>, x: Random) returns (r: Reply)
      requires 13 <= k <= 18
      requires Shape(e)
      modifies this, scratch
      ensures current == old(current)
      ensures Took(e, r, JoinBody(e, old(Value()), k, in0, in1, x))
    {
      match k {
        case 13 => r := CheckWitness(e, in0, in1);
        case 14 => r := ReturnE(e, in0);
        case 15 => r := ReturnE1(e, in0);
        case 16 => r := ReturnNonce(e, in0, x);
        case 17 => r := ReturnS0(e);
        case _ => r := ReturnS1(e);
      }
    }

    method JoinAnswer(e: Env, k: nat, in0: seq<byte>, in1: seq<byte>, x: Random) returns (r: Reply)
      requires 19 <= k <= 21
      requires Shape(e)
      modifies this, scratch
      ensures current == old(current)
      ensures Took(e, r, JoinBody(e, old(Value()), k, in0, in1, x))
    {
      match k {
        case 19 => r := ReturnS2(e, OfBytes(join.u0));
        case 20 => r := StoreS12(e, OfBytes(join.u0), digest);
        case _ => r := ReturnS3(e, Blind(e, seed, 0x33, e.z.r3), OfBytes(join.u1));
      }
    }

    method JoinEnd(e: Env, k: nat, in0: seq<byte>, in1: seq<byte>, x: Random) returns (r: Reply)
      requires 22 <= k <= 24
      requires Shape(e)
      modifies this, scratch
      ensures current == old(current)
      ensures Took(e, r, JoinBody(e, old(Value()), k, in0, in1, x))
    {
      match k {
        case 22 => r := WrapV0(e, in0, x);
        case 23 => r := WrapV1(e, in0, x);
        case _ =>
          r := Done(e.wrap(RT_DAA_TPM, e.ofSpecific(tpm), x.first));
          Wipe(e);
      }
    }

    method JoinAct(e: Env, k: nat, in0: seq<byte>, in1: seq<byte>, x: Random) returns (r: Reply)
      requires 1 <= k <= 24
      requires Shape(e)
      modifies this, scratch
      ensures current == old(current)
      ensures Took(e, r, JoinBody(e, old(Value()), k, in0, in1, x))
    {
      match k {
        case 1 => r := TakeKey(e, in0, in1);
        case 2 => r := TakeSettings(e, in0, in1);
        case 3 => r := TakeSecrets(e, in0, x);
        case 8 => r := Endorse(e, in0);
        case _ =>
          if k <= 12 {
            r := JoinPower(e, k, in0, in1, x);
          } else if k <= 18 {
            r := JoinRest(e, k, in0, in1, x);
          } else if k <= 21 {
            r := JoinAnswer(e, k, in0, in1, x);
          } else {
            r := JoinEnd(e, k, in0, in1, x);
          }
      }
    }

    method JoinCall(e: Env, k: nat, in0: seq<byte>, in1: seq<byte>, x: Random) returns (r: Reply)
      requires 1 <= k <= 24
      requires Shape(e)
      modifies this, scratch
      ensures current == old(current)
      ensures Took(e, r, JoinStage(e, old(Value()), k, in0, in1, x))
    {
      if stage != k { r := Fail(e, STAGE); return; }
      if k >= 3 && e.hash(e.ofIssuer(issuer)) != tpm.issuer { r := Fail(e, ISSUER_SETTINGS); return; }
      if e.hash(e.ofSpecific(tpm) + e.ofJoin(join)) != digestContext { r := Fail(e, TPM_SETTINGS); return; }
      r := JoinAct(e, k, in0, in1, x);
    }

    // ---- the other stages of Sign

    method OpenSign(e: Env, in0: seq<byte>) returns (r: Reply)
      requires Shape(e)
      modifies this, scratch
      ensures Took(e, r, SignOpen(e, old(Value()), HANDLE, in0))
      ensures current == if r.Done? then HANDLE else old(current)
    {
      kind, handle := ST_DAA, HANDLE;
      var ok := ReadIssuer(in0);
      if !ok { r := Fail(e, INPUT_DATA0); return; }
      ResetContext(e, 0);
      current := HANDLE;
      stage := 1;
      r := Done(Be(HANDLE, 4));
    }

    method TakeBlob(e: Env, in0: seq<byte>, x: Random) returns (r: Reply)
      requires Shape(e)
      modifies this, scratch
      ensures current == old(current)
      ensures Took(e, r, SignBlob(e, old(Value()), in0, x))
    {
      var content := Unwrap(e, in0, RT_DAA_TPM);
      if content.Rejected? { r := Fail(e, content.code); return; }
      if |content.data| != 88 { r := Fail(e, INPUT_DATA0); return; }
      tpm := SpecificOf(content.data);
      if e.hash(e.ofIssuer(issuer)) != tpm.issuer { r := Fail(e, ISSUER_SETTINGS); return; }
      digestContext := e.hash(e.ofSpecific(tpm));
      seed := x.first;
      stage := 2;
      r := Done([]);
    }

    method SignPower(e: Env, k: nat, in0: seq<byte>, in1: seq<byte>) returns (r: Reply)
      requires 2 <= k <= 5
      requires Shape(e)
      modifies this, scratch
      ensures current == old(current)
      ensures Took(e, r, SignProduct(e, old(Value()), k, in0, in1))
    {
      match k {
        case 2 => r := KeepProduct(e, issuer.r0, in0, in1, Blind(e, seed, 0x30, e.z.r0), true, true);
        case 3 => r := KeepProduct(e, issuer.r1, in0, in1, Blind(e, seed, 0x31, e.z.r1), false, true);
        case 4 => r := KeepProduct(e, issuer.s0, in0, in1, Blind(e, seed, 0x32, e.z.r2), false, true);
        case _ => r := ReleaseProduct(e, issuer.s1, in0, in1, Blind(e, seed, 0x34, e.z.r4));
      }
    }

    method Select(e: Env, in0: seq<byte>, in1: seq<byte>) returns (r: Reply)
      requires Shape(e)
      modifies this, scratch
      ensures current == old(current)
      ensures Took(e, r, SignSelect(e, old(Value()), in0, in1))
    {
      if |in0| != 1 { r := Fail(e, INPUT_DATA0); return; }
      var selector := in0[0];
      if selector != 0 && selector != 1 { r := Fail(e, INPUT_DATA0); return; }
      if selector == 1 {
        if |in1| != DIGEST { r := Fail(e, INPUT_DATA1); return; }
        digest := e.hash(digest + [1] + in1);
      } else {
        var key := e.identity(in1);
        if !key.Opened? { r := Fail(e, INPUT_DATA1); return; }
        digest := e.hash(digest + [0] + key.data);
      }
      stage := stage + 1;
      r := Done(digest);
    }

    method UsePrivate(e: Env, k: nat, in0: seq<byte>) returns (r: Reply)
      requires 13 <= k <= 15
      requires Shape(e)
      modifies this, scratch
      ensures current == old(current)
      ensures Took(e, r, SignPrivate(e, old(Value()), k, in0))
    {
      var content := if k == 15 then Private(e, in0, RT_DAA_V1, e.z.v1, tpm.v1)
                     else Private(e, in0, RT_DAA_V0, e.z.v0, tpm.v0);
      if content.Rejected? { r := Fail(e, content.code); return; }
      var v := OfBytes(content.data);
      if k == 13 {
        r := ReturnS2(e, v);
      } else if k == 14 {
        r := StoreS12(e, v, []);
      } else {
        r := ReturnS3(e, Blind(e, seed, 0x34, e.z.r4), v);
        Wipe(e);
      }
    }

    method SignAct(e: Env, k: nat, in0: seq<byte>, in1: seq<byte>, x: Random) returns (r: Reply)
      requires 1 <= k <= 15
      requires Shape(e)
      modifies this, scratch
      ensures current == old(current)
      ensures Took(e, r, SignBody(e, old(Value()), k, in0, in1, x))
    {
      match k {
        case 1 => r := TakeBlob(e, in0, x);
        case 6 => r := CheckWitness(e, in0, in1);
        case 7 => r := ReturnE(e, in0);
        case 8 => r := ReturnE1(e, in0);
        case 9 => r := ReturnNonce(e, in0, x);
        case 10 => r := Select(e, in0, in1);
        case 11 => r := ReturnS0(e);
        case 12 => r := ReturnS1(e);
        case _ => if k <= 5 { r := SignPower(e, k, in0, in1); } else { r := UsePrivate(e, k, in0); }
      }
    }

    method SignCall(e: Env, k: nat, in0: seq<byte>, in1: seq<byte>, x: Random) returns (r: Reply)
      requires 1 <= k <= 15
      requires Shape(e)
      modifies this, scratch
      ensures current == old(current)
      ensures Took(e, r, SignStage(e, old(Value()), k, in0, in1, x))
    {
      if stage != k { r := Fail(e, STAGE); return; }
      if k >= 2 && e.hash(e.ofIssuer(issuer)) != tpm.issuer { r := Fail(e, ISSUER_SETTINGS); return; }
      if k >= 2 && e.hash(e.ofSpecific(tpm)) != digestContext { r := Fail(e, TPM_SETTINGS); return; }
      r := SignAct(e, k, in0, in1, x);
    }

    // ---- the commands

    method Lookup(h: nat) returns (found: bool)
      ensures found == Found(State(Value(), current), h)
    {
      found := h % 0x100_0000 < 1 && kind == ST_DAA && handle == h;
      if !found {
        found := current % 0x100_0000 < 1 && kind == ST_DAA && handle == current;
      }
    }

    /** `TPM_DAA_Join` (JOIN) and `TPM_DAA_Sign` (SIGN): the step of the transition system. A call
        that succeeds has passed every test of its stage, the issuer's signature among them, and what
        it hashes into the challenge is what it was given. */
    method Command(e: Env, command: Command, authorized: bool, h: nat, k: nat, in0: seq<byte>, in1: seq<byte>,
                   x: Random) returns (r: Reply)
      requires Shape(e)
      modifies this, scratch
      ensures var (st, reply) := Step(e, old(State(Value(), current)), Stage(command, authorized, h, k, in0, in1, x));
        State(Value(), current) == st && r == reply
      ensures r.Done? && command == JOIN && k >= 1 ==>
        && JoinSealed(e, old(Value()), k) && !JoinWrong0(e, old(Value()), k, in0)
        && !JoinWrong1(e, old(Value()), k, in1) && !JoinUnsigned(e, old(Value()), k, in0, in1)
        && (k == 2 ==> e.signed(old(scratch[..]), old(join).n0 + in0, in1))
      ensures r.Done? && command == SIGN && k >= 1 ==>
        && SignSealed(e, old(Value()), k) && !SignWrong0(e, old(Value()), k, in0)
        && !SignWrong1(e, old(Value()), k, in0, in1)
      ensures r.Done? && (if command == JOIN then k == 16 else k == 9) ==>
        r.output == x.first && digest == e.hash(in0 + x.first)
      ensures r.Done? && command == SIGN && k == 10 ==>
        r.output == digest && (in0 == [0] || in0 == [1])
        && digest == e.hash(old(digest) + in0 + if in0 == [1] then in1 else DaaTranscript.Modulus(e, in1))
    {
      CommandMeans(e, State(Value(), current), Stage(command, authorized, h, k, in0, in1, x));
      if !authorized { return Failed(AUTHFAIL); }
      if k > 0 {
        var found := Lookup(h);
        if !found { return Failed(BAD_HANDLE); }
        if k > Last(command) { return Failed(STAGE); }
        if command == JOIN { r := JoinCall(e, k, in0, in1, x); } else { r := SignCall(e, k, in0, in1, x); }
      } else {
        if kind != ST_INVALID { return Failed(RESOURCES); }
        if command == JOIN { r := OpenJoin(e, in0); } else { r := OpenSign(e, in0); }
      }
    }
  }

  /** What a successful call has checked, and what it has put into the digest. */
  lemma CommandMeans(e: Env, st: State, c: Call)
    requires c.Stage?
    ensures var (now, r) := Step(e, st, c); var s := st.session;
      r.Done? && c.stage >= 1 ==>
        && (c.command == JOIN ==>
              && JoinSealed(e, s, c.stage) && !JoinWrong0(e, s, c.stage, c.in0) && !JoinWrong1(e, s, c.stage, c.in1)
              && !JoinUnsigned(e, s, c.stage, c.in0, c.in1))
        && (c.command == SIGN ==>
              && SignSealed(e, s, c.stage) && !SignWrong0(e, s, c.stage, c.in0)
              && !SignWrong1(e, s, c.stage, c.in0, c.in1))
        && ((if c.command == JOIN then c.stage == 16 else c.stage == 9) ==>
              r.output == c.random.first && now.session.context.digest == e.hash(c.in0 + c.random.first))
        && (c.command == SIGN && c.stage == 10 ==>
              && r.output == now.session.context.digest && (c.in0 == [0] || c.in0 == [1])
              && r.output == e.hash(s.context.digest + c.in0
                                      + if c.in0 == [1] then c.in1 else DaaTranscript.Modulus(e, c.in1)))
  {
    if Succeeds(e, st, c) && c.stage >= 1 {
      if c.command == JOIN {
        JoinPassed(e, st.session, c.stage, c.in0, c.in1, c.random);
        if c.stage == 16 { DaaTranscript.NonceStage(e, st.session, c.in0, c.random); }
      } else {
        SignPassed(e, st.session, c.stage, c.in0, c.in1, c.random);
        if c.stage == 9 { DaaTranscript.NonceStage(e, st.session, c.in0, c.random); }
        if c.stage == 10 { DaaTranscript.SelectStage(e, Entry(st.session, c.in0, c.in1, c.random, [])); }
      }
    }
  }

  /** A product stage yields the number below n that is congruent to X^y Z. */
  lemma ProductMeans(e: Env, s: Session, base: seq<byte>, in0: seq<byte>, in1: seq<byte>, y: nat, z: nat, defined: bool)
    ensures var v := Power(e, s, base, in0, in1, y, z, defined); v.Value? ==>
      && e.hash(in0) == base && e.hash(in1) == s.issuer.n && v.v < OfBytes(in1)
      && Cong(v.v, Pow(OfBytes(in0), y) * z, OfBytes(in1))
  {
    var v := Power(e, s, base, in0, in1, y, z, defined);
    if v.Value? {
      DaaTheorems.PowerValue(e, s, base, in0, in1, y, z, defined);
      var n, x := OfBytes(in1), PowMod(OfBytes(in0), y, OfBytes(in1));
      PowModCong(OfBytes(in0), y, n);
      CongRefl(z, n);
      CongMul(x, Pow(OfBytes(in0), y), z, z, n);
      CongMod(x * z, n);
      CongTrans(v.v, x * z, Pow(OfBytes(in0), y) * z, n);
    }
  }

  /** Stage 22 splits u2 + u0 without loss. */
  lemma V0Means(e: Env, s: Session, in0: seq<byte>, x: Random)
    ensures var f := JoinV0(e, s, in0, x); f.Good? ==>
      var sum := OfBytes(in0) + U0(s); var v0 := Low(sum, e.z.power1);
      && v0 + Shift(Scratch(f.next), e.z.power1) == sum
      && f.next.tpm == s.tpm.(v0 := e.hash(ToBytes(v0))) && f.output == e.wrap(RT_DAA_V0, ToBytes(v0), x.first)
  {
    var f := JoinV0(e, s, in0, x);
    if f.Good? {
      var sum := OfBytes(in0) + U0(s);
      var v10 := High(sum, e.z.power1);
      LowShift(sum, e.z.power1);
      LittleRead(e, v10);
      assert f.next.context.scratch == Little(e, v10);
    }
  }

  lemma SmallMod(v: nat, n: nat)
    requires v < n
    ensures v * 1 % n == v
  {
    Quotient(v * 1, 0, v, n);
  }
}
