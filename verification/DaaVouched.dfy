/** Who vouches for the issuer of a DAA Join: the chain of keys that stage 1 takes, the signature on
    the issuer settings that stage 2 takes, and the settings behind every later stage. */
module DaaVouched {
  import opened Bytes
  import opened Daa
  import opened DaaRun
  import opened DaaTheorems

  // ---- the recorded keys follow each other

  /** The session before the recorded key `i`, or after the last one. */
  function Between(h: History, i: nat): Session {
    if i < |h.keys| then h.keys[i].before else At(h, 2)
  }

  /** Each key was taken by a call that started where the one before it ended. */
  ghost predicate KeysLinked(again: Replay, h: History) {
    forall i {:trigger h.keys[i]} :: 0 <= i < |h.keys| ==>
      again(JOIN, 1, h.keys[i]) == Good(Between(h, i + 1), h.keys[i].output)
  }

  /** The session opened last is a Join, or can still become one. */
  predicate Joining(h: History) {
    h.opener == JOIN && h.top >= 1 && (h.top == 1 || h.mode == JOIN)
  }

  ghost predicate KeysKept(e: Env, h: History) {
    Joining(h) ==>
      && |h.keys| == h.ones && (h.top >= 2 ==> h.ones >= 1)
      && Between(h, 0).context.scratch == Zeros(e.z.scratch)
      && KeysLinked(Replayed(e), h)
  }

  lemma KeyNext(again: Replay, h: History, g: History, n: Entry)
    requires KeysLinked(again, h) && Extends(h, g, JOIN, 1, n)
    requires again(JOIN, 1, n) == Good(g.last, n.output)
    ensures KeysLinked(again, g) && Between(g, 0) == Between(h, 0)
  {
    forall i | 0 <= i < |g.keys|
      ensures again(JOIN, 1, g.keys[i]) == Good(Between(g, i + 1), g.keys[i].output)
    {
      if i < |h.keys| { assert g.keys[i] == h.keys[i]; }
    }
  }

  lemma LaterNext(again: Replay, h: History, g: History, k: nat, n: Entry)
    requires KeysLinked(again, h) && Extends(h, g, JOIN, k, n) && 2 <= k && (k > 2 ==> 2 in h.seen)
    ensures KeysLinked(again, g) && Between(g, 0) == Between(h, 0)
  {
    assert At(g, 2) == At(h, 2);
    forall i | 0 <= i < |g.keys|
      ensures again(JOIN, 1, g.keys[i]) == Good(Between(g, i + 1), g.keys[i].output)
    {
      assert g.keys[i] == h.keys[i];
    }
  }

  lemma KeysStage(e: Env, st: State, h: History, c: Call)
    requires Consistent(e, st, h) && Succeeds(e, st, c) && c.stage >= 1 && Distinguishes(e, st.session)
    requires KeysKept(e, h)
    ensures KeysKept(e, Recorded(e, st, h, c))
  {
    var g := Recorded(e, st, h, c);
    var n := RecordedExtends(e, st, h, c);
    if c.command == JOIN {
      if c.stage == 1 { KeyNext(Replayed(e), h, g, n); } else { LaterNext(Replayed(e), h, g, c.stage, n); }
    }
  }

  lemma KeysNext(e: Env, st: State, h: History, c: Call)
    requires Consistent(e, st, h) && Distinguishes(e, st.session) && KeysKept(e, h)
    ensures KeysKept(e, Recorded(e, st, h, c))
  {
    if Succeeds(e, st, c) && c.stage >= 1 { KeysStage(e, st, h, c); }
  }

  /** What is recorded does not depend on the strings collected so far. */
  lemma KeysSame(e: Env, h: History, g: History)
    requires KeysKept(e, h) && g == h.(hashed := g.hashed)
    ensures KeysKept(e, g)
  {
    assert forall i: nat :: Between(g, i) == Between(h, i);
  }

  ghost predicate WorldKept(e: Env, w: World) {
    KeysKept(e, w.h) && forall k :: 0 <= k < |w.shelf| ==> KeysKept(e, w.shelf[k].history)
  }

  lemma WorldKeptNext(e: Env, w: World, a: Action)
    requires Marshals(e) && WorldInvariant(e, w) && WorldKept(e, w) && Collisionless(e, Next(e, w, a).h.hashed)
    ensures WorldKept(e, Next(e, w, a))
  {
    match a {
      case Do(c) =>
        HashedIn(e, w.st, w.h, c);
        CollisionlessDistinguishes(e, w.st.session, Next(e, w, a).h.hashed);
        KeysNext(e, w.st, w.h, c);
        KeysSame(e, Recorded(e, w.st, w.h, c), Follow(e, w.st, w.h, c));
      case Save(_) =>
      case Load(k) =>
        if k < |w.shelf| { KeysSame(e, w.shelf[k].history, w.shelf[k].history.(hashed := w.h.hashed)); }
    }
  }

  lemma {:induction false} RunKept(e: Env, actions: seq<Action>)
    requires Marshals(e) && Collisionless(e, Run(e, actions).h.hashed)
    ensures WorldKept(e, Run(e, actions))
  {
    if actions != [] {
      var before, a := actions[..|actions| - 1], actions[|actions| - 1];
      HashedNext(e, Run(e, before), a);
      RunInvariant(e, before);
      RunKept(e, before);
      WorldKeptNext(e, Run(e, before), a);
    }
  }

  // ---- the chain of keys

  /** The bytes that the scratch register holds after key `i` was taken. */
  function Key(e: Env, h: History, i: nat): seq<byte>
    requires i < |h.keys|
  {
    Field(h.keys[i].in0, e.z.scratch)
  }

  /** Key `i` found the register empty, as the first one does: nobody had to sign it. */
  predicate Unsigned(e: Env, h: History, i: nat)
    requires i < |h.keys|
  {
    i == 0 || Key(e, h, i - 1) == Zeros(e.z.scratch)
  }

  /** The last key that nobody had to sign: key `i` or one before it. */
  function Root(e: Env, h: History, i: nat): (r: nat)
    requires i < |h.keys|
    ensures r <= i && Unsigned(e, h, r) && forall j :: r < j <= i ==> !Unsigned(e, h, j)
  {
    if Unsigned(e, h, i) then i else Root(e, h, i - 1)
  }

  /** Key `i` is well-sized, and signed under the key before it unless nobody had to. */
  predicate KeySigned(e: Env, h: History, i: nat)
    requires i < |h.keys|
  {
    && |h.keys[i].in0| == e.z.modulus
    && (!Unsigned(e, h, i) ==>
          |h.keys[i].in1| == e.z.modulus && e.signed(Key(e, h, i - 1), h.keys[i].in0, h.keys[i].in1))
  }

  lemma KeyStage(e: Env, s: Session, in0: seq<byte>, in1: seq<byte>)
    requires JoinKey(e, s, in0, in1).Good?
    ensures var now := JoinKey(e, s, in0, in1).next; var first := s.context.scratch == Zeros(e.z.scratch);
      && |in0| == e.z.modulus && now.context.scratch == Field(in0, e.z.scratch)
      && (first ==>
            now.join.n0 == e.hash(Field(in0, e.z.scratch)) && now.tpm.rekey == e.hash(e.seed + now.join.n0))
      && (!first ==>
            && now.join.n0 == s.join.n0 && now.tpm.rekey == s.tpm.rekey
            && |in1| == e.z.modulus && e.signed(s.context.scratch, in0, in1))
  {}

  lemma RecordedKey(e: Env, h: History, i: nat)
    requires Joining(h) && KeysKept(e, h) && i < |h.keys|
    ensures JoinKey(e, Between(h, i), h.keys[i].in0, h.keys[i].in1) == Good(Between(h, i + 1), h.keys[i].output)
  {
    assert Replayed(e)(JOIN, 1, h.keys[i]) == Again(e, JOIN, 1, h.keys[i]);
  }

  lemma {:induction false} KeyChain(e: Env, h: History, i: nat)
    requires Joining(h) && KeysKept(e, h) && i < |h.keys|
    ensures Between(h, i + 1).context.scratch == Key(e, h, i) && KeySigned(e, h, i)
    ensures Between(h, i + 1).join.n0 == e.hash(Key(e, h, Root(e, h, i)))
    ensures Between(h, i + 1).tpm.rekey == e.hash(e.seed + Between(h, i + 1).join.n0)
  {
    if i > 0 { KeyChain(e, h, i - 1); }
    RecordedKey(e, h, i);
    KeyStage(e, Between(h, i), h.keys[i].in0, h.keys[i].in1);
  }

  // ---- the settings

  /** The digest of the key at which the chain begins. */
  function Anchor(e: Env, h: History): seq<byte>
    requires h.keys != []
  {
    e.hash(Key(e, h, Root(e, h, |h.keys| - 1)))
  }

  lemma SettingsStage(e: Env, s: Session, in0: seq<byte>, in1: seq<byte>)
    requires JoinSettings(e, s, in0, in1).Good?
    ensures |in0| == 148 && OfBytes(in0[0..2]) == 0x2F && |in1| == e.z.modulus
    ensures e.signed(s.context.scratch, s.join.n0 + in0, in1)
    ensures var i := JoinSettings(e, s, in0, in1).next.issuer;
      && i.r0 == in0[2..22] && i.r1 == in0[22..42] && i.s0 == in0[42..62] && i.s1 == in0[62..82]
      && i.n == in0[82..102] && i.gamma == in0[102..122] && i.q == in0[122..148]
  {}

  /** For every run without a hash collision in which a Join has passed stage 2: as many keys were
      taken as announced, each signed under the one before it except where the register was empty,
      and the settings are signed, together with the digest of the key at which the chain begins,
      under the last of them. */
  lemma {:induction false} JoinVouched(e: Env, actions: seq<Action>, h: History)
    requires Marshals(e) && h == Run(e, actions).h && Collisionless(e, h.hashed)
    requires h.mode == JOIN && h.top >= 3
    ensures |h.keys| == h.declared >= 1 && (forall i :: 0 <= i < |h.keys| ==> KeySigned(e, h, i))
    ensures 2 in h.seen && |h.seen[2].in0| == 148 && OfBytes(h.seen[2].in0[0..2]) == 0x2F
    ensures |h.seen[2].in1| == e.z.modulus
    ensures e.signed(Key(e, h, |h.keys| - 1), Anchor(e, h) + h.seen[2].in0, h.seen[2].in1)
  {
    RunRecords(e, actions, h, 3);
    RunKeys(e, actions, h);
    SettingsSigned(e, h);
  }

  lemma {:induction false} RunKeys(e: Env, actions: seq<Action>, h: History)
    requires Marshals(e) && h == Run(e, actions).h && Collisionless(e, h.hashed)
    requires h.mode == JOIN && h.top >= 2
    ensures Joining(h) && KeysKept(e, h) && |h.keys| == h.declared >= 1
  {
    RunKept(e, actions);
    RunOrder(e, actions, h);
  }

  lemma {:induction false} RunOrder(e: Env, actions: seq<Action>, h: History)
    requires Marshals(e) && h == Run(e, actions).h && Collisionless(e, h.hashed)
    requires h.mode == JOIN && h.top >= 2
    ensures h.opener == JOIN && h.ones == h.declared
  {
    RunInvariant(e, actions);
  }

  lemma SettingsSigned(e: Env, h: History)
    requires Recording(e, h, JOIN, 3) && Joining(h) && KeysKept(e, h) && |h.keys| >= 1
    ensures forall i :: 0 <= i < |h.keys| ==> KeySigned(e, h, i)
    ensures 2 in h.seen && |h.seen[2].in0| == 148 && OfBytes(h.seen[2].in0[0..2]) == 0x2F
    ensures |h.seen[2].in1| == e.z.modulus
    ensures e.signed(Key(e, h, |h.keys| - 1), Anchor(e, h) + h.seen[2].in0, h.seen[2].in1)
  {
    forall i | 0 <= i < |h.keys| ensures KeySigned(e, h, i) { KeyChain(e, h, i); }
    KeyChain(e, h, |h.keys| - 1);
    Recorded2(e, h, 3);
    SettingsStage(e, At(h, 2), h.seen[2].in0, h.seen[2].in1);
  }

  lemma Recorded2(e: Env, h: History, top: nat)
    requires Recording(e, h, JOIN, top) && 3 <= top
    ensures 2 in h.seen && JoinSettings(e, At(h, 2), h.seen[2].in0, h.seen[2].in1) == Good(At(h, 3), h.seen[2].output)
  {
    RecordedStage(e, h, JOIN, top, 2);
  }

  /** If none of the keys is zero, the chain begins with the first key, and every other key is
      signed under the one before it. */
  lemma {:induction false} VouchedByFirst(e: Env, actions: seq<Action>, h: History)
    requires Marshals(e) && h == Run(e, actions).h && Collisionless(e, h.hashed)
    requires h.mode == JOIN && h.top >= 3 && e.z.scratch == e.z.modulus
    requires forall i :: 0 <= i < |h.keys| ==> h.keys[i].in0 != Zeros(e.z.modulus)
    ensures |h.keys| >= 1 && 2 in h.seen
    ensures forall i :: 1 <= i < |h.keys| ==> e.signed(h.keys[i - 1].in0, h.keys[i].in0, h.keys[i].in1)
    ensures e.signed(h.keys[|h.keys| - 1].in0, e.hash(h.keys[0].in0) + h.seen[2].in0, h.seen[2].in1)
  {
    JoinVouched(e, actions, h);
    assert forall i :: 0 <= i < |h.keys| ==> KeySigned(e, h, i) && Key(e, h, i) == h.keys[i].in0;
  }

  // ---- the settings in use

  lemma SecretsKeep(e: Env, s: Session, in0: seq<byte>, x: Random)
    requires JoinSecrets(e, s, in0, x).Good?
    ensures JoinSecrets(e, s, in0, x).next.issuer == s.issuer
  {}

  lemma Recorded3(e: Env, h: History, top: nat)
    requires Recording(e, h, JOIN, top) && 4 <= top
    ensures At(h, 4).issuer == At(h, 3).issuer
  {
    RecordedStage(e, h, JOIN, top, 3);
    SecretsKeep(e, h.seen[3].before, h.seen[3].in0, h.seen[3].random);
  }

  lemma SettingsKept(e: Env, h: History, top: nat, k: nat)
    requires Recording(e, h, JOIN, top) && 3 <= k <= top && k <= 22
    ensures 2 in h.seen && |h.seen[2].in0| == 148
    ensures var i, b := At(h, k).issuer, h.seen[2].in0;
      && i.r0 == b[2..22] && i.r1 == b[22..42] && i.s0 == b[42..62] && i.s1 == b[62..82]
      && i.n == b[82..102] && i.gamma == b[102..122] && i.q == b[122..148]
  {
    Recorded2(e, h, top);
    SettingsStage(e, At(h, 2), h.seen[2].in0, h.seen[2].in1);
    if k >= 4 {
      Recorded3(e, h, top);
      JoinFixed(e, h, top, 4, k);
    }
  }

  /** Over every run: the bases and moduli that the stages were given are those whose digests stand
      in the settings that the issuer signed. */
  lemma {:induction false} GenericsVouched(e: Env, actions: seq<Action>, h: History, k: nat)
    requires Marshals(e) && h == Run(e, actions).h && Collisionless(e, h.hashed)
    requires h.mode == JOIN && k in {4, 5, 6, 7, 9, 10, 11, 12, 13, 14, 15} && k < h.top
    ensures k in h.seen && 2 in h.seen && |h.seen[2].in0| == 148
    ensures var b, d := h.seen[2].in0, e.hash(h.seen[k].in0);
      && (k in {4, 9} ==> d == b[2..22]) && (k in {5, 10} ==> d == b[22..42])
      && (k in {6, 11} ==> d == b[42..62]) && (k in {7, 12} ==> d == b[62..82])
      && (k <= 12 ==> e.hash(h.seen[k].in1) == b[82..102]) && (k >= 13 ==> d == b[102..122])
  {
    RunRecords(e, actions, h, k + 1);
    SettingsKept(e, h, k + 1, k + 1);
    if k <= 12 { JoinProductStage(e, h, k + 1, k); } else { GammaGiven(e, h, k); }
  }

  lemma GammaGiven(e: Env, h: History, k: nat)
    requires Recording(e, h, JOIN, k + 1) && k in {13, 14, 15}
    ensures k in h.seen && e.hash(h.seen[k].in0) == At(h, k + 1).issuer.gamma
  {
    RecordedStage(e, h, JOIN, k + 1, k);
    JoinStep(e, h, k + 1, k);
    OnGamma(e, h.seen[k].before, k, h.seen[k].in0, h.seen[k].in1, h.seen[k].random);
  }

  lemma OnGamma(e: Env, s: Session, k: nat, in0: seq<byte>, in1: seq<byte>, x: Random)
    requires k in {13, 14, 15} && JoinBody(e, s, k, in0, in1, x).Good?
    ensures e.hash(in0) == s.issuer.gamma
  {}
}
