/** What the digests of a DAA Join and a DAA Sign say, over whole runs: each is a hash over inputs
    and outputs of recorded calls, so that equal digests mean equal transcripts. */
module DaaTranscript {
  import opened Bytes
  import opened Daa
  import opened DaaRun
  import opened DaaTheorems
  import opened DaaSign
  import opened DaaJoinSign
  import opened DaaVouched

  // ---- concatenations

  /** Equal strings with equally long heads have equal parts. */
  lemma SplitAt(a: seq<byte>, b: seq<byte>, c: seq<byte>, d: seq<byte>)
    requires a + b == c + d && |a| == |c|
    ensures a == c && b == d
  {
    assert a == (a + b)[..|a|] && c == (c + d)[..|c|];
    assert b == (a + b)[|a|..] && d == (c + d)[|c|..];
  }

  lemma SplitTwice(a: seq<byte>, b: seq<byte>, r: seq<byte>, c: seq<byte>, d: seq<byte>, t: seq<byte>)
    requires a + b + r == c + d + t && |a| == |c| && |b| == |d|
    ensures a == c && b == d && r == t
  {
    SplitAt(a + b, r, c + d, t);
    SplitAt(a, b, c, d);
  }

  // ---- the challenge of a Sign

  /** Stage 9 hashes the host's nonce and the nonce that it draws and returns. */
  lemma NonceStage(e: Env, s: Session, in0: seq<byte>, x: Random)
    requires SendNonce(e, s, in0, x).Good?
    ensures |in0| == 20 && SendNonce(e, s, in0, x).output == x.first
    ensures SendNonce(e, s, in0, x).next.context.digest == e.hash(in0 + x.first)
  {}

  /** The modulus of an identity key. */
  function Modulus(e: Env, key: seq<byte>): seq<byte> {
    Contents(e.identity(key))
  }

  /** The third part of the challenge: the digest of a message, or the modulus of an identity key. */
  function Subject(e: Env, n: Entry): seq<byte> {
    if n.in0 == [1] then n.in1 else Modulus(e, n.in1)
  }

  lemma SelectStage(e: Env, n: Entry)
    requires SignSelect(e, n.before, n.in0, n.in1).Good?
    ensures n.in0 == [0] || n.in0 == [1]
    ensures n.in0 == [1] ==> |n.in1| == 20
    ensures n.in0 == [0] ==> e.identity(n.in1).Opened?
    ensures var r := SignSelect(e, n.before, n.in0, n.in1);
      r.output == e.hash(n.before.context.digest + n.in0 + Subject(e, n)) && r.next.context.digest == r.output
  {}

  /** The strings that stages 9 and 10 hash. */
  function NonceString(h: History): seq<byte>
    requires 9 in h.seen
  {
    h.seen[9].in0 + h.seen[9].random.first
  }

  function ChallengeString(e: Env, h: History): seq<byte>
    requires 9 in h.seen && 10 in h.seen
  {
    e.hash(NonceString(h)) + h.seen[10].in0 + Subject(e, h.seen[10])
  }

  lemma Nonce9(e: Env, h: History)
    requires Recording(e, h, SIGN, 11)
    ensures 9 in h.seen && SendNonce(e, At(h, 9), h.seen[9].in0, h.seen[9].random) == Good(At(h, 10), h.seen[9].output)
  {
    RecordedStage(e, h, SIGN, 11, 9);
  }

  lemma Select10(e: Env, h: History)
    requires Recording(e, h, SIGN, 11)
    ensures 10 in h.seen && h.seen[10].before == At(h, 10)
    ensures SignSelect(e, At(h, 10), h.seen[10].in0, h.seen[10].in1) == Good(At(h, 11), h.seen[10].output)
  {
    RecordedStage(e, h, SIGN, 11, 10);
  }

  /** For every run without a hash collision in which a Sign has passed stage 10: the challenge that
      was returned is SHA-1(SHA-1(nonce || NT) || selector || subject), over what was given to and
      returned by the recorded calls. */
  lemma {:induction false} SignChallenge(e: Env, actions: seq<Action>, h: History)
    requires Marshals(e) && h == Run(e, actions).h && Collisionless(e, h.hashed)
    requires h.mode == SIGN && h.top >= 11
    ensures 9 in h.seen && |h.seen[9].in0| == 20 && h.seen[9].output == h.seen[9].random.first
    ensures 10 in h.seen && (h.seen[10].in0 == [0] || h.seen[10].in0 == [1])
    ensures h.seen[10].in0 == [1] ==> |h.seen[10].in1| == 20
    ensures h.seen[10].in0 == [0] ==> e.identity(h.seen[10].in1).Opened?
    ensures h.seen[10].output == e.hash(
      e.hash(h.seen[9].in0 + h.seen[9].output) + h.seen[10].in0
      + if h.seen[10].in0 == [1] then h.seen[10].in1 else e.identity(h.seen[10].in1).data)
  {
    RunRecords(e, actions, h, 11);
    Nonce9(e, h);
    Select10(e, h);
    NonceStage(e, At(h, 9), h.seen[9].in0, h.seen[9].random);
    SelectStage(e, h.seen[10]);
  }

  /** Two Signs, in any two runs: their challenges are equal exactly when the selector, the message
      or identity key, the host's nonce and the nonce of the TPM are, unless the strings hashed for
      them collide. So a signature serves one message and one nonce only. */
  lemma {:induction false} SignBinds(e: Env, first: seq<Action>, second: seq<Action>, h: History, g: History)
    requires Marshals(e) && Hashes(e) && h == Run(e, first).h && g == Run(e, second).h
    requires Collisionless(e, h.hashed) && Collisionless(e, g.hashed)
    requires h.mode == SIGN && h.top >= 11 && g.mode == SIGN && g.top >= 11
    requires 9 in h.seen && 10 in h.seen && 9 in g.seen && 10 in g.seen
    requires CollisionFree(e.hash, {NonceString(h), NonceString(g), ChallengeString(e, h), ChallengeString(e, g)})
    ensures h.seen[10].output == g.seen[10].output <==>
      && h.seen[10].in0 == g.seen[10].in0 && h.seen[9].in0 == g.seen[9].in0 && h.seen[9].output == g.seen[9].output
      && (h.seen[10].in0 == [1] ==> h.seen[10].in1 == g.seen[10].in1)
      && (h.seen[10].in0 == [0] ==>
            Contents(e.identity(h.seen[10].in1)) == Contents(e.identity(g.seen[10].in1)))
  {
    SignChallenge(e, first, h);
    SignChallenge(e, second, g);
    if h.seen[10].output == g.seen[10].output {
      assert ChallengeString(e, h) == ChallengeString(e, g);
      SplitTwice(e.hash(NonceString(h)), h.seen[10].in0, Subject(e, h.seen[10]),
        e.hash(NonceString(g)), g.seen[10].in0, Subject(e, g.seen[10]));
      SplitAt(h.seen[9].in0, h.seen[9].random.first, g.seen[9].in0, g.seen[9].random.first);
    }
  }

  // ---- the digests of a Join

  /** What stage 3 keeps: the count of the host and two fresh numbers. */
  lemma SecretsStage(e: Env, s: Session, in0: seq<byte>, x: Random)
    requires JoinSecrets(e, s, in0, x).Good?
    ensures var now := JoinSecrets(e, s, in0, x).next;
      && |in0| == 4 && now.tpm.count == OfBytes(in0) && now.join.u0 == x.first && now.join.u1 == x.second
      && now.join.n0 == s.join.n0 && now.tpm.rekey == s.tpm.rekey
  {}

  lemma Kept2(e: Env, s: Session, in0: seq<byte>, in1: seq<byte>)
    requires JoinSettings(e, s, in0, in1).Good?
    ensures var now := JoinSettings(e, s, in0, in1).next; now.join == s.join && now.tpm.rekey == s.tpm.rekey
  {}

  lemma Secrets3(e: Env, h: History, top: nat)
    requires Recording(e, h, JOIN, top) && 4 <= top
    ensures 3 in h.seen
    ensures JoinSecrets(e, At(h, 3), h.seen[3].in0, h.seen[3].random) == Good(At(h, 4), h.seen[3].output)
  {
    RecordedStage(e, h, JOIN, top, 3);
  }

  lemma Register(e: Env, h: History, top: nat)
    requires Recording(e, h, JOIN, top) && 3 <= top && Joining(h) && KeysKept(e, h) && |h.keys| >= 1
    ensures At(h, 3).join.n0 == Anchor(e, h) && At(h, 3).tpm.rekey == e.hash(e.seed + Anchor(e, h))
  {
    KeyChain(e, h, |h.keys| - 1);
    Recorded2(e, h, top);
    Kept2(e, At(h, 2), h.seen[2].in0, h.seen[2].in1);
  }

  lemma RegisterAt(e: Env, h: History, top: nat, k: nat)
    requires Recording(e, h, JOIN, top) && 4 <= k <= top && k <= 22 && Joining(h) && KeysKept(e, h) && |h.keys| >= 1
    ensures 3 in h.seen && |h.seen[3].in0| == 4
    ensures var s := At(h, k);
      && s.join.n0 == Anchor(e, h) && s.tpm.rekey == e.hash(e.seed + Anchor(e, h))
      && s.tpm.count == OfBytes(h.seen[3].in0) && s.join.u0 == h.seen[3].random.first
      && s.join.u1 == h.seen[3].random.second
  {
    Register(e, h, top);
    Secrets3(e, h, top);
    SecretsStage(e, At(h, 3), h.seen[3].in0, h.seen[3].random);
    JoinFixed(e, h, top, 4, k);
  }

  /** Over every run: the platform's secret f of a Join is made from the DAA seed, the key at which
      the chain of keys begins, and the count that the host gave, reduced by the order that the
      issuer signed. */
  lemma {:induction false} JoinSecretIs(e: Env, actions: seq<Action>, h: History, k: nat)
    requires Marshals(e) && h == Run(e, actions).h && Collisionless(e, h.hashed)
    requires h.mode == JOIN && 4 <= k <= h.top && k <= 22
    ensures h.keys != [] && 2 in h.seen && 3 in h.seen && |h.seen[2].in0| == 148
    ensures var count := e.hostCount(OfBytes(h.seen[3].in0));
      var rekey, q := e.hash(e.seed + Anchor(e, h)), OfBytes(h.seen[2].in0[122..148]);
      var f := OfBytes(e.hash(rekey + count + [0]) + e.hash(rekey + count + [1]));
      q > 0 ==> Secret(e, At(h, k)) == f % q
  {
    RunRecords(e, actions, h, k);
    RunKeys(e, actions, h);
    RegisterAt(e, h, k, k);
    SettingsKept(e, h, k, k);
    if OfBytes(h.seen[2].in0[122..148]) > 0 { SecretIs(e, At(h, k)); }
  }

  lemma SecretIs(e: Env, s: Session)
    requires OfBytes(s.issuer.q) > 0
    ensures var b := s.tpm.rekey + e.hostCount(s.tpm.count);
      Secret(e, s) == OfBytes(e.hash(b + [0]) + e.hash(b + [1])) % OfBytes(s.issuer.q)
  {}

  lemma BoundStage(e: Env, s: Session, in0: seq<byte>, in1: seq<byte>, x: Random)
    requires JoinBody(e, s, 7, in0, in1, x).Good?
    ensures var Good(now, output) := JoinBody(e, s, 7, in0, in1, x);
      now.context.digest == e.hash(output + Be(s.tpm.count, 4) + s.join.n0) && |output| == e.z.scratch
  {}

  lemma EndorseStage(e: Env, s: Session, in0: seq<byte>)
    requires JoinEndorse(e, s, in0).Good?
    ensures |in0| == e.z.ne && e.decrypted(in0).Opened?
    ensures JoinEndorse(e, s, in0).output == e.hash(s.context.digest + Contents(e.decrypted(in0)))
  {}

  /** The string of stage 7: U, the count of the host and the digest of the issuer's first key. */
  function JoinString(e: Env, h: History): seq<byte>
    requires 7 in h.seen && 3 in h.seen && h.keys != []
  {
    h.seen[7].output + Be(OfBytes(h.seen[3].in0), 4) + Anchor(e, h)
  }

  function EndorsedString(e: Env, h: History): seq<byte>
    requires 7 in h.seen && 3 in h.seen && h.keys != [] && 8 in h.seen
  {
    e.hash(JoinString(e, h)) + Contents(e.decrypted(h.seen[8].in0))
  }

  lemma Bound7(e: Env, h: History)
    requires Recording(e, h, JOIN, 9)
    ensures 7 in h.seen && |h.seen[7].output| == e.z.scratch
    ensures At(h, 8).context.digest == e.hash(h.seen[7].output + Be(At(h, 7).tpm.count, 4) + At(h, 7).join.n0)
  {
    RecordedStage(e, h, JOIN, 9, 7);
    var n := h.seen[7];
    BoundStage(e, n.before, n.in0, n.in1, n.random);
  }

  lemma Endorse8(e: Env, h: History)
    requires Recording(e, h, JOIN, 9)
    ensures 8 in h.seen && JoinEndorse(e, At(h, 8), h.seen[8].in0) == Good(At(h, 9), h.seen[8].output)
  {
    RecordedStage(e, h, JOIN, 9, 8);
  }

  lemma EndorsementHolds(e: Env, h: History)
    requires Recording(e, h, JOIN, 9) && Joining(h) && KeysKept(e, h) && |h.keys| >= 1
    ensures 3 in h.seen && 7 in h.seen && 8 in h.seen && |h.seen[3].in0| == 4 && |h.seen[7].output| == e.z.scratch
    ensures e.decrypted(h.seen[8].in0).Opened? && h.seen[8].output == e.hash(EndorsedString(e, h))
  {
    RegisterAt(e, h, 9, 7);
    Bound7(e, h);
    Endorse8(e, h);
    EndorseStage(e, At(h, 8), h.seen[8].in0);
  }

  /** For every run without a hash collision in which a Join has passed stage 8: the host proves
      possession of the endorsement key on SHA-1(SHA-1(U || count || n0) || decrypted), over what
      the recorded calls were given and returned. */
  lemma {:induction false} JoinEndorsed(e: Env, actions: seq<Action>, h: History)
    requires Marshals(e) && h == Run(e, actions).h && Collisionless(e, h.hashed)
    requires h.mode == JOIN && h.top >= 9
    ensures h.keys != [] && 3 in h.seen && 7 in h.seen && 8 in h.seen
    ensures |h.seen[3].in0| == 4 && |h.seen[7].output| == e.z.scratch && e.decrypted(h.seen[8].in0).Opened?
    ensures h.seen[8].output == e.hash(
      e.hash(h.seen[7].output + Be(OfBytes(h.seen[3].in0), 4) + Anchor(e, h)) + e.decrypted(h.seen[8].in0).data)
  {
    RunRecords(e, actions, h, 9);
    RunKeys(e, actions, h);
    EndorsementHolds(e, h);
  }

  /** Two Joins with the same answer to the endorsement challenge have the same U, the same count,
      the same first key digest and the same decrypted secret, unless the strings collide. */
  lemma {:induction false} JoinBinds(e: Env, first: seq<Action>, second: seq<Action>, h: History, g: History)
    requires Marshals(e) && Hashes(e) && h == Run(e, first).h && g == Run(e, second).h
    requires Collisionless(e, h.hashed) && Collisionless(e, g.hashed)
    requires h.mode == JOIN && h.top >= 9 && g.mode == JOIN && g.top >= 9
    requires h.keys != [] && 3 in h.seen && 7 in h.seen && 8 in h.seen
    requires g.keys != [] && 3 in g.seen && 7 in g.seen && 8 in g.seen
    requires CollisionFree(e.hash, {JoinString(e, h), JoinString(e, g), EndorsedString(e, h), EndorsedString(e, g)})
    ensures h.seen[8].output == g.seen[8].output <==>
      && h.seen[7].output == g.seen[7].output && h.seen[3].in0 == g.seen[3].in0 && Anchor(e, h) == Anchor(e, g)
      && Contents(e.decrypted(h.seen[8].in0)) == Contents(e.decrypted(g.seen[8].in0))
  {
    JoinEndorsed(e, first, h);
    JoinEndorsed(e, second, g);
    if h.seen[8].output == g.seen[8].output {
      assert EndorsedString(e, h) == EndorsedString(e, g);
      SplitAt(e.hash(JoinString(e, h)), Contents(e.decrypted(h.seen[8].in0)),
        e.hash(JoinString(e, g)), Contents(e.decrypted(g.seen[8].in0)));
      SplitTwice(h.seen[7].output, Be(OfBytes(h.seen[3].in0), 4), Anchor(e, h),
        g.seen[7].output, Be(OfBytes(g.seen[3].in0), 4), Anchor(e, g));
      BeOf(h.seen[3].in0);
      BeOf(g.seen[3].in0);
    }
  }

  // ---- the challenge of a Join

  lemma Nonce16(e: Env, h: History)
    requires Recording(e, h, JOIN, 21)
    ensures 16 in h.seen
    ensures SendNonce(e, At(h, 16), h.seen[16].in0, h.seen[16].random) == Good(At(h, 17), h.seen[16].output)
  {
    RecordedStage(e, h, JOIN, 21, 16);
  }

  lemma Digest20(e: Env, h: History)
    requires Recording(e, h, JOIN, 21)
    ensures 20 in h.seen && h.seen[20].output == At(h, 17).context.digest
  {
    RecordedStage(e, h, JOIN, 21, 20);
    JoinFixed(e, h, 21, 17, 20);
    ReturnsDigest(e, At(h, 20), U0(At(h, 20)));
  }

  lemma ReturnsDigest(e: Env, s: Session, v: nat)
    requires KeepS12(e, s, v, s.context.digest).Good?
    ensures KeepS12(e, s, v, s.context.digest).output == s.context.digest
  {}

  /** Over every run: the challenge that a Join returns at stage 20 is the hash of the host's nonce
      and the nonce that stage 16 returned. */
  lemma {:induction false} JoinChallenge(e: Env, actions: seq<Action>, h: History)
    requires Marshals(e) && h == Run(e, actions).h && Collisionless(e, h.hashed)
    requires h.mode == JOIN && h.top >= 21
    ensures 16 in h.seen && 20 in h.seen && |h.seen[16].in0| == 20
    ensures h.seen[16].output == h.seen[16].random.first
    ensures h.seen[20].output == e.hash(h.seen[16].in0 + h.seen[16].output)
  {
    RunRecords(e, actions, h, 21);
    Nonce16(e, h);
    NonceStage(e, At(h, 16), h.seen[16].in0, h.seen[16].random);
    Digest20(e, h);
  }

  lemma {:induction false} JoinChallengeBinds(e: Env, first: seq<Action>, second: seq<Action>, h: History, g: History)
    requires Marshals(e) && h == Run(e, first).h && g == Run(e, second).h
    requires Collisionless(e, h.hashed) && Collisionless(e, g.hashed)
    requires h.mode == JOIN && h.top >= 21 && g.mode == JOIN && g.top >= 21 && 16 in h.seen && 16 in g.seen
    requires CollisionFree(e.hash, {h.seen[16].in0 + h.seen[16].output, g.seen[16].in0 + g.seen[16].output})
    ensures 20 in h.seen && 20 in g.seen
    ensures h.seen[20].output == g.seen[20].output <==>
      h.seen[16].in0 == g.seen[16].in0 && h.seen[16].output == g.seen[16].output
  {
    JoinChallenge(e, first, h);
    JoinChallenge(e, second, g);
    if h.seen[20].output == g.seen[20].output {
      SplitAt(h.seen[16].in0, h.seen[16].output, g.seen[16].in0, g.seen[16].output);
    }
  }
}
