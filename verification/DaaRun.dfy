/** Whole runs of DAA commands on the one DAA slot of the emulator, with sessions swapped out and
    in between: every call either moves the session on by its stage or wipes it, and the stages
    of a session come strictly in order. */
module DaaRun {
  import opened Bytes
  import opened Daa

  datatype Command = JOIN | SIGN

  /** INDEX_TO_DAA_HANDLE(0). */
  const HANDLE: nat := 0x0800_0000

  datatype State = State(session: Session, current: nat)

  datatype Call =
    | Stage(command: Command, authorized: bool, handle: nat, stage: nat,
            in0: seq<byte>, in1: seq<byte>, random: Random)
    | Flush(handle: nat)

  datatype Reply = Done(output: seq<byte>) | Failed(code: Code)

  predicate Names(s: Session, handle: nat) {
    handle % 0x100_0000 < 1 && s.kind == ST_DAA && s.handle == handle
  }

  /** The handle of the call, or else the current one, names the session. */
  predicate Found(st: State, handle: nat) {
    Names(st.session, handle) || Names(st.session, st.current)
  }

  function Last(c: Command): nat {
    if c == JOIN then 24 else 15
  }

  function Effects(e: Env, st: State, c: Call): Effect
    requires c.Stage? && c.stage <= Last(c.command)
  {
    if c.stage == 0 then
      if c.command == JOIN then JoinOpen(e, HANDLE, c.in0) else SignOpen(e, st.session, HANDLE, c.in0)
    else if c.command == JOIN then JoinStage(e, st.session, c.stage, c.in0, c.in1, c.random)
    else SignStage(e, st.session, c.stage, c.in0, c.in1, c.random)
  }

  /** The call gets past authorization and finds a slot: a free one for stage 0, the session
      otherwise. */
  predicate Reaches(st: State, c: Call) {
    && c.Stage? && c.authorized && c.stage <= Last(c.command)
    && (if c.stage == 0 then st.session.kind == ST_INVALID else Found(st, c.handle))
  }

  predicate Succeeds(e: Env, st: State, c: Call) {
    Reaches(st, c) && Effects(e, st, c).Good?
  }

  function Refusal(st: State, c: Call): Code
    requires c.Stage?
  {
    if !c.authorized then AUTHFAIL
    else if c.stage == 0 then RESOURCES
    else if !Found(st, c.handle) then BAD_HANDLE
    else STAGE
  }

  function Step(e: Env, st: State, c: Call): (State, Reply) {
    if c.Flush? then
      if c.handle == HANDLE && st.session.kind == ST_DAA then
        (State(Blank(e), if c.handle == st.current then 0 else st.current), Done([]))
      else (st, Done([]))
    else if !Reaches(st, c) then (st, Failed(Refusal(st, c)))
    else
      match Effects(e, st, c)
      case Bad(code) => (State(Blank(e), st.current), Failed(code))
      case Good(next, output) => (State(next, if c.stage == 0 then HANDLE else st.current), Done(output))
  }

  // ---- the history of the session opened last

  datatype Entry = Entry(before: Session, in0: seq<byte>, in1: seq<byte>, random: Random, output: seq<byte>)

  /** `order` lists the successful calls since the session was opened, `ones` counts those of
      Join stage 1, `keys` holds them in turn and `seen` all calls by stage, `last` is the session after the newest of
      them and `top` the stage it expects; `hashed` collects the strings the run has hashed. */
  datatype History = History(opener: Command, mode: Command, declared: nat, ones: nat,
                             order: seq<(Command, nat)>, keys: seq<Entry>, seen: map<nat, Entry>,
                             last: Session, top: nat, hashed: set<seq<byte>>)

  /** The strings that a call hashes: the session's settings, its inputs, the contents of a
      blob, and the private values v0 and v1 when they are made. */
  function Hashed(e: Env, st: State, c: Call): set<seq<byte>> {
    var s := st.session;
    {JoinInput(e, s), SignInput(e, s), e.ofIssuer(s.issuer)} + if c.Flush? then {} else Digests(e, s, c)
  }

  function Digests(e: Env, s: Session, c: Call): set<seq<byte>>
    requires c.Stage?
  {
    {c.in0, c.in1, Contents(e.unwrap(c.in0))}
    + (if c.command == JOIN && c.stage == 22 then {ToBytes(V0(e, s, c.in0))} else {})
    + (if c.command == JOIN && c.stage == 23 then {ToBytes(V1(s, c.in0))} else {})
  }

  function Contents(b: Blob): seq<byte> {
    if b.Opened? then b.data else []
  }

  function Recorded(e: Env, st: State, h: History, c: Call): History {
    if !Succeeds(e, st, c) then h
    else
      var Good(next, output) := Effects(e, st, c);
      if c.stage == 0 then
        History(c.command, c.command, if c.command == JOIN then OfBytes(c.in0) else 0, 0,
                [(c.command, 0)], [], map[], next, 1, h.hashed)
      else
        var n := Entry(st.session, c.in0, c.in1, c.random, output);
        h.(mode := c.command,
           ones := h.ones + if c.command == JOIN && c.stage == 1 then 1 else 0,
           order := h.order + [(c.command, c.stage)],
           keys := h.keys + if c.command == JOIN && c.stage == 1 then [n] else [],
           seen := h.seen[c.stage := n],
           last := next,
           top := if c.command == JOIN && c.stage == 1 && next.context.stage == 1 then 1 else c.stage + 1)
  }

  function Follow(e: Env, st: State, h: History, c: Call): History {
    var r := Recorded(e, st, h, c);
    r.(hashed := r.hashed + Hashed(e, st, c))
  }

  // ---- runs

  /** A DAA call, TPM_SaveContext of the DAA session, or TPM_LoadContext of a saved one. */
  datatype Action = Do(call: Call) | Save(handle: nat) | Load(index: nat)

  /** A saved session with its history. */
  datatype Shelved = Shelved(session: Session, history: History)

  /** The state, the history of the session worked on last, and the sessions saved so far. */
  datatype World = World(st: State, h: History, shelf: seq<Shelved>)

  /** Saving carries the whole session away and wipes the slot; a saved session comes back into
      the free slot as it was, here any number of times. */
  function Next(e: Env, w: World, a: Action): World {
    match a
    case Do(c) => World(Step(e, w.st, c).0, Follow(e, w.st, w.h, c), w.shelf)
    case Save(handle) =>
      if handle == HANDLE && w.st.session.kind == ST_DAA then
        World(State(Blank(e), 0), w.h, w.shelf + [Shelved(w.st.session, w.h)])
      else w
    case Load(k) =>
      if k < |w.shelf| && w.st.session.kind == ST_INVALID then
        World(State(w.shelf[k].session, HANDLE), w.shelf[k].history.(hashed := w.h.hashed), w.shelf)
      else w
  }

  function Start(e: Env): World {
    World(State(Blank(e), 0), History(JOIN, JOIN, 0, 0, [], [], map[], Blank(e), 0, {}), [])
  }

  function Run(e: Env, actions: seq<Action>): World {
    if actions == [] then Start(e) else Next(e, Run(e, actions[..|actions| - 1]), actions[|actions| - 1])
  }

  lemma RunMore(e: Env, first: seq<Action>, more: seq<Action>, k: nat)
    requires k < |more|
    ensures Run(e, first + more[..k + 1]) == Next(e, Run(e, first + more[..k]), more[k])
  {
    var all := first + more[..k + 1];
    assert all[..|all| - 1] == first + more[..k] && all[|all| - 1] == more[k];
  }

  /** No two of these strings share a digest, and none has the all-zero one. */
  ghost predicate Collisionless(e: Env, s: set<seq<byte>>) {
    CollisionFree(e.hash, s) && forall x :: x in s ==> e.hash(x) != Zeros(DIGEST)
  }

  // ---- every stage call that gets through moves the session on or wipes it

  /** What a successful Join stage leaves behind. */
  predicate JoinMoved(e: Env, s: Session, k: nat, next: Session) {
    if k == 24 then next == Blank(e)
    else
      && next.kind == s.kind && next.handle == s.handle && JoinMatches(e, next)
      && (if k == 1 then
            && next.tpm.count == (if s.tpm.count == 0 then 0xffffffff else s.tpm.count - 1)
            && next.context.stage == (if next.tpm.count == 0 then 2 else 1)
          else next.context.stage == k + 1)
  }

  lemma SealJoinMatches(e: Env, s: Session)
    ensures JoinMatches(e, SealJoin(e, s)) && JoinMatches(e, Advance(SealJoin(e, s)))
    ensures JoinMatches(e, Cleared(e, SealJoin(e, s)))
  {
    assert JoinInput(e, SealJoin(e, s)) == JoinInput(e, s);
  }

  lemma JoinMoves(e: Env, s: Session, k: nat, in0: seq<byte>, in1: seq<byte>, x: Random)
    requires 1 <= k <= 24 && JoinStage(e, s, k, in0, in1, x).Good?
    ensures s.context.stage == k && JoinMatches(e, s) && (k >= 3 ==> IssuerMatches(e, s))
    ensures JoinMoved(e, s, k, JoinStage(e, s, k, in0, in1, x).next)
  {
    if k == 1 {
      JoinKeyMoves(e, s, in0, in1);
    } else if k <= 3 {
      JoinEarlyMoves(e, s, k, in0, in1, x);
    } else if k < 22 {
      JoinMiddleMoves(e, s, k, in0, in1, x);
    } else {
      JoinLateMoves(e, s, k, in0, x);
    }
  }

  lemma JoinKeyMoves(e: Env, s: Session, in0: seq<byte>, in1: seq<byte>)
    requires JoinKey(e, s, in0, in1).Good? && s.context.stage == 1
    ensures JoinMoved(e, s, 1, JoinKey(e, s, in0, in1).next)
  {}

  lemma JoinEarlyMoves(e: Env, s: Session, k: nat, in0: seq<byte>, in1: seq<byte>, x: Random)
    requires 2 <= k <= 3 && JoinBody(e, s, k, in0, in1, x).Good? && s.context.stage == k
    ensures JoinMoved(e, s, k, JoinBody(e, s, k, in0, in1, x).next)
  {}

  /** Stages 4 to 21 touch nothing but the context fields digest, seed, scratch and stage. */
  predicate ContextOnly(s: Session, next: Session) {
    && next.kind == s.kind && next.handle == s.handle && next.issuer == s.issuer
    && next.tpm == s.tpm && next.join == s.join
    && next.context.context == s.context.context
    && next.context.stage == s.context.stage + 1
  }

  /** The seed is drawn at stage 9 and the challenge is final after stage 16. */
  predicate JoinKept(s: Session, k: nat, next: Session) {
    && ContextOnly(s, next)
    && (k != 9 ==> next.context.seed == s.context.seed)
    && (k > 16 ==> next.context.digest == s.context.digest)
  }

  lemma JoinProductKeeps(e: Env, s: Session, k: nat, in0: seq<byte>, in1: seq<byte>, x: Random)
    requires 4 <= k <= 12 && JoinProduct(e, s, k, in0, in1, x).Good?
    ensures JoinKept(s, k, JoinProduct(e, s, k, in0, in1, x).next)
  {}

  lemma JoinMiddle(e: Env, s: Session, k: nat, in0: seq<byte>, in1: seq<byte>, x: Random)
    requires 4 <= k < 22 && JoinBody(e, s, k, in0, in1, x).Good?
    ensures JoinKept(s, k, JoinBody(e, s, k, in0, in1, x).next)
  {
    if k <= 12 && k != 8 { JoinProductKeeps(e, s, k, in0, in1, x); }
  }

  lemma JoinMiddleMoves(e: Env, s: Session, k: nat, in0: seq<byte>, in1: seq<byte>, x: Random)
    requires 4 <= k < 22 && JoinBody(e, s, k, in0, in1, x).Good? && s.context.stage == k
    requires JoinMatches(e, s)
    ensures JoinMoved(e, s, k, JoinBody(e, s, k, in0, in1, x).next)
  {
    JoinMiddle(e, s, k, in0, in1, x);
  }

  lemma JoinLateMoves(e: Env, s: Session, k: nat, in0: seq<byte>, x: Random)
    requires 22 <= k <= 24 && JoinBody(e, s, k, in0, [], x).Good? && s.context.stage == k
    ensures JoinMoved(e, s, k, JoinBody(e, s, k, in0, [], x).next)
  {}

  /** What a successful Sign stage leaves behind. */
  predicate SignMoved(e: Env, s: Session, k: nat, next: Session) {
    if k == 15 then next == Blank(e)
    else
      && next.kind == s.kind && next.handle == s.handle && SignMatches(e, next)
      && next.context.stage == k + 1
  }

  predicate SignKept(s: Session, k: nat, next: Session) {
    && ContextOnly(s, next) && next.context.seed == s.context.seed
    && (k > 10 ==> next.context.digest == s.context.digest)
  }

  lemma SignPrivateKeeps(e: Env, s: Session, k: nat, in0: seq<byte>)
    requires 13 <= k < 15 && SignPrivate(e, s, k, in0).Good?
    ensures SignKept(s, k, SignPrivate(e, s, k, in0).next)
  {}

  lemma SignProductKeeps(e: Env, s: Session, k: nat, in0: seq<byte>, in1: seq<byte>)
    requires 2 <= k <= 5 && SignProduct(e, s, k, in0, in1).Good?
    ensures SignKept(s, k, SignProduct(e, s, k, in0, in1).next)
  {}

  lemma SignMiddle(e: Env, s: Session, k: nat, in0: seq<byte>, in1: seq<byte>, x: Random)
    requires 2 <= k < 15 && SignBody(e, s, k, in0, in1, x).Good?
    ensures SignKept(s, k, SignBody(e, s, k, in0, in1, x).next)
  {
    if k <= 5 { SignProductKeeps(e, s, k, in0, in1); }
    if k >= 13 { SignPrivateKeeps(e, s, k, in0); }
  }

  lemma SignMoves(e: Env, s: Session, k: nat, in0: seq<byte>, in1: seq<byte>, x: Random)
    requires 1 <= k <= 15 && SignStage(e, s, k, in0, in1, x).Good?
    ensures s.context.stage == k && (k >= 2 ==> IssuerMatches(e, s) && SignMatches(e, s))
    ensures SignMoved(e, s, k, SignStage(e, s, k, in0, in1, x).next)
  {
    if 2 <= k < 15 { SignMiddle(e, s, k, in0, in1, x); }
  }

  /** A call that reaches the session either succeeds at exactly the stage the session expects,
      and moves it on, or wipes it. */
  lemma AdvanceOrWipe(e: Env, st: State, c: Call)
    requires Reaches(st, c) && c.stage > 0
    ensures var (next, reply) := Step(e, st, c);
      && next.current == st.current
      && (reply.Failed? ==> next.session == Blank(e))
      && (reply.Done? ==>
            && st.session.context.stage == c.stage
            && (c.command == JOIN ==> JoinMatches(e, st.session) && JoinMoved(e, st.session, c.stage, next.session))
            && (c.command == SIGN ==> SignMoved(e, st.session, c.stage, next.session)))
  {
    if Effects(e, st, c).Good? {
      if c.command == JOIN {
        JoinMoves(e, st.session, c.stage, c.in0, c.in1, c.random);
      } else {
        SignMoves(e, st.session, c.stage, c.in0, c.in1, c.random);
      }
    }
  }

  // ---- the order of the stages

  function Ones(n: nat): (r: seq<(Command, nat)>)
    ensures |r| == n
  {
    seq(n, _ => (JOIN, 1))
  }

  /** The stages from `from` up to but not including `top`. */
  function Later(mode: Command, from: nat, top: nat): (r: seq<(Command, nat)>)
    requires from <= top
    ensures |r| == top - from
  {
    seq(top - from, i => (mode, from + i))
  }

  /** The one order in which the calls of a session can succeed. */
  function Expected(h: History): seq<(Command, nat)> {
    var start := [(h.opener, 0)] + Ones(h.ones);
    if h.top <= 1 then start
    else if h.mode == SIGN then start + [(SIGN, 1)] + Later(SIGN, 2, h.top)
    else start + Later(JOIN, 2, h.top)
  }

  ghost predicate Ordered(h: History) {
    && h.order == Expected(h)
    && h.ones <= h.declared
    && (h.opener == SIGN ==> h.ones == 0)
    && (h.top >= 2 && h.mode == JOIN ==> h.opener == JOIN && h.ones == h.declared)
  }

  /** The running session as the history knows it, and what its context digest covers. */
  ghost predicate Current(e: Env, st: State, h: History) {
    && st.session == h.last && st.session.handle == HANDLE && st.session.context.stage == h.top >= 1
    && (if h.top == 1 then
          if h.opener == JOIN then JoinMatches(e, h.last) && h.last.tpm.count == h.declared - h.ones > 0
          else h.last.context.context == Zeros(DIGEST)
        else if h.mode == JOIN then JoinMatches(e, h.last)
        else SignMatches(e, h.last))
  }

  /** The effect of repeating a recorded call. */
  function Again(e: Env, mode: Command, k: nat, n: Entry): Effect {
    if k == 0 || k > Last(mode) then Bad(STAGE)
    else if mode == JOIN then JoinStage(e, n.before, k, n.in0, n.in1, n.random)
    else SignStage(e, n.before, k, n.in0, n.in1, n.random)
  }

  /** The first stage whose call is recorded for good. */
  function First(mode: Command): nat {
    if mode == JOIN then 2 else 1
  }

  type Replay = (Command, nat, Entry) -> Effect

  function Replayed(e: Env): Replay {
    (mode: Command, k: nat, n: Entry) => Again(e, mode, k, n)
  }

  /** Every recorded call starts from the session that the one before it left behind. */
  ghost predicate Chain(again: Replay, h: History) {
    h.top >= 2 ==>
      && h.top <= Last(h.mode) + 1
      && (forall k :: First(h.mode) <= k < h.top ==> k in h.seen)
      && (forall k {:trigger h.seen[k]} :: First(h.mode) <= k < h.top ==>
            again(h.mode, k, h.seen[k]) ==
              Good(if k + 1 < h.top then h.seen[k + 1].before else h.last, h.seen[k].output))
  }

  ghost predicate Linked(e: Env, h: History) {
    Chain(Replayed(e), h)
  }

  /** The strings hashed by a recorded call. */
  ghost predicate Gathered(e: Env, k: nat, n: Entry, hashed: set<seq<byte>>) {
    && n.in0 in hashed && n.in1 in hashed && Contents(e.unwrap(n.in0)) in hashed
    && e.ofIssuer(n.before.issuer) in hashed
    && (k == 22 ==> ToBytes(V0(e, n.before, n.in0)) in hashed)
    && (k == 23 ==> ToBytes(V1(n.before, n.in0)) in hashed)
  }

  ghost predicate Collected(e: Env, h: History) {
    forall k :: k in h.seen ==> Gathered(e, k, h.seen[k], h.hashed)
  }

  ghost predicate Consistent(e: Env, st: State, h: History) {
    && st.session.kind in {ST_INVALID, ST_DAA}
    && (st.session.kind == ST_DAA ==> h.top >= 1 && Current(e, st, h))
    && (h.top >= 1 ==> Ordered(h) && Linked(e, h))
  }

  ghost predicate Invariant(e: Env, st: State, h: History) {
    Consistent(e, st, h) && Collected(e, h)
  }

  /** The digest of a Join context is neither that of a Sign context nor the empty one. */
  predicate Distinguishes(e: Env, s: Session) {
    e.hash(JoinInput(e, s)) != e.hash(SignInput(e, s)) && e.hash(JoinInput(e, s)) != Zeros(DIGEST)
  }

  lemma CollisionlessDistinguishes(e: Env, s: Session, strings: set<seq<byte>>)
    requires Marshals(e) && Collisionless(e, strings) && JoinInput(e, s) in strings && SignInput(e, s) in strings
    ensures Distinguishes(e, s)
  {
    assert Bytewise(s.join);
    assert |JoinInput(e, s)| == |SignInput(e, s)| + 286;
  }

  lemma Continues(e: Env, st: State, h: History, c: Call)
    requires Consistent(e, st, h) && Succeeds(e, st, c) && c.stage >= 1 && Distinguishes(e, st.session)
    ensures h.top == c.stage && Current(e, st, h)
    ensures c.stage >= 2 ==> h.mode == c.command
    ensures c.stage == 1 && c.command == JOIN ==> h.opener == JOIN
  {
    AdvanceOrWipe(e, st, c);
    if c.command == SIGN && c.stage >= 2 {
      SignMoves(e, st.session, c.stage, c.in0, c.in1, c.random);
    }
  }

  /** `g` is `h` with one more successful call. */
  ghost predicate Extends(h: History, g: History, command: Command, k: nat, n: Entry) {
    && g.opener == h.opener && g.declared == h.declared && g.mode == command
    && g.ones == (if command == JOIN && k == 1 then h.ones + 1 else h.ones)
    && g.order == h.order + [(command, k)] && g.seen == h.seen[k := n]
    && g.keys == (if command == JOIN && k == 1 then h.keys + [n] else h.keys)
    && n.before == h.last && h.top == k >= 1 && k <= Last(command)
    && (k >= 2 ==> h.mode == command)
    && (if command == JOIN && k == 1 then
          && h.opener == JOIN && g.top == (if h.declared - h.ones == 1 then 2 else 1)
          && h.declared - h.ones > 0
        else g.top == k + 1)
  }

  lemma RecordedExtends(e: Env, st: State, h: History, c: Call) returns (n: Entry)
    requires Consistent(e, st, h) && Succeeds(e, st, c) && c.stage >= 1 && Distinguishes(e, st.session)
    ensures Extends(h, Recorded(e, st, h, c), c.command, c.stage, n)
    ensures Again(e, c.command, c.stage, n) == Good(Recorded(e, st, h, c).last, n.output)
    ensures n.in0 == c.in0 && n.in1 == c.in1
  {
    Continues(e, st, h, c);
    AdvanceOrWipe(e, st, c);
    n := Entry(st.session, c.in0, c.in1, c.random, Effects(e, st, c).output);
  }

  lemma OrderedNext(h: History, g: History, command: Command, k: nat, n: Entry)
    requires Ordered(h) && Extends(h, g, command, k, n)
    ensures Ordered(g)
  {
    var start := [(h.opener, 0)] + Ones(h.ones);
    if k == 1 {
      assert start + [(JOIN, 1)] == [(h.opener, 0)] + Ones(h.ones + 1);
      assert Later(JOIN, 2, 2) == [] && Later(SIGN, 2, 2) == [];
    } else {
      LaterMore(h.mode, 2, h.top);
    }
  }

  lemma LaterMore(mode: Command, from: nat, top: nat)
    requires from <= top
    ensures Later(mode, from, top) + [(mode, top)] == Later(mode, from, top + 1)
  {}

  lemma ChainNext(again: Replay, h: History, g: History, command: Command, k: nat, n: Entry)
    requires Chain(again, h) && Extends(h, g, command, k, n)
    requires again(command, k, n) == Good(g.last, n.output)
    ensures Chain(again, g)
  {}

  lemma CurrentNext(e: Env, st: State, h: History, c: Call)
    requires Consistent(e, st, h) && Succeeds(e, st, c) && c.stage >= 1 && Distinguishes(e, st.session)
    requires Step(e, st, c).0.session.kind == ST_DAA
    ensures Current(e, Step(e, st, c).0, Recorded(e, st, h, c))
  {
    Continues(e, st, h, c);
    AdvanceOrWipe(e, st, c);
  }

  lemma OpenedNext(e: Env, st: State, h: History, c: Call)
    requires Succeeds(e, st, c) && c.stage == 0
    ensures Consistent(e, Step(e, st, c).0, Recorded(e, st, h, c))
  {
    var g := Recorded(e, st, h, c);
    assert g.order == Expected(g);
    if c.command == JOIN { SealJoinMatches(e, JoinOpen(e, HANDLE, c.in0).next); }
  }

  lemma KindNext(e: Env, st: State, c: Call)
    requires Succeeds(e, st, c) && c.stage >= 1
    ensures Step(e, st, c).0.session.kind in {ST_INVALID, ST_DAA}
  {
    AdvanceOrWipe(e, st, c);
  }

  lemma StageNext(e: Env, st: State, h: History, c: Call)
    requires Consistent(e, st, h) && Succeeds(e, st, c) && c.stage >= 1 && Distinguishes(e, st.session)
    ensures Consistent(e, Step(e, st, c).0, Recorded(e, st, h, c))
  {
    var g := Recorded(e, st, h, c);
    var n := RecordedExtends(e, st, h, c);
    OrderedNext(h, g, c.command, c.stage, n);
    ChainNext(Replayed(e), h, g, c.command, c.stage, n);
    KindNext(e, st, c);
    if Step(e, st, c).0.session.kind == ST_DAA { CurrentNext(e, st, h, c); }
  }

  lemma ConsistentNext(e: Env, st: State, h: History, c: Call)
    requires Consistent(e, st, h) && Distinguishes(e, st.session)
    ensures Consistent(e, Step(e, st, c).0, Recorded(e, st, h, c))
  {
    if Succeeds(e, st, c) {
      if c.stage == 0 { OpenedNext(e, st, h, c); } else { StageNext(e, st, h, c); }
    }
  }

  lemma GatheredNow(e: Env, st: State, c: Call, n: Entry)
    requires c.Stage? && c.stage <= Last(c.command)
    requires n.before == st.session && n.in0 == c.in0 && n.in1 == c.in1
    ensures Gathered(e, c.stage, n, Hashed(e, st, c))
  {}

  lemma CollectedMore(e: Env, h: History, g: History, k: nat, n: Entry, more: set<seq<byte>>)
    requires Collected(e, h) && g.seen == h.seen[k := n] && g.hashed == h.hashed + more
    requires Gathered(e, k, n, more)
    ensures Collected(e, g)
  {}

  lemma CollectedSame(e: Env, h: History, g: History)
    requires Collected(e, h) && (g.seen == h.seen || g.seen == map[]) && h.hashed <= g.hashed
    ensures Collected(e, g)
  {}

  lemma CollectedNext(e: Env, st: State, h: History, c: Call)
    requires Collected(e, h)
    ensures Collected(e, Follow(e, st, h, c))
  {
    HashedIn(e, st, h, c);
    if Succeeds(e, st, c) && c.stage > 0 {
      var n := Entry(st.session, c.in0, c.in1, c.random, Effects(e, st, c).output);
      GatheredNow(e, st, c, n);
      CollectedMore(e, h, Follow(e, st, h, c), c.stage, n, Hashed(e, st, c));
    } else {
      CollectedSame(e, h, Follow(e, st, h, c));
    }
  }

  lemma HashedIn(e: Env, st: State, h: History, c: Call)
    ensures h.hashed + Hashed(e, st, c) == Follow(e, st, h, c).hashed
  {}

  lemma InvariantNext(e: Env, st: State, h: History, c: Call)
    requires Marshals(e) && Invariant(e, st, h) && Collisionless(e, Follow(e, st, h, c).hashed)
    ensures Invariant(e, Step(e, st, c).0, Follow(e, st, h, c))
  {
    HashedIn(e, st, h, c);
    CollisionlessDistinguishes(e, st.session, Follow(e, st, h, c).hashed);
    ConsistentNext(e, st, h, c);
    CollectedNext(e, st, h, c);
    SameHistory(e, Step(e, st, c).0, Recorded(e, st, h, c), Follow(e, st, h, c));
  }

  lemma SameHistory(e: Env, st: State, h: History, g: History)
    requires Consistent(e, st, h) && g == h.(hashed := g.hashed)
    ensures Consistent(e, st, g)
  {
    assert Chain(Replayed(e), h) ==> Chain(Replayed(e), g);
  }

  /** A saved session is as consistent with its history as one in the slot. */
  ghost predicate Keeps(e: Env, v: Shelved, hashed: set<seq<byte>>) {
    && v.session.kind == ST_DAA && Consistent(e, State(v.session, HANDLE), v.history)
    && Collected(e, v.history.(hashed := hashed))
  }

  ghost predicate WorldInvariant(e: Env, w: World) {
    Invariant(e, w.st, w.h) && forall k :: 0 <= k < |w.shelf| ==> Keeps(e, w.shelf[k], w.h.hashed)
  }

  lemma KeepsMore(e: Env, v: Shelved, hashed: set<seq<byte>>, more: set<seq<byte>>)
    requires Keeps(e, v, hashed) && hashed <= more
    ensures Keeps(e, v, more)
  {
    CollectedSame(e, v.history.(hashed := hashed), v.history.(hashed := more));
  }

  /** A swap of sessions keeps what is known about each of them. */
  lemma SwapNext(e: Env, w: World, a: Action)
    requires WorldInvariant(e, w) && !a.Do?
    ensures WorldInvariant(e, Next(e, w, a))
  {
    if a.Save? && w.st.session.kind == ST_DAA {
      SameHistory(e, State(w.st.session, HANDLE), w.h, w.h.(hashed := w.h.hashed));
      assert Keeps(e, Shelved(w.st.session, w.h), w.h.hashed);
    } else if a.Load? && a.index < |w.shelf| {
      var v := w.shelf[a.index];
      assert Keeps(e, v, w.h.hashed);
      SameHistory(e, State(v.session, HANDLE), v.history, v.history.(hashed := w.h.hashed));
    }
  }

  lemma NextInvariant(e: Env, w: World, a: Action)
    requires Marshals(e) && WorldInvariant(e, w) && Collisionless(e, Next(e, w, a).h.hashed)
    ensures WorldInvariant(e, Next(e, w, a))
  {
    if a.Do? {
      var v := Next(e, w, a);
      HashedIn(e, w.st, w.h, a.call);
      InvariantNext(e, w.st, w.h, a.call);
      forall k | 0 <= k < |w.shelf| ensures Keeps(e, w.shelf[k], v.h.hashed) {
        KeepsMore(e, w.shelf[k], w.h.hashed, v.h.hashed);
      }
    } else {
      SwapNext(e, w, a);
    }
  }

  lemma HashedNext(e: Env, w: World, a: Action)
    ensures w.h.hashed <= Next(e, w, a).h.hashed
  {
    if a.Do? { HashedIn(e, w.st, w.h, a.call); }
  }

  /** In every run without a collision, swaps included, the successful calls of a session come in
      the one expected order: stage 0, Join stage 1 as often as announced, and from stage 2 on
      either only Join stages or only Sign stages, each once and ascending. */
  lemma {:induction false} RunInvariant(e: Env, actions: seq<Action>)
    requires Marshals(e) && Collisionless(e, Run(e, actions).h.hashed)
    ensures WorldInvariant(e, Run(e, actions))
  {
    if actions != [] {
      var before, a := actions[..|actions| - 1], actions[|actions| - 1];
      HashedNext(e, Run(e, before), a);
      RunInvariant(e, before);
      NextInvariant(e, Run(e, before), a);
    }
  }

  /** A longer run has hashed everything that a shorter one has. */
  lemma {:induction false} HashedGrows(e: Env, first: seq<Action>, more: seq<Action>)
    ensures Run(e, first).h.hashed <= Run(e, first + more).h.hashed
    decreases |more|
  {
    if more == [] {
      assert first + more == first;
    } else {
      var before, a := more[..|more| - 1], more[|more| - 1];
      HashedGrows(e, first, before);
      assert (first + more)[..|first + more| - 1] == first + before;
      HashedNext(e, Run(e, first + before), a);
    }
  }
}
