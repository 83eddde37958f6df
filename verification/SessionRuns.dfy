/** Runs of session commands under an ideal blob digest (only issued blobs pass) and a random
    generator that never repeats: every blob is reloaded at most once, and every even nonce
    authorizes at most one command. */
module SessionRuns {
  import opened Wrappers
  import opened Handles
  import opened Sessions
  import Runs

  datatype Event =
    | OpenOiap(even: Nonce)
    | OpenOsap(entity: nat, value: nat, entitySecret: Option<nat>, odd: Nonce, even: Nonce, evenOsap: Nonce)
    | OpenDsap(entity: nat, outcome: Outcome, odd: Nonce, even: Nonce, evenDsap: Nonce)
    | VerifyAuth(auth: Auth, secret: nat, handle: nat, next: Nonce)
    | SaveContext(handle: nat, resource: nat, name: nat, iv: nat)
    | LoadContext(handle: nat, keep: bool, blob: Blob, keys: Keys, residue: (Rights, nat))
    | FlushSpecific(handle: nat, resource: nat, keys: Keys)
    | InvalidateSessions(handle: nat)
    | StartupClear(nonce: Nonce)

  /** What the runs leave open: the digests, the tables of delegable commands, and for which handles
      and ordinals there is a command that calls `tpm_verify_auth`. */
  datatype Setting = Setting(share: Sharing, keyed: Keyed, permits: Permits, called: (nat, nat) -> bool)

  /** The state with the log of the run: blobs issued, blobs loaded, even nonces that have
      authorized a command, and every nonce drawn. */
  datatype World = World(st: State, issued: seq<Blob>, loaded: seq<Blob>, used: seq<Nonce>, drawn: set<Nonce>)

  predicate SizedWorld(w: World) {
    Sized(w.st)
  }

  function Act(c: Setting, st: State, issued: seq<Blob>, e: Event): (r: (State, Reply))
    requires Sized(st)
    ensures Sized(r.0)
  {
    match e
    case OpenOiap(even) => Oiap(st, even)
    case OpenOsap(entity, value, secret, odd, even, evenOsap) =>
      Osap(st, c.share, entity, value, secret, odd, even, evenOsap)
    case OpenDsap(entity, d, odd, even, evenDsap) => Dsap(st, c.share, entity, d, odd, even, evenDsap)
    case VerifyAuth(a, secret, handle, next) => Verify(st, c.keyed, c.permits, a, secret, handle, next)
    case SaveContext(h, resource, name, iv) => Save(st, h, resource, name, iv)
    case LoadContext(h, keep, b, keys, residue) => Load(st, b in issued, h, keep, b, keys, residue)
    case FlushSpecific(h, resource, keys) => Flush(st, h, resource, keys)
    case InvalidateSessions(h) => (st.(sessions := Invalidated(st.sessions, h)), Done)
    case StartupClear(nonce) => (Cleared(nonce), Done)
  }

  /** The command leaves a slot in use without having set it up: an early return of TPM_OSAP or
      TPM_DSAP. */
  predicate Revives(st: State, e: Event)
    requires Sized(st)
  {
    FreeFrom(st.sessions, 0) < MAX_SESSIONS &&
    match e
    case OpenOsap(entity, value, _, _, _, _) => OsapTarget(entity, value).Early?
    case OpenDsap(_, d, _, _, _) => d.Refused?
    case _ => false
  }

  /** The nonces that the command draws if it gets that far; an early return draws none. */
  function Draws(st: State, e: Event): set<Nonce>
    requires Sized(st)
  {
    if Revives(st, e) then {}
    else
      match e
      case OpenOiap(even) => {even}
      case OpenOsap(_, _, _, _, even, evenOsap) => {even, evenOsap}
      case OpenDsap(_, _, _, even, evenDsap) => {even, evenDsap}
      case VerifyAuth(_, _, _, next) => {next}
      case StartupClear(nonce) => {nonce}
      case _ => {}
  }

  function Step(c: Setting, w: World, e: Event): (r: World)
    requires SizedWorld(w)
    ensures SizedWorld(r)
  {
    var (st, reply) := Act(c, w.st, w.issued, e);
    World(st,
          if reply.Issued? then w.issued + [reply.blob] else w.issued,
          if e.LoadContext? && reply.Loaded? then w.loaded + [e.blob] else w.loaded,
          if reply.Authorized? then w.used + [reply.even] else w.used,
          w.drawn + Draws(w.st, e))
  }

  /** After a startup; the all-zero nonce of an empty slot counts as drawn. */
  function Start(first: Nonce): (w: World)
    ensures SizedWorld(w)
  {
    World(Cleared(first), [], [], [], {0, first})
  }

  ghost function Next(c: Setting): (World, Event) -> World {
    (w: World, e: Event) => if SizedWorld(w) then Step(c, w, e) else w
  }

  ghost function Run(c: Setting, w: World, events: seq<Event>): (r: World)
    requires SizedWorld(w)
    ensures SizedWorld(r)
  {
    RunSized(c, w, events);
    Runs.After(Next(c), w, events)
  }

  lemma {:induction false} RunSized(c: Setting, w: World, events: seq<Event>)
    requires SizedWorld(w)
    ensures SizedWorld(Runs.After(Next(c), w, events))
  {
    if events != [] { RunSized(c, w, events[..|events| - 1]); }
  }

  lemma RunLast(c: Setting, w: World, events: seq<Event>)
    requires SizedWorld(w) && events != []
    ensures Run(c, w, events) == Step(c, Run(c, w, events[..|events| - 1]), events[|events| - 1])
  {}

  lemma RunNext(c: Setting, w: World, events: seq<Event>, n: nat)
    requires SizedWorld(w) && n < |events|
    ensures Run(c, w, events[..n + 1]) == Step(c, Run(c, w, events[..n]), events[n])
  {
    assert events[..n + 1][..n] == events[..n];
    RunLast(c, w, events[..n + 1]);
  }

  /** Some command makes the authorization. */
  predicate Called(c: Setting, e: Event) {
    e.VerifyAuth? ==> c.called(e.handle, e.auth.ordinal)
  }

  ghost function Drawing(c: Setting): (World, Event) -> bool {
    (w: World, e: Event) => SizedWorld(w) && Draws(w.st, e) !! w.drawn && Called(c, e)
  }

  /** No nonce is drawn twice, and the authorizations are those of commands. */
  ghost predicate Fresh(c: Setting, w: World, events: seq<Event>) {
    Runs.Along(Next(c), Drawing(c), w, events)
  }

  ghost predicate NoRepeats<T(!new)>(s: seq<T>) {
    forall i, j :: 0 <= i < j < |s| ==> s[i] != s[j]
  }

  // ---- the context list

  /** Nonzero entries are distinct and no larger than the count, which does not wrap. */
  ghost predicate ListValid(st: State) {
    && Sized(st) && st.count <= 0xffff_fffd
    && (forall i :: 0 <= i < |st.list| ==> st.list[i] <= st.count)
    && (forall i, j :: 0 <= i < j < |st.list| && st.list[i] != 0 ==> st.list[i] != st.list[j])
  }

  /** Issued blobs carry distinct counts per boot, and a loaded one has left the list. */
  ghost predicate BlobsValid(w: World) {
    && w.st.nonce in w.drawn
    && (forall b :: b in w.issued ==> b.nonce in w.drawn && b.count > 0)
    && (forall b :: b in w.issued && b.nonce == w.st.nonce ==> b.count <= w.st.count)
    && (forall a, b :: a in w.issued && b in w.issued && a.nonce == b.nonce && a.count == b.count ==> a == b)
    && (forall b :: b in w.loaded ==> b in w.issued && (b.nonce == w.st.nonce ==> b.count !in w.st.list))
    && NoRepeats(w.loaded)
  }

  ghost predicate Valid(w: World) {
    ListValid(w.st) && BlobsValid(w)
  }

  /** Commands other than save, load, flush of a context and startup leave the list alone. */
  predicate ListKept(st: State, r: State) {
    r.list == st.list && r.count == st.count && r.nonce == st.nonce
  }

  lemma ActKeepsList(c: Setting, st: State, issued: seq<Blob>, e: Event)
    requires Sized(st) && !e.SaveContext? && !e.LoadContext? && !e.FlushSpecific? && !e.StartupClear?
    ensures ListKept(st, Act(c, st, issued, e).0) && !Act(c, st, issued, e).1.Issued?
  {}

  lemma ClearEntry(st: State, r: State, i: nat)
    requires ListValid(st) && i < MAX_SESSION_LIST && Sized(r) && r.nonce == st.nonce
    requires r.list == st.list[i := 0] && r.count == st.count
    ensures ListValid(r) && (forall x :: x != 0 && x in r.list ==> x in st.list)
    ensures st.list[i] != 0 ==> st.list[i] !in r.list
  {}

  lemma SaveValid(w: World, h: nat, resource: nat, name: nat, iv: nat)
    requires Valid(w)
    ensures var (st, reply) := Save(w.st, h, resource, name, iv);
      ListValid(st) && st.nonce == w.st.nonce && st.count >= w.st.count
      && (reply.Issued? ==> reply.blob.count == st.count == w.st.count + 2 && reply.blob.nonce == st.nonce)
      && (reply.Issued? ==> forall x :: x in st.list ==> x in w.st.list || x == st.count)
      && (!reply.Issued? ==> st.list == w.st.list)
  {}

  lemma SaveStep(c: Setting, w: World, e: Event)
    requires Valid(w) && e.SaveContext?
    ensures Valid(Step(c, w, e))
  {
    SaveValid(w, e.handle, e.resource, e.name, e.iv);
  }

  lemma LoadStep(c: Setting, w: World, e: Event)
    requires Valid(w) && e.LoadContext?
    ensures Valid(Step(c, w, e))
  {
    var i := FindFrom(w.st.list, e.blob.count, 0);
    var r := Step(c, w, e);
    if i < MAX_SESSION_LIST && r.st.list == w.st.list[i := 0] {
      ClearEntry(w.st, r.st, i);
    }
  }

  lemma FlushStep(c: Setting, w: World, e: Event)
    requires Valid(w) && e.FlushSpecific?
    ensures Valid(Step(c, w, e))
  {
    var i := FindFrom(w.st.list, e.handle, 0);
    if e.resource == RT_CONTEXT && i < MAX_SESSION_LIST {
      ClearEntry(w.st, Step(c, w, e).st, i);
    }
  }

  lemma StepValid(c: Setting, w: World, e: Event)
    requires Valid(w) && Draws(w.st, e) !! w.drawn
    ensures Valid(Step(c, w, e))
  {
    if e.SaveContext? {
      SaveStep(c, w, e);
    } else if e.LoadContext? {
      LoadStep(c, w, e);
    } else if e.FlushSpecific? {
      FlushStep(c, w, e);
    } else if !e.StartupClear? {
      ActKeepsList(c, w.st, w.issued, e);
    }
  }

  /** Over every run, even across startups: the context list is valid and no issued blob loads
      twice. */
  lemma {:induction false} LoadedOnce(c: Setting, first: Nonce, events: seq<Event>)
    requires Fresh(c, Start(first), events)
    ensures Valid(Run(c, Start(first), events)) && NoRepeats(Run(c, Start(first), events).loaded)
  {
    if events != [] {
      var before := events[..|events| - 1];
      LoadedOnce(c, first, before);
      RunLast(c, Start(first), events);
      StepValid(c, Run(c, Start(first), before), events[|events| - 1]);
    }
  }

  // ---- a load writes exactly what was saved

  /** The fields of a session that a context blob carries. */
  ghost predicate SameSession(s: Session, t: Session) {
    && t.kind == s.kind && t.even == s.even && t.last == s.last && t.secret == s.secret
    && t.handle == s.handle && t.entity == s.entity
    && (s.kind == DSAP ==> t.rights == s.rights) && (s.kind == TRANSPORT ==> t.transport == s.transport)
  }

  /** A successful load fills one slot that was free, with the saved data, and changes nothing
      else but the list entry of the blob (and the current DAA handle). */
  lemma LoadWrites(st: State, h: nat, keep: bool, b: Blob, keys: Keys, residue: (Rights, nat))
    requires Sized(st) && Load(st, true, h, keep, b, keys, residue).1.Loaded?
    ensures var r := Load(st, true, h, keep, b, keys, residue).0;
      b.count in st.list && r.count == st.count && r.nonce == st.nonce == b.nonce &&
      match b.saved
      case OfSession(s) =>
        r.daa == st.daa && r.current == st.current &&
        exists k :: 0 <= k < MAX_SESSIONS && st.sessions[k].kind == INVALID
          && r.sessions == st.sessions[k := r.sessions[k]] && SameSession(s, r.sessions[k])
      case OfDaa(d) =>
        r.sessions == st.sessions &&
        exists k :: 0 <= k < MAX_SESSIONS_DAA && st.daa[k].kind == INVALID && r.daa == st.daa[k := d]
  {
    var r := Load(st, true, h, keep, b, keys, residue).0;
    if b.saved.OfSession? {
      var k := LoadSlot(st, h, keep, b.saved.session.kind).0;
      assert r.sessions == st.sessions[k := r.sessions[k]] && SameSession(b.saved.session, r.sessions[k]);
    } else {
      var k := LoadDaaSlot(st, h, keep).0;
      assert st.daa[k].kind == INVALID && r.daa == st.daa[k := b.saved.daa];
    }
  }

  // ---- even nonces

  predicate Live(st: State, i: int) {
    0 <= i < |st.sessions| && st.sessions[i].kind != INVALID
  }

  /** The saved session could be loaded as far as its key goes. */
  predicate Loadable(s: Session) {
    s.kind == OSAP ==> Keyable(s.handle)
  }

  /** The session passes the checks before the digest for this handle and command. */
  predicate Admits(c: Setting, s: Session, handle: nat, ordinal: nat) {
    && (s.kind in {OSAP, DSAP} ==> s.handle == handle)
    && (s.kind == DSAP ==> Objection(c.permits, s.rights, ordinal).None?)
  }

  /** There is a command that the session could authorize. */
  ghost predicate Usable(c: Setting, s: Session) {
    s.kind != INVALID && exists handle, ordinal :: c.called(handle, ordinal) && Admits(c, s, handle, ordinal)
  }

  /** Usability depends on the type, the handle and the rights of a delegated session. */
  lemma SameUse(c: Setting, s: Session, t: Session)
    requires t.kind == s.kind && t.handle == s.handle && (s.kind == DSAP ==> t.rights == s.rights)
    ensures Usable(c, s) <==> Usable(c, t)
  {
    assert forall handle, ordinal :: Admits(c, s, handle, ordinal) <==> Admits(c, t, handle, ordinal);
  }

  /** A slot whose nonce can authorize a command. */
  ghost predicate Holds(c: Setting, st: State, i: int) {
    0 <= i < |st.sessions| && Usable(c, st.sessions[i])
  }

  /** A saved session that could still be loaded and used. */
  ghost predicate Pending(c: Setting, w: World, b: Blob) {
    && b in w.issued && b.nonce == w.st.nonce && b.count in w.st.list && b.saved.OfSession?
    && Loadable(b.saved.session) && Usable(c, b.saved.session)
  }

  /** Drawn and not yet spent. */
  predicate Unspent(w: World, x: Nonce) {
    x in w.drawn && x !in w.used
  }

  /** Usable sessions, live or to be loaded, hold distinct unspent nonces. */
  ghost predicate NoncesValid(c: Setting, w: World) {
    && (forall i :: Holds(c, w.st, i) ==> Unspent(w, w.st.sessions[i].even))
    && (forall b :: Pending(c, w, b) ==> Unspent(w, b.saved.session.even))
    && (forall i, j :: Holds(c, w.st, i) && Holds(c, w.st, j) && i != j ==>
          w.st.sessions[i].even != w.st.sessions[j].even)
    && (forall i, b :: Holds(c, w.st, i) && Pending(c, w, b) ==> w.st.sessions[i].even != b.saved.session.even)
    && (forall a, b :: Pending(c, w, a) && Pending(c, w, b) && a != b ==>
          a.saved.session.even != b.saved.session.even)
    && (forall x :: x in w.used ==> x in w.drawn)
    && NoRepeats(w.used)
  }

  /** A slot is given a fresh nonce, or emptied. */
  lemma SlotStep(c: Setting, w: World, r: World, i: nat)
    requires SizedWorld(w) && NoncesValid(c, w) && i < MAX_SESSIONS && SizedWorld(r)
    requires r.issued == w.issued && r.st.list == w.st.list && r.st.nonce == w.st.nonce && w.drawn <= r.drawn
    requires r.st.sessions == w.st.sessions[i := r.st.sessions[i]]
    requires r.st.sessions[i].kind == INVALID || (r.st.sessions[i].even in r.drawn && r.st.sessions[i].even !in w.drawn)
    requires r.used == w.used || (Holds(c, w.st, i) && r.used == w.used + [w.st.sessions[i].even])
    ensures NoncesValid(c, r)
  {
    forall j | Holds(c, r.st, j) && j != i
      ensures Holds(c, w.st, j) && r.st.sessions[j] == w.st.sessions[j]
    {}
    assert forall b :: Pending(c, r, b) <==> Pending(c, w, b);
  }

  /** A slot keeps its nonce and what it can be used for. */
  lemma SameNonce(c: Setting, w: World, r: World, i: nat)
    requires SizedWorld(w) && NoncesValid(c, w) && i < MAX_SESSIONS && SizedWorld(r)
    requires r.issued == w.issued && r.st.list == w.st.list && r.st.nonce == w.st.nonce && w.drawn <= r.drawn
    requires r.st.sessions == w.st.sessions[i := r.st.sessions[i]] && r.used == w.used
    requires r.st.sessions[i].even == w.st.sessions[i].even && (Holds(c, r.st, i) ==> Holds(c, w.st, i))
    ensures NoncesValid(c, r)
  {
    forall j | Holds(c, r.st, j)
      ensures Holds(c, w.st, j) && r.st.sessions[j].even == w.st.sessions[j].even
    {}
    assert forall b :: Pending(c, r, b) <==> Pending(c, w, b);
  }

  /** Sessions are only emptied and list entries only cleared. */
  lemma FewerHolders(c: Setting, w: World, r: World)
    requires SizedWorld(w) && NoncesValid(c, w) && SizedWorld(r) && r.used == w.used && w.drawn <= r.drawn
    requires forall i :: Holds(c, r.st, i) ==> Holds(c, w.st, i) && r.st.sessions[i] == w.st.sessions[i]
    requires forall b :: Pending(c, r, b) ==> Pending(c, w, b)
    ensures NoncesValid(c, r)
  {}

  lemma OpenStep(c: Setting, w: World, e: Event)
    requires SizedWorld(w) && NoncesValid(c, w) && Draws(w.st, e) !! w.drawn && !Revives(w.st, e)
    requires e.OpenOiap? || e.OpenOsap? || e.OpenDsap?
    ensures NoncesValid(c, Step(c, w, e))
  {
    var i := FreeFrom(w.st.sessions, 0);
    if i < MAX_SESSIONS { SlotStep(c, w, Step(c, w, e), i); }
  }

  lemma VerifyStep(c: Setting, w: World, e: Event)
    requires SizedWorld(w) && NoncesValid(c, w) && Draws(w.st, e) !! w.drawn && e.VerifyAuth? && Called(c, e)
    ensures NoncesValid(c, Step(c, w, e))
  {
    var r := Step(c, w, e);
    var i := Index(e.auth.handle);
    if Act(c, w.st, w.issued, e).1.Authorized? {
      assert Admits(c, w.st.sessions[i], e.handle, e.auth.ordinal);
      SlotStep(c, w, r, i);
    } else if r.st != w.st {
      SameUse(c, w.st.sessions[i], r.st.sessions[i]);
      SameNonce(c, w, r, i);
    } else {
      FewerHolders(c, w, r);
    }
  }

  /** What a save that issues a blob does to the slots. */
  lemma SaveMoves(st: State, h: nat, resource: nat, name: nat, iv: nat)
    requires Sized(st) && Save(st, h, resource, name, iv).1.Issued?
    ensures var (r, reply) := Save(st, h, resource, name, iv);
      if reply.blob.saved.OfSession? then
        Live(st, Index(h)) && reply.blob.saved.session == st.sessions[Index(h)]
        && r.sessions == st.sessions[Index(h) := st.sessions[Index(h)].(kind := INVALID)]
      else r.sessions == st.sessions
  {}

  /** A session and its nonce move from slot `i` into a new blob. */
  lemma MovedOut(c: Setting, w: World, r: World, i: nat, b: Blob)
    requires SizedWorld(w) && NoncesValid(c, w) && SizedWorld(r) && r.used == w.used && r.drawn == w.drawn
    requires i < MAX_SESSIONS && b.saved.OfSession? && b.saved.session == w.st.sessions[i]
    requires r.st.sessions == w.st.sessions[i := w.st.sessions[i].(kind := INVALID)]
    requires forall a :: Pending(c, r, a) ==> a == b || Pending(c, w, a)
    ensures NoncesValid(c, r)
  {
    forall j | Holds(c, r.st, j)
      ensures Holds(c, w.st, j) && j != i && r.st.sessions[j] == w.st.sessions[j]
    {}
    assert Pending(c, r, b) ==> Holds(c, w.st, i);
  }

  lemma SaveNonces(c: Setting, w: World, e: Event)
    requires Valid(w) && NoncesValid(c, w) && e.SaveContext?
    ensures NoncesValid(c, Step(c, w, e))
  {
    SaveValid(w, e.handle, e.resource, e.name, e.iv);
    var r := Step(c, w, e);
    var reply := Save(w.st, e.handle, e.resource, e.name, e.iv).1;
    if reply.Issued? {
      SaveMoves(w.st, e.handle, e.resource, e.name, e.iv);
      PendingAfterSave(c, w, r, reply.blob);
      if reply.blob.saved.OfSession? {
        MovedOut(c, w, r, Index(e.handle), reply.blob);
      } else {
        FewerHolders(c, w, r);
      }
    } else {
      FewerHolders(c, w, r);
    }
  }

  lemma PendingAfterSave(c: Setting, w: World, r: World, b: Blob)
    requires BlobsValid(w) && r.issued == w.issued + [b] && r.st.nonce == w.st.nonce == b.nonce
    requires b.count == r.st.count > w.st.count && (forall x :: x in r.st.list ==> x in w.st.list || x == r.st.count)
    ensures forall a :: Pending(c, r, a) ==> a == b || Pending(c, w, a)
  {}

  /** A blob gives its nonce to slot `k` and can no longer be loaded. */
  lemma MovedIn(c: Setting, w: World, r: World, k: nat, b: Blob)
    requires SizedWorld(w) && NoncesValid(c, w) && SizedWorld(r) && r.used == w.used && r.drawn == w.drawn
    requires b.saved.OfSession? && k < MAX_SESSIONS && r.st.sessions[k].even == b.saved.session.even
    requires Holds(c, r.st, k) ==> Pending(c, w, b)
    requires r.st.sessions == w.st.sessions[k := r.st.sessions[k]]
    requires forall a :: Pending(c, r, a) ==> a != b && Pending(c, w, a)
    ensures NoncesValid(c, r)
  {
    forall j | Holds(c, r.st, j) && j != k
      ensures Holds(c, w.st, j) && r.st.sessions[j] == w.st.sessions[j]
    {}
  }

  lemma PendingAfterLoad(c: Setting, w: World, r: World, i: nat)
    requires Valid(w) && i < MAX_SESSION_LIST && r.issued == w.issued && r.st.nonce == w.st.nonce
    requires r.st.list == w.st.list[i := 0]
    ensures forall a :: Pending(c, r, a) ==> Pending(c, w, a) && a.count != w.st.list[i]
  {}

  lemma LoadNonces(c: Setting, w: World, e: Event)
    requires Valid(w) && NoncesValid(c, w) && e.LoadContext?
    ensures NoncesValid(c, Step(c, w, e))
  {
    var r, b := Step(c, w, e), e.blob;
    var i := FindFrom(w.st.list, b.count, 0);
    if r.st != w.st {
      PendingAfterLoad(c, w, r, i);
      if b.saved.OfSession? && r.st.sessions != w.st.sessions {
        var k := LoadSlot(w.st, e.handle, e.keep, b.saved.session.kind).0;
        SameUse(c, b.saved.session, r.st.sessions[k]);
        MovedIn(c, w, r, k, b);
      } else {
        FewerHolders(c, w, r);
      }
    }
  }

  lemma FlushNonces(c: Setting, w: World, e: Event)
    requires Valid(w) && NoncesValid(c, w) && (e.FlushSpecific? || e.InvalidateSessions?)
    ensures NoncesValid(c, Step(c, w, e))
  {
    var r := Step(c, w, e);
    if e.FlushSpecific? && e.resource == RT_CONTEXT && r.st != w.st {
      PendingAfterLoad(c, w, r, FindFrom(w.st.list, e.handle, 0));
    }
    FewerHolders(c, w, r);
  }

  lemma StepNonces(c: Setting, w: World, e: Event)
    requires Valid(w) && NoncesValid(c, w) && Draws(w.st, e) !! w.drawn && Called(c, e) && !Revives(w.st, e)
    ensures NoncesValid(c, Step(c, w, e))
  {
    match e
    case OpenOiap(_) => OpenStep(c, w, e);
    case OpenOsap(_, _, _, _, _, _) => OpenStep(c, w, e);
    case OpenDsap(_, _, _, _, _) => OpenStep(c, w, e);
    case VerifyAuth(_, _, _, _) => VerifyStep(c, w, e);
    case SaveContext(_, _, _, _) => SaveNonces(c, w, e);
    case LoadContext(_, _, _, _, _) => LoadNonces(c, w, e);
    case FlushSpecific(_, _, _) => FlushNonces(c, w, e);
    case InvalidateSessions(_) => FlushNonces(c, w, e);
    case StartupClear(_) => FewerHolders(c, w, Step(c, w, e));
  }

  // ---- early returns

  /** Every nonce in a slot or a blob was drawn, and no session has an unknown type. */
  ghost predicate Tidy(w: World) {
    && SizedWorld(w) && 0 in w.drawn
    && (forall i :: 0 <= i < MAX_SESSIONS ==> w.st.sessions[i].even in w.drawn)
    && (forall i :: Live(w.st, i) ==> w.st.sessions[i].kind in {OIAP, OSAP, DSAP})
    && (forall b :: b in w.issued && b.saved.OfSession? ==>
          b.saved.session.even in w.drawn && b.saved.session.kind in {OIAP, OSAP, DSAP})
  }

  /** One slot changes, to a session of a known type with a drawn nonce. */
  lemma SlotTidy(w: World, r: World, i: nat)
    requires Tidy(w) && SizedWorld(r) && i < MAX_SESSIONS && w.drawn <= r.drawn && r.issued == w.issued
    requires r.st.sessions == w.st.sessions[i := r.st.sessions[i]] && r.st.sessions[i].even in r.drawn
    requires r.st.sessions[i].kind in {INVALID, OIAP, OSAP, DSAP}
    ensures Tidy(r)
  {}

  lemma OpenTidy(c: Setting, w: World, e: Event)
    requires Tidy(w) && (e.OpenOiap? || e.OpenOsap? || e.OpenDsap?)
    ensures Tidy(Step(c, w, e))
  {
    var i := FreeFrom(w.st.sessions, 0);
    if i < MAX_SESSIONS { SlotTidy(w, Step(c, w, e), i); }
  }

  lemma VerifyTidy(c: Setting, w: World, e: Event)
    requires Tidy(w) && e.VerifyAuth?
    ensures Tidy(Step(c, w, e))
  {
    if Step(c, w, e).st != w.st { SlotTidy(w, Step(c, w, e), Index(e.auth.handle)); }
  }

  lemma SaveTidy(c: Setting, w: World, e: Event)
    requires Tidy(w) && e.SaveContext?
    ensures Tidy(Step(c, w, e))
  {
    if Act(c, w.st, w.issued, e).1.Issued? { SaveMoves(w.st, e.handle, e.resource, e.name, e.iv); }
  }

  lemma LoadTidy(c: Setting, w: World, e: Event)
    requires Tidy(w) && e.LoadContext?
    ensures Tidy(Step(c, w, e))
  {
    var r := Step(c, w, e);
    if r.st.sessions != w.st.sessions {
      SlotTidy(w, r, LoadSlot(w.st, e.handle, e.keep, e.blob.saved.session.kind).0);
    }
  }

  lemma StepTidy(c: Setting, w: World, e: Event)
    requires Tidy(w)
    ensures Tidy(Step(c, w, e))
  {
    match e
    case OpenOiap(_) => OpenTidy(c, w, e);
    case OpenOsap(_, _, _, _, _, _) => OpenTidy(c, w, e);
    case OpenDsap(_, _, _, _, _) => OpenTidy(c, w, e);
    case VerifyAuth(_, _, _, _) => VerifyTidy(c, w, e);
    case SaveContext(_, _, _, _) => SaveTidy(c, w, e);
    case LoadContext(_, _, _, _, _) => LoadTidy(c, w, e);
    case FlushSpecific(_, _, _) =>
    case InvalidateSessions(_) =>
    case StartupClear(_) =>
  }

  lemma {:induction false} RunTidy(c: Setting, first: Nonce, events: seq<Event>)
    ensures Tidy(Run(c, Start(first), events))
  {
    if events != [] {
      var before := events[..|events| - 1];
      RunTidy(c, first, before);
      RunLast(c, Start(first), events);
      StepTidy(c, Run(c, Start(first), before), events[|events| - 1]);
    }
  }

  /** The nonce left in the slot that the next session takes. */
  function Leftover(st: State): Nonce
    requires Sized(st) && FreeFrom(st.sessions, 0) < MAX_SESSIONS
  {
    st.sessions[FreeFrom(st.sessions, 0)].even
  }

  /** The session that an early return leaves in its slot. */
  function Revived(st: State, e: Event): Session
    requires Sized(st) && Revives(st, e)
  {
    var s := st.sessions[FreeFrom(st.sessions, 0)];
    if e.OpenDsap? then s.(kind := DSAP)
    else
      match OsapTarget(e.entity, e.value)
      case Early(_, Some(h)) => s.(kind := OSAP, handle := h)
      case _ => s.(kind := OSAP)
  }

  /** The nonce has authorized nothing, and nobody can use it. */
  ghost predicate Unheld(c: Setting, w: World, x: Nonce) {
    && x !in w.used
    && (forall j :: Holds(c, w.st, j) ==> w.st.sessions[j].even != x)
    && (forall b :: Pending(c, w, b) ==> b.saved.session.even != x)
  }

  /** If the command is an early return, then the session it leaves can authorize nothing, or
      nobody else can use its nonce. */
  ghost predicate Innocent(c: Setting, w: World, e: Event)
    requires SizedWorld(w)
  {
    Revives(w.st, e) && Usable(c, Revived(w.st, e)) ==> Unheld(c, w, Leftover(w.st))
  }

  /** A refused TPM_DSAP on a slot that never held rights is innocent. */
  lemma NoRightsInnocent(c: Setting, w: World, e: Event)
    requires SizedWorld(w) && Revives(w.st, e) && e.OpenDsap?
    requires w.st.sessions[FreeFrom(w.st.sessions, 0)].rights == NO_RIGHTS
    ensures Innocent(c, w, e)
  {}

  /** An early return keeps the nonces valid exactly when it is innocent. */
  lemma RevivedSlot(c: Setting, w: World, e: Event)
    requires Tidy(w) && NoncesValid(c, w) && Revives(w.st, e)
    ensures NoncesValid(c, Step(c, w, e)) <==> Innocent(c, w, e)
  {
    RevivedOnly(c, w, e);
    RevivedNonces(c, w, Step(c, w, e), FreeFrom(w.st.sessions, 0));
  }

  /** An early return changes its slot only, and not the nonce in it. */
  lemma RevivedOnly(c: Setting, w: World, e: Event)
    requires SizedWorld(w) && Revives(w.st, e)
    ensures var i, r := FreeFrom(w.st.sessions, 0), Step(c, w, e);
      && r.st.sessions == w.st.sessions[i := Revived(w.st, e)]
      && r.issued == w.issued && r.used == w.used && r.drawn == w.drawn && ListKept(w.st, r.st)
    ensures Revived(w.st, e).even == Leftover(w.st) && Revived(w.st, e).kind in {OSAP, DSAP}
  {}

  lemma RevivedNonces(c: Setting, w: World, r: World, i: nat)
    requires SizedWorld(w) && NoncesValid(c, w) && SizedWorld(r) && i < MAX_SESSIONS && !Live(w.st, i)
    requires r.used == w.used && r.issued == w.issued && r.st.list == w.st.list && r.st.nonce == w.st.nonce
    requires w.drawn == r.drawn && w.st.sessions[i].even in w.drawn
    requires r.st.sessions == w.st.sessions[i := r.st.sessions[i]] && r.st.sessions[i].even == w.st.sessions[i].even
    ensures NoncesValid(c, r) <==> (Holds(c, r.st, i) ==> Unheld(c, w, w.st.sessions[i].even))
  {
    var x := w.st.sessions[i].even;
    assert forall b :: Pending(c, r, b) <==> Pending(c, w, b);
    forall j | j != i
      ensures Holds(c, r.st, j) <==> Holds(c, w.st, j)
      ensures Holds(c, r.st, j) ==> r.st.sessions[j] == w.st.sessions[j]
    {}
    if NoncesValid(c, r) && Holds(c, r.st, i) {
      forall j | Holds(c, w.st, j) ensures w.st.sessions[j].even != x { assert Holds(c, r.st, j); }
      forall b | Pending(c, w, b) ensures b.saved.session.even != x { assert Pending(c, r, b); }
    }
  }

  // ---- one command per nonce, and exactly when

  ghost function Innocents(c: Setting): (World, Event) -> bool {
    (w: World, e: Event) => SizedWorld(w) && Innocent(c, w, e)
  }

  ghost function Completing(): (World, Event) -> bool {
    (w: World, e: Event) => SizedWorld(w) && !Revives(w.st, e)
  }

  /** Every early return of the run leaves a session that can authorize nothing, or whose nonce
      nobody else can use. */
  ghost predicate Harmless(c: Setting, w: World, events: seq<Event>) {
    Runs.Along(Next(c), Innocents(c), w, events)
  }

  /** No TPM_OSAP or TPM_DSAP of the run returns early with its slot in use. */
  ghost predicate Completes(c: Setting, w: World, events: seq<Event>) {
    Runs.Along(Next(c), Completing(), w, events)
  }

  /** Over every run whose early returns are harmless each even nonce authorizes at most one
      command, so swapping a session out and in never rolls its nonce back. */
  lemma {:induction false} AuthorizedOnce(c: Setting, first: Nonce, events: seq<Event>)
    requires Fresh(c, Start(first), events) && Harmless(c, Start(first), events)
    ensures NoncesValid(c, Run(c, Start(first), events)) && NoRepeats(Run(c, Start(first), events).used)
  {
    if events != [] {
      var before, e := events[..|events| - 1], events[|events| - 1];
      var w := Run(c, Start(first), before);
      AuthorizedOnce(c, first, before);
      LoadedOnce(c, first, before);
      RunTidy(c, first, before);
      RunLast(c, Start(first), events);
      if Revives(w.st, e) { RevivedSlot(c, w, e); } else { StepNonces(c, w, e); }
    }
  }

  lemma RunMore(c: Setting, w: World, events: seq<Event>, e: Event)
    requires SizedWorld(w)
    ensures Run(c, w, events + [e]) == Step(c, Run(c, w, events), e)
    ensures var v := Run(c, w, events);
      && (Fresh(c, w, events + [e]) <==> Fresh(c, w, events) && Draws(v.st, e) !! v.drawn && Called(c, e))
      && (Completes(c, w, events + [e]) <==> Completes(c, w, events) && !Revives(v.st, e))
      && (Harmless(c, w, events + [e]) <==>
            Harmless(c, w, events) && Innocent(c, v, e))
  {
    Runs.More(Next(c), Drawing(c), w, events, e);
    Runs.More(Next(c), Completing(), w, events, e);
    Runs.More(Next(c), Innocents(c), w, events, e);
  }

  /** What holds along a run and its continuation. */
  lemma RunConcat(c: Setting, w: World, events: seq<Event>, more: seq<Event>)
    requires SizedWorld(w)
    ensures var v := Run(c, w, events);
      && Run(c, w, events + more) == Run(c, v, more)
      && (Fresh(c, w, events + more) <==> Fresh(c, w, events) && Fresh(c, v, more))
      && (Completes(c, w, events + more) <==> Completes(c, w, events) && Completes(c, v, more))
      && (Harmless(c, w, events + more) <==> Harmless(c, w, events) && Harmless(c, v, more))
  {
    Runs.Concat(Next(c), Drawing(c), w, events, more);
    Runs.Concat(Next(c), Completing(), w, events, more);
    Runs.Concat(Next(c), Innocents(c), w, events, more);
  }

  /** The session in slot `i`, used with a correct keyed digest for a command it admits. */
  function Use(c: Setting, st: State, i: nat, handle: nat, ordinal: nat, next: Nonce): Event
    requires Sized(st) && i < MAX_SESSIONS
  {
    var s := st.sessions[i];
    var mac := c.keyed(if s.kind == OIAP then 0 else s.secret, 0, s.even, 0, true);
    VerifyAuth(Auth(HandleOf(RT_AUTH, i), ordinal, 0, 0, true, mac), 0, handle, next)
  }

  /** It authorizes, and changes nothing but that slot. */
  lemma UseAuthorizes(c: Setting, w: World, i: nat, next: Nonce) returns (e: Event)
    requires Tidy(w) && Holds(c, w.st, i)
    ensures var r := Step(c, w, e);
      && r.used == w.used + [w.st.sessions[i].even] && r.drawn == w.drawn + {next}
      && r.st.sessions == w.st.sessions[i := r.st.sessions[i]]
    ensures Draws(w.st, e) == {next} && !Revives(w.st, e) && Called(c, e)
  {
    var handle, ordinal :| c.called(handle, ordinal) && Admits(c, w.st.sessions[i], handle, ordinal);
    var h := HandleOf(RT_AUTH, i);
    assert Index(h) == i && Resource(h) == RT_AUTH;
    assert Live(w.st, i);
    e := Use(c, w.st, i, handle, ordinal, next);
  }

  lemma {:induction false} FreshNonce(s: set<Nonce>) returns (n: Nonce)
    ensures forall x :: x in s ==> x < n
    decreases s
  {
    n := 0;
    if s != {} {
      var x :| x in s;
      var m := FreshNonce(s - {x});
      n := if m > x then m else x + 1;
      forall y | y in s ensures y < n { assert y == x || y in s - {x}; }
    }
  }

  /** The continuation repeats a nonce although it draws only fresh ones and completes its
      calls. */
  ghost predicate RepeatsIn(c: Setting, w: World, more: seq<Event>)
    requires SizedWorld(w)
  {
    Fresh(c, w, more) && Completes(c, w, more) && !NoRepeats(Run(c, w, more).used)
  }

  /** One more use of a spent nonce. */
  lemma SpentRepeats(c: Setting, w: World, i: nat) returns (more: seq<Event>)
    requires Tidy(w) && Holds(c, w.st, i) && w.st.sessions[i].even in w.used
    ensures RepeatsIn(c, w, more)
  {
    var n := FreshNonce(w.drawn);
    var e := UseAuthorizes(c, w, i, n);
    more := [e];
    RunMore(c, w, [], e);
    assert [] + [e] == more;
    var k :| 0 <= k < |w.used| && w.used[k] == w.st.sessions[i].even;
    var used := Run(c, w, more).used;
    assert used[k] == used[|w.used|];
  }

  /** Two sessions hold the nonce: use both. */
  lemma HeldRepeats(c: Setting, w: World, i: nat, j: nat) returns (more: seq<Event>)
    requires Tidy(w) && Holds(c, w.st, i) && Holds(c, w.st, j) && i != j
    requires w.st.sessions[i].even == w.st.sessions[j].even
    ensures RepeatsIn(c, w, more)
  {
    var n := FreshNonce(w.drawn);
    var e := UseAuthorizes(c, w, i, n);
    StepTidy(c, w, e);
    var v := Step(c, w, e);
    assert v.used[|w.used|] == w.st.sessions[j].even;
    var rest := SpentRepeats(c, v, j);
    more := [e] + rest;
    RunMore(c, w, [], e);
    assert [] + [e] == [e];
    RunConcat(c, w, [e], rest);
  }

  const NO_KEYS: Keys := Keys(false, {}, {})

  /** The slot is emptied, whatever it holds. */
  lemma FlushEmpties(c: Setting, w: World, k: nat)
    requires Tidy(w) && k < MAX_SESSIONS
    ensures var e := FlushSpecific(HandleOf(RT_AUTH, k), RT_AUTH, NO_KEYS); var r := Step(c, w, e);
      && !Live(r.st, k) && r.st.sessions == w.st.sessions[k := r.st.sessions[k]]
      && r.issued == w.issued && r.used == w.used && ListKept(w.st, r.st) && r.drawn == w.drawn
      && !Revives(w.st, e) && Draws(w.st, e) == {}
  {
    var h := HandleOf(RT_AUTH, k);
    assert Index(h) == k && Resource(h) == RT_AUTH;
  }

  /** The call that loads `b` into slot `k`, with its key there. */
  function Reload(b: Blob, k: nat): Event
    requires b.saved.OfSession?
  {
    LoadContext(HandleOf(RT_AUTH, k), false, b, Keys(true, {Index(b.saved.session.handle)}, {}), (NO_RIGHTS, 0))
  }

  lemma ReloadFills(c: Setting, w: World, b: Blob, k: nat)
    requires Tidy(w) && Pending(c, w, b) && k < MAX_SESSIONS && !Live(w.st, k)
    ensures var r := Step(c, w, Reload(b, k));
      && Holds(c, r.st, k) && r.st.sessions[k].even == b.saved.session.even
      && r.st.sessions == w.st.sessions[k := r.st.sessions[k]] && r.used == w.used
    ensures !Revives(w.st, Reload(b, k)) && Draws(w.st, Reload(b, k)) == {}
  {
    var h := HandleOf(RT_AUTH, k);
    assert Index(h) == k && Resource(h) == RT_AUTH;
    SameUse(c, b.saved.session, Step(c, w, Reload(b, k)).st.sessions[k]);
  }

  /** A blob holds the nonce: load it into another slot, and use both. */
  lemma PendingRepeats(c: Setting, w: World, i: nat, b: Blob) returns (more: seq<Event>)
    requires Tidy(w) && Holds(c, w.st, i) && Pending(c, w, b) && b.saved.session.even == w.st.sessions[i].even
    ensures RepeatsIn(c, w, more)
  {
    var k := if i == 0 then 1 else 0;
    var flush, load := FlushSpecific(HandleOf(RT_AUTH, k), RT_AUTH, NO_KEYS), Reload(b, k);
    FlushEmpties(c, w, k);
    StepTidy(c, w, flush);
    var v := Step(c, w, flush);
    assert Pending(c, v, b);
    ReloadFills(c, v, b, k);
    StepTidy(c, v, load);
    var rest := HeldRepeats(c, Step(c, v, load), i, k);
    RunMore(c, w, [], flush);
    assert [] + [flush] == [flush];
    RunMore(c, w, [flush], load);
    more := [flush] + [load] + rest;
    RunConcat(c, w, [flush] + [load], rest);
  }

  /** An early return that leaves a usable session on a nonce that is spent, or that someone else
      can use, has a continuation in which that nonce authorizes twice. */
  lemma HarmfulRepeats(c: Setting, w: World, e: Event) returns (more: seq<Event>)
    requires Tidy(w) && !Innocent(c, w, e)
    ensures RepeatsIn(c, Step(c, w, e), more)
  {
    var i, x, r := FreeFrom(w.st.sessions, 0), Leftover(w.st), Step(c, w, e);
    RevivedOnly(c, w, e);
    StepTidy(c, w, e);
    assert Holds(c, r.st, i);
    if x in w.used {
      more := SpentRepeats(c, r, i);
    } else if j :| Holds(c, w.st, j) && w.st.sessions[j].even == x {
      assert Holds(c, r.st, j);
      more := HeldRepeats(c, r, i, j);
    } else {
      var b :| Pending(c, w, b) && b.saved.session.even == x;
      assert Pending(c, r, b);
      more := PendingRepeats(c, r, i, b);
    }
  }

  /** No completed continuation repeats a nonce. */
  ghost predicate Safe(c: Setting, w: World)
    requires SizedWorld(w)
  {
    forall more :: !RepeatsIn(c, w, more)
  }

  /** After a harmless run nothing can go wrong any more. */
  lemma HarmlessSafe(c: Setting, first: Nonce, events: seq<Event>)
    requires Fresh(c, Start(first), events) && Harmless(c, Start(first), events)
    ensures Safe(c, Run(c, Start(first), events))
  {
    var w := Run(c, Start(first), events);
    forall more ensures !RepeatsIn(c, w, more) {
      if Fresh(c, w, more) && Completes(c, w, more) {
        RunConcat(c, Start(first), events, more);
        CompletesHarmless(c, w, more);
        AuthorizedOnce(c, first, events + more);
      }
    }
  }

  /** Exactly when: no call of a run ever puts a nonce in the position to authorize twice if and
      only if all early returns of the run are harmless. */
  lemma HarmlessExactly(c: Setting, first: Nonce, events: seq<Event>)
    requires Fresh(c, Start(first), events)
    ensures Harmless(c, Start(first), events)
       <==> forall n :: 0 <= n <= |events| ==> Safe(c, Run(c, Start(first), events[..n]))
  {
    var w := Start(first);
    if Harmless(c, w, events) {
      forall n | 0 <= n <= |events| ensures Safe(c, Run(c, w, events[..n])) {
        Runs.Prefix(Next(c), Drawing(c), w, events, n);
        Runs.Prefix(Next(c), Innocents(c), w, events, n);
        HarmlessSafe(c, first, events[..n]);
      }
    } else {
      var n := HarmfulPoint(c, first, events);
    }
  }

  lemma HarmfulPoint(c: Setting, first: Nonce, events: seq<Event>) returns (n: nat)
    requires !Harmless(c, Start(first), events)
    ensures n <= |events| && !Safe(c, Run(c, Start(first), events[..n]))
  {
    var m := Runs.FirstBad(Next(c), Innocents(c), Start(first), events);
    var w := Run(c, Start(first), events[..m]);
    RunTidy(c, first, events[..m]);
    RunNext(c, Start(first), events, m);
    n := m + 1;
    NotSafe(c, w, events[m]);
  }

  lemma NotSafe(c: Setting, w: World, e: Event)
    requires Tidy(w) && !Innocent(c, w, e)
    ensures !Safe(c, Step(c, w, e))
  {
    var more := HarmfulRepeats(c, w, e);
  }

  /** Completed calls are harmless, so the plain form of the property needs no look at nonces. */
  lemma CompletesHarmless(c: Setting, w: World, events: seq<Event>)
    requires Completes(c, w, events)
    ensures Harmless(c, w, events)
  {
    Runs.Keeps(Next(c), Completing(), Innocents(c), (v: World) => true, w, events);
  }

  // ---- a run in which it goes wrong

  /** An OSAP session on the SRK is opened and saved, and a malformed TPM_OSAP takes the slot it
      left. */
  function Lost(secret: nat, odd: Nonce): seq<Event> {
    [OpenOsap(4, 0, Some(secret), odd, 5, 6), SaveContext(HandleOf(RT_AUTH, 0), RT_AUTH, 0, 0),
     OpenOsap(0x0600, 0, None, 0, 7, 8)]
  }

  function SrkSession(c: Setting, secret: nat, odd: Nonce): Session {
    Session(OSAP, 5, 0, c.share(secret, 6, odd), KH_SRK, 4, NO_RIGHTS, 0)
  }

  lemma LostOpens(c: Setting, secret: nat, odd: Nonce)
    ensures var w, e := Start(1), Lost(secret, odd)[0]; var r := Step(c, w, e);
      && r.st == w.st.(sessions := w.st.sessions[0 := SrkSession(c, secret, odd)]) && r.issued == [] && r.used == []
      && r.drawn == {0, 1, 5, 6} && Draws(w.st, e) == {5, 6}
  {
    assert FreeFrom(Start(1).st.sessions, 0) == 0;
  }

  lemma LostSaves(c: Setting, w: World, s: Session)
    requires SizedWorld(w) && w.st.sessions[0] == s && s.kind == OSAP && s.handle == KH_SRK
    requires w.st.list == Cleared(1).list && w.st.count == 0
    ensures var e := SaveContext(HandleOf(RT_AUTH, 0), RT_AUTH, 0, 0); var r := Step(c, w, e);
      && r.st.sessions[0] == s.(kind := INVALID) && Draws(w.st, e) == {} && r.drawn == w.drawn
      && (Usable(c, s) ==> exists b :: Pending(c, r, b) && b.saved.session == s)
  {
    var h := HandleOf(RT_AUTH, 0);
    assert Index(h) == 0 && Resource(h) == RT_AUTH;
    assert FindFrom(w.st.list, 0, 0) == 0;
    var r := Step(c, w, SaveContext(h, RT_AUTH, 0, 0));
    var b := r.issued[|w.issued|];
    assert r.st.list[0] == b.count;
    assert Usable(c, s) ==> Pending(c, r, b);
  }

  /** So without the condition the claim is false, whatever the keyed digest is, as long as there
      is a command that the SRK authorizes: this run has a
      continuation of fresh and completed calls in which one nonce authorizes twice. */
  lemma NonceReused(c: Setting, secret: nat, odd: Nonce, ordinal: nat) returns (more: seq<Event>)
    requires c.called(KH_SRK, ordinal)
    ensures Fresh(c, Start(1), Lost(secret, odd) + more)
    ensures !NoRepeats(Run(c, Start(1), Lost(secret, odd) + more).used)
  {
    var w, lost := Start(1), Lost(secret, odd);
    var v := Step(c, w, lost[0]);
    LostOpens(c, secret, odd);
    assert Admits(c, SrkSession(c, secret, odd), KH_SRK, ordinal);
    LostSaves(c, v, SrkSession(c, secret, odd));
    var u := Step(c, v, lost[1]);
    assert FreeFrom(u.st.sessions, 0) == 0;
    RunMore(c, w, [], lost[0]);
    RunMore(c, w, [] + [lost[0]], lost[1]);
    RunMore(c, w, [] + [lost[0]] + [lost[1]], lost[2]);
    assert [] + [lost[0]] + [lost[1]] + [lost[2]] == lost;
    RunTidy(c, 1, [] + [lost[0]] + [lost[1]]);
    SameUse(c, SrkSession(c, secret, odd), Revived(u.st, lost[2]));
    more := HarmfulRepeats(c, u, lost[2]);
    RunConcat(c, w, lost, more);
  }

  /** A refused TPM_DSAP in place of the malformed TPM_OSAP does no harm: the slot held no rights,
      so the session left in it can authorize nothing. */
  lemma RefusedInstead(c: Setting, secret: nat, odd: Nonce, entity: nat)
    ensures Harmless(c, Start(1), Lost(secret, odd)[..2] + [OpenDsap(entity, Refused, 0, 7, 8)])
  {
    var w, lost, e := Start(1), Lost(secret, odd), OpenDsap(entity, Refused, 0, 7, 8);
    LostOpens(c, secret, odd);
    var v := Step(c, w, lost[0]);
    LostSaves(c, v, SrkSession(c, secret, odd));
    var u := Step(c, v, lost[1]);
    assert FreeFrom(u.st.sessions, 0) == 0;
    RunMore(c, w, [], lost[0]);
    RunMore(c, w, [] + [lost[0]], lost[1]);
    assert [] + [lost[0]] + [lost[1]] == lost[..2];
    NoRightsInnocent(c, u, e);
    RunMore(c, w, lost[..2], e);
  }
}
