/** Runs of delegation commands with an owner installed and an ideal blob digest (only issued
    blobs pass), sessions being swapped out and in at will: delegated permissions never grow, and
    revocation lasts. */
module DelegationRuns {
  import opened Wrappers
  import opened Handles
  import opened Delegation
  import Runs

  datatype Event =
    | OpenSession(osap: bool, handle: nat)
    | OpenDsap(claim: Claim)
    | CloseSession(slot: nat)
    | SaveSession(slot: nat)
    | LoadSession(index: nat, slot: nat, residue: Slot)
    | DelegateManage(slot: nat, proof: bool, id: nat, op: Operation, sized: bool)
    | CreateKeyDelegation(slot: nat, proof: bool, handle: nat, key: Option<nat>, pub: Public, secret: nat)
    | CreateOwnerDelegation(slot: nat, proof: bool, increment: bool, pub: Public, secret: nat)
    | LoadOwnerDelegation(slot: nat, proof: bool, index: nat, blob: Blob, readable: bool)
    | UpdateVerification(slot: nat, proof: bool, index: nat)

  /** An issued blob, and whether it was created in a delegated session. */
  datatype Issue = Issue(blob: Blob, delegated: bool)

  /** `saved` holds the sessions swapped out so far. */
  datatype World = World(st: State, log: seq<Issue>, saved: seq<Slot>)

  ghost predicate InLog(log: seq<Issue>, b: Blob) {
    exists i :: 0 <= i < |log| && log[i].blob == b
  }

  /** The ideal digest: a claim is genuine exactly when its blob was issued. */
  ghost function Checked(log: seq<Issue>, c: Claim): Claim {
    match c
    case ByOwnerBlob(b, _) => ByOwnerBlob(b, InLog(log, b))
    case ByKeyBlob(b, _, handle, key) => ByKeyBlob(b, InLog(log, b), handle, key)
    case ByRow(index, handle) => c
  }

  /** A saved session comes back; what is only marshalled for delegated sessions is whatever was
      in memory. */
  function Reloaded(s: Slot, residue: Slot): Slot {
    if s.kind == DSAP then s
    else residue.(kind := s.kind, handle := s.handle)
  }

  ghost function Act(w: World, e: Event): (r: (State, Reply))
    requires Sized(w.st)
    ensures Sized(r.0)
  {
    match e
    case OpenSession(osap, handle) => Open(w.st, if osap then OSAP else OIAP, handle)
    case OpenDsap(claim) => Dsap(w.st, Checked(w.log, claim))
    case CloseSession(i) => (if i < NUM_SESSIONS then SetSlot(w.st, i, NO_SLOT) else w.st, Done)
    case SaveSession(i) =>
      (if i < NUM_SESSIONS then SetSlot(w.st, i, w.st.slots[i].(kind := INVALID)) else w.st, Done)
    case LoadSession(k, i, residue) =>
      if k < |w.saved| && i < NUM_SESSIONS && w.st.slots[i].kind == INVALID then
        (SetSlot(w.st, i, Reloaded(w.saved[k], residue)), Opened(i))
      else (w.st, Failed(RESOURCES))
    case DelegateManage(i, proof, id, op, sized) => Manage(w.st, i, proof, id, op, sized)
    case CreateKeyDelegation(i, proof, handle, key, pub, secret) => CreateKey(w.st, i, proof, handle, key, pub, secret)
    case CreateOwnerDelegation(i, proof, increment, pub, secret) => CreateOwner(w.st, i, proof, increment, pub, secret)
    case LoadOwnerDelegation(i, proof, index, b, readable) =>
      LoadOwner(w.st, i, proof, index, b, InLog(w.log, b), readable)
    case UpdateVerification(i, proof, index) => UpdateRow(w.st, i, proof, index)
  }

  ghost function Step(w: World, e: Event): (r: World)
    requires Sized(w.st)
    ensures Sized(r.st)
  {
    var (st, reply) := Act(w, e);
    World(st, if reply.Issued? then w.log + [Issue(reply.blob, reply.delegated)] else w.log,
          if e.SaveSession? && e.slot < NUM_SESSIONS then w.saved + [w.st.slots[e.slot]] else w.saved)
  }

  function Initial(): (st: State)
    ensures Sized(st)
  {
    State(seq(NUM_FAMILIES, _ => NO_FAMILY), seq(NUM_ROWS, _ => Row(false, Public(0, 0, 0, 0, 0, 0), 0)),
          seq(NUM_SESSIONS, _ => NO_SLOT), 0)
  }

  ghost function Next(): (World, Event) -> World {
    (w: World, e: Event) => if Sized(w.st) then Step(w, e) else w
  }

  /** The world after some events. */
  ghost function After(w: World, events: seq<Event>): (r: World)
    requires Sized(w.st)
    ensures Sized(r.st)
  {
    AfterSized(w, events);
    Runs.After(Next(), w, events)
  }

  lemma {:induction false} AfterSized(w: World, events: seq<Event>)
    requires Sized(w.st)
    ensures Sized(Runs.After(Next(), w, events).st)
  {
    if events != [] { AfterSized(w, events[..|events| - 1]); }
  }

  ghost function Start(): (w: World)
    ensures Sized(w.st)
  {
    World(Initial(), [], [])
  }

  ghost function Run(events: seq<Event>): (w: World)
    ensures Sized(w.st)
  {
    After(Start(), events)
  }

  lemma RunLast(events: seq<Event>)
    requires events != []
    ensures Run(events) == Step(Run(events[..|events| - 1]), events[|events| - 1])
  {}

  /** Every event meets `p` in the world it happens in. */
  ghost predicate Along(w: World, events: seq<Event>, p: (World, Event) -> bool) {
    Runs.Along(Next(), p, w, events)
  }

  // ---- permissions only shrink

  /** `q` grants no more than `p`, in the same family and of the same type. */
  predicate Within(p: Public, q: Public) {
    q.family == p.family && q.kind == p.kind && Covers(p.per1, q.per1) && Covers(p.per2, q.per2)
  }

  lemma WithinTransitive(p: Public, q: Public, r: Public)
    requires Within(p, q) && Within(q, r)
    ensures Within(p, r)
  {
    CoversTransitive(p.per1, q.per1, r.per1);
    CoversTransitive(p.per2, q.per2, r.per2);
  }

  /** What the session may do, as a public part. */
  function Held(s: Slot): Public {
    Public(0, s.delegated, s.per1, s.per2, s.family, 0)
  }

  /** The session may do nothing, or no more than some issued blob grants. */
  ghost predicate Backed(log: seq<Issue>, s: Slot) {
    s.delegated == 0 || exists i :: 0 <= i < |log| && Within(log[i].blob.pub, Held(s))
  }

  predicate SameGrant(p: Public, q: Public) {
    q.family == p.family && q.kind == p.kind && q.per1 == p.per1 && q.per2 == p.per2
  }

  ghost predicate RowSound(log: seq<Issue>, r: Row) {
    r.valid ==> exists i :: 0 <= i < |log| && SameGrant(log[i].blob.pub, r.pub)
  }

  /** Some blob issued before `j` covers blob `j`. */
  ghost predicate HasParent(log: seq<Issue>, j: nat)
    requires j < |log|
  {
    exists i :: 0 <= i < j && Within(log[i].blob.pub, log[j].blob.pub)
  }

  /** The family was created once and is there no longer. */
  ghost predicate Gone(st: State, family: nat) {
    && Sized(st) && family <= st.last
    && forall i :: 0 <= i < NUM_FAMILIES && st.families[i].valid ==> st.families[i].id != family
  }

  /** The command creates a family when the largest ID was given out, so that IDs come round. */
  predicate Wraps(st: State, e: Event) {
    e.DelegateManage? && e.op.CREATE? && st.last + 1 >= TWO32
  }

  /** As a delegated session these contents could create delegations of their own type. */
  predicate Creator(s: Slot) {
    || (s.delegated == OWNER_BITS && s.handle == KH_OWNER && Permitted(OWNER_BITS, ORD_CREATE_OWNER, s.per1))
    || (s.delegated == KEY_BITS && Keyable(s.handle) && Permitted(KEY_BITS, ORD_CREATE_KEY, s.per1))
  }

  /** And their family is there or can still come; `reuse` is whether IDs may come round. */
  ghost predicate Able(st: State, s: Slot, reuse: bool) {
    Creator(s) && (reuse || !Gone(st, s.family))
  }

  /** Delegated sessions that can create delegations, rows and delegated blobs are backed by
      issued blobs. */
  ghost predicate Sound(w: World, reuse: bool) {
    && Sized(w.st)
    && (forall i :: 0 <= i < NUM_SESSIONS && w.st.slots[i].kind == DSAP && Able(w.st, w.st.slots[i], reuse) ==>
          Backed(w.log, w.st.slots[i]))
    && (forall i :: 0 <= i < |w.saved| && w.saved[i].kind == DSAP && Able(w.st, w.saved[i], reuse) ==>
          Backed(w.log, w.saved[i]))
    && (forall i :: 0 <= i < NUM_ROWS ==> RowSound(w.log, w.st.rows[i]))
    && Chained(w.log)
  }

  /** Every delegated blob has a parent. */
  ghost predicate Chained(log: seq<Issue>) {
    forall j :: 0 <= j < |log| && log[j].delegated ==> HasParent(log, j)
  }

  /** A family that is gone stays so until IDs come round. */
  lemma GoneKept(w: World, e: Event)
    requires Sized(w.st) && !Wraps(w.st, e)
    ensures forall f :: Gone(w.st, f) ==> Gone(Step(w, e).st, f)
  {
    if e.DelegateManage? {
      ManageGone(w.st, e.slot, e.proof, e.id, e.op, e.sized);
    } else if e.CreateOwnerDelegation? {
      CreateGone(w.st, e.slot, e.proof, e.increment, e.pub, e.secret);
    } else {
      OthersKeepFamilies(w, e);
    }
  }

  lemma ManageGone(st: State, i: nat, proof: bool, id: nat, op: Operation, sized: bool)
    requires Sized(st) && (op.CREATE? ==> st.last + 1 < TWO32)
    ensures forall f :: Gone(st, f) ==> Gone(Manage(st, i, proof, id, op, sized).0, f)
  {}

  lemma CreateGone(st: State, i: nat, proof: bool, increment: bool, p: Public, secret: nat)
    requires Sized(st)
    ensures forall f :: Gone(st, f) ==> Gone(CreateOwner(st, i, proof, increment, p, secret).0, f)
  {}

  lemma LogGrows(log: seq<Issue>, more: Issue)
    ensures forall s :: Backed(log, s) ==> Backed(log + [more], s)
    ensures forall r :: RowSound(log, r) ==> RowSound(log + [more], r)
    ensures forall j :: 0 <= j < |log| && HasParent(log, j) ==> HasParent(log + [more], j)
  {
    var l := log + [more];
    assert forall i :: 0 <= i < |log| ==> l[i] == log[i];
    forall s | Backed(log, s) ensures Backed(l, s) {
      if s.delegated != 0 {
        var i :| 0 <= i < |log| && Within(log[i].blob.pub, Held(s));
        assert Within(l[i].blob.pub, Held(s));
      }
    }
    forall r | RowSound(log, r) ensures RowSound(l, r) {
      if r.valid {
        var i :| 0 <= i < |log| && SameGrant(log[i].blob.pub, r.pub);
        assert SameGrant(l[i].blob.pub, r.pub);
      }
    }
    forall j | 0 <= j < |log| && HasParent(log, j) ensures HasParent(l, j) {
      var i :| 0 <= i < j && Within(log[i].blob.pub, log[j].blob.pub);
      assert Within(l[i].blob.pub, l[j].blob.pub);
    }
  }

  /** A delegated session that may create a delegation covers it, and has the type of the
      command. */
  lemma DelegatedCovers(st: State, i: nat, proof: bool, handle: nat, ordinal: nat, kind: nat, p: Public)
    requires Sized(st) && MayCreate(st, i, proof, handle, ordinal, kind, p).Fine? && st.slots[i].kind == DSAP
    requires (ordinal == ORD_CREATE_KEY && kind == KEY_BITS) || (ordinal == ORD_CREATE_OWNER && kind == OWNER_BITS)
    ensures var s := st.slots[i];
      s.delegated == kind == p.kind && s.family == p.family && Covers(s.per1, p.per1) && Covers(s.per2, p.per2)
  {}

  /** The session holds everything that `p` asks for. */
  predicate Passes(s: Slot, p: Public) {
    && s.delegated != 0 && s.delegated == p.kind && s.family == p.family
    && Covers(s.per1, p.per1) && Covers(s.per2, p.per2)
  }

  /** The public part of a new blob differs from the request in the verification count only, and
      a delegated session that creates one is able to. */
  lemma IssuedPublic(w: World, e: Event)
    requires Sized(w.st) && Act(w, e).1.Issued?
    ensures e.CreateKeyDelegation? || e.CreateOwnerDelegation?
    ensures var r := Act(w, e).1; SameGrant(e.pub, r.blob.pub)
    ensures Act(w, e).1.delegated ==>
      && e.slot < NUM_SESSIONS && w.st.slots[e.slot].kind == DSAP && Passes(w.st.slots[e.slot], e.pub)
      && Able(w.st, w.st.slots[e.slot], false)
  {
    if e.CreateKeyDelegation? && Act(w, e).1.delegated {
      DelegatedCovers(w.st, e.slot, e.proof, e.handle, ORD_CREATE_KEY, KEY_BITS, e.pub);
    } else if e.CreateOwnerDelegation? && Act(w, e).1.delegated {
      DelegatedCovers(w.st, e.slot, e.proof, KH_OWNER, ORD_CREATE_OWNER, OWNER_BITS, e.pub);
    }
  }

  lemma IssueStep(w: World, e: Event, reuse: bool)
    requires Sound(w, reuse) && Act(w, e).1.Issued?
    ensures Sound(Step(w, e), reuse)
  {
    var r := Step(w, e);
    var n := |w.log|;
    IssuedPublic(w, e);
    LogGrows(w.log, r.log[n]);
    SlotsKept(w, e);
    GoneKept(w, e);
    if r.log[n].delegated {
      var s := w.st.slots[e.slot];
      var i :| 0 <= i < n && Within(w.log[i].blob.pub, Held(s));
      WithinTransitive(w.log[i].blob.pub, Held(s), r.log[n].blob.pub);
      assert Within(r.log[i].blob.pub, r.log[n].blob.pub);
    }
  }

  /** Creating a delegation leaves the rows alone and at most wipes sessions. */
  lemma SlotsKept(w: World, e: Event)
    requires Sized(w.st) && Act(w, e).1.Issued?
    ensures var st := Act(w, e).0;
      && st.rows == w.st.rows
      && forall i :: 0 <= i < NUM_SESSIONS ==> st.slots[i] == w.st.slots[i] || st.slots[i] == NO_SLOT
  {}

  /** A refused TPM_DSAP leaves a slot typed as delegated without having set it up. */
  ghost predicate Revives(w: World, e: Event)
    requires Sized(w.st)
  {
    e.OpenDsap? && FreeSlotFrom(w.st.slots, 0) < NUM_SESSIONS && Grants(w.st, Checked(w.log, e.claim)).Refused?
  }

  /** What it makes of the slot. */
  function Leftover(st: State): Slot
    requires Sized(st) && FreeSlotFrom(st.slots, 0) < NUM_SESSIONS
  {
    st.slots[FreeSlotFrom(st.slots, 0)]
  }

  lemma GrantSound(w: World, c: Claim)
    requires Sized(w.st) && (forall i :: 0 <= i < NUM_ROWS ==> RowSound(w.log, w.st.rows[i]))
    requires Grants(w.st, Checked(w.log, c)).Granted?
    ensures exists j :: 0 <= j < |w.log| && SameGrant(w.log[j].blob.pub, Grants(w.st, Checked(w.log, c)).pub)
  {
    var p := Grants(w.st, Checked(w.log, c)).pub;
    if c.ByRow? {
      assert RowSound(w.log, w.st.rows[c.index]);
    } else {
      var j :| 0 <= j < |w.log| && w.log[j].blob == c.blob;
      assert SameGrant(w.log[j].blob.pub, p);
    }
  }

  /** The session that a TPM_DSAP sets up is backed. */
  lemma GrantBacked(w: World, c: Claim, s: Slot)
    requires Sized(w.st) && (forall i :: 0 <= i < NUM_ROWS ==> RowSound(w.log, w.st.rows[i]))
    requires Grants(w.st, Checked(w.log, c)).Granted? && SameGrant(Grants(w.st, Checked(w.log, c)).pub, Held(s))
    ensures Backed(w.log, s)
  {
    GrantSound(w, c);
    var j :| 0 <= j < |w.log| && SameGrant(w.log[j].blob.pub, Grants(w.st, Checked(w.log, c)).pub);
    CoversReflexive(s.per1);
    CoversReflexive(s.per2);
    assert Within(w.log[j].blob.pub, Held(s));
  }

  /** If the command is a refused TPM_DSAP, then the contents it finds in its slot cannot create
      delegations, or are backed. */
  ghost predicate Innocent(w: World, e: Event, reuse: bool)
    requires Sized(w.st)
  {
    Revives(w, e) && Able(w.st, Leftover(w.st), reuse) ==> Backed(w.log, Leftover(w.st))
  }

  lemma DsapStep(w: World, e: Event, reuse: bool)
    requires Sound(w, reuse) && e.OpenDsap? && Innocent(w, e, reuse)
    ensures Sound(Step(w, e), reuse)
  {
    var i := FreeSlotFrom(w.st.slots, 0);
    if i < NUM_SESSIONS {
      var r := Step(w, e);
      assert r.st == SetSlot(w.st, i, r.st.slots[i]) && r.st.slots[i].kind == DSAP;
      if Revives(w, e) {
        assert Held(r.st.slots[i]) == Held(w.st.slots[i]);
      } else {
        GrantBacked(w, e.claim, r.st.slots[i]);
      }
      assert forall s :: Able(r.st, s, reuse) ==> Able(w.st, s, reuse);
    }
  }

  /** Table commands leave the sessions alone or wipe all but their own. */
  lemma TableSlots(w: World, e: Event)
    requires Sized(w.st) && (e.DelegateManage? || e.LoadOwnerDelegation? || e.UpdateVerification?)
    ensures Act(w, e).0.slots in {w.st.slots, OnlySlot(w.st.slots, e.slot)} && !Act(w, e).1.Issued?
  {}

  /** Delegated slots and saved sessions are old ones; rows are old ones or hold what an issued
      blob grants. */
  lemma SoundKept(w: World, e: Event, reuse: bool)
    requires Sound(w, reuse) && Step(w, e).log == w.log && (reuse || !Wraps(w.st, e))
    requires var r := Step(w, e);
      && (forall i :: 0 <= i < NUM_SESSIONS && r.st.slots[i].kind == DSAP ==>
            r.st.slots[i] == w.st.slots[i] || r.st.slots[i] in w.saved)
      && (forall i :: 0 <= i < |r.saved| ==> r.saved[i] in w.saved || r.saved[i] in w.st.slots)
      && (forall i :: 0 <= i < NUM_ROWS ==> RowSound(w.log, r.st.rows[i]))
    ensures Sound(Step(w, e), reuse)
  {
    if !reuse { GoneKept(w, e); }
    assert forall s :: Able(Step(w, e).st, s, reuse) ==> Able(w.st, s, reuse);
  }

  lemma RowStep(w: World, e: Event, reuse: bool)
    requires Sound(w, reuse) && (e.LoadOwnerDelegation? || e.UpdateVerification?)
    ensures Sound(Step(w, e), reuse)
  {
    var r := Step(w, e);
    if e.LoadOwnerDelegation? && r.st != w.st {
      var j :| 0 <= j < |w.log| && w.log[j].blob == e.blob;
      assert SameGrant(w.log[j].blob.pub, e.blob.pub);
    } else if e.UpdateVerification? && r.st != w.st {
      assert RowSound(w.log, w.st.rows[e.index]);
    }
    SoundKept(w, e, reuse);
  }

  lemma SlotStep(w: World, e: Event, reuse: bool)
    requires Sound(w, reuse) && (reuse || !Wraps(w.st, e))
    requires e.OpenSession? || e.CloseSession? || e.SaveSession? || e.LoadSession? || e.DelegateManage?
    ensures Sound(Step(w, e), reuse)
  {
    if e.DelegateManage? { TableSlots(w, e); }
    SoundKept(w, e, reuse);
  }

  /** Every other command keeps slots, wipes them or changes what no delegation depends on. */
  lemma OtherStep(w: World, e: Event, reuse: bool)
    requires Sound(w, reuse) && !Act(w, e).1.Issued? && !e.OpenDsap? && (reuse || !Wraps(w.st, e))
    ensures Sound(Step(w, e), reuse)
  {
    if e.LoadOwnerDelegation? || e.UpdateVerification? {
      RowStep(w, e, reuse);
    } else if !e.CreateKeyDelegation? && !e.CreateOwnerDelegation? {
      SlotStep(w, e, reuse);
    }
  }

  lemma SoundStep(w: World, e: Event, reuse: bool)
    requires Sound(w, reuse) && Innocent(w, e, reuse) && (reuse || !Wraps(w.st, e))
    ensures Sound(Step(w, e), reuse)
  {
    if Act(w, e).1.Issued? {
      IssueStep(w, e, reuse);
    } else if e.OpenDsap? {
      DsapStep(w, e, reuse);
    } else {
      OtherStep(w, e, reuse);
    }
  }

  // ---- chains over runs, and exactly when they hold

  ghost function Innocents(reuse: bool): (World, Event) -> bool {
    (w: World, e: Event) => Sized(w.st) && Innocent(w, e, reuse)
  }

  function Numbered(reuse: bool): (World, Event) -> bool {
    (w: World, e: Event) => reuse || !Wraps(w.st, e)
  }

  ghost function Completing(reuse: bool): (World, Event) -> bool {
    (w: World, e: Event) => Sized(w.st) && !Revives(w, e) && (reuse || !Wraps(w.st, e))
  }

  /** Every refused TPM_DSAP of the run is innocent. */
  ghost predicate Harmless(events: seq<Event>, reuse: bool) {
    Along(Start(), events, Innocents(reuse))
  }

  /** IDs do not come round in the run, unless they may. */
  ghost predicate Orderly(events: seq<Event>, reuse: bool) {
    Along(Start(), events, Numbered(reuse))
  }

  lemma {:induction false} RunSound(events: seq<Event>, reuse: bool)
    requires Harmless(events, reuse) && Orderly(events, reuse)
    ensures Sound(Run(events), reuse)
  {
    if events != [] {
      var before, e := events[..|events| - 1], events[|events| - 1];
      RunSound(before, reuse);
      RunLast(events);
      SoundStep(Run(before), e, reuse);
    }
  }

  /** The continuation issues a delegated blob without a parent, although it has no refused
      TPM_DSAP and IDs do not come round in it, unless they may. */
  ghost predicate Orphans(w: World, more: seq<Event>, reuse: bool)
    requires Sized(w.st)
  {
    Along(w, more, Completing(reuse)) && !Chained(After(w, more).log)
  }

  /** No completed continuation issues such a blob. */
  ghost predicate Secure(w: World, reuse: bool)
    requires Sized(w.st)
  {
    forall more :: !Orphans(w, more, reuse)
  }

  /** Completed steps are innocent, so after a harmless run nothing can go wrong any more. */
  lemma HarmlessSecure(events: seq<Event>, reuse: bool)
    requires Harmless(events, reuse) && Orderly(events, reuse)
    ensures Secure(Run(events), reuse)
  {
    var w := Run(events);
    forall more ensures !Orphans(w, more, reuse) {
      if Along(w, more, Completing(reuse)) {
        Runs.Keeps(Next(), Completing(reuse), Innocents(reuse), (v: World) => true, w, more);
        Runs.Keeps(Next(), Completing(reuse), Numbered(reuse), (v: World) => true, w, more);
        Runs.Concat(Next(), Innocents(reuse), Start(), events, more);
        Runs.Concat(Next(), Numbered(reuse), Start(), events, more);
        RunSound(events + more, reuse);
      }
    }
  }

  /** Exactly when: no point of a run has a completed continuation that issues a delegated blob
      without a parent, if and only if every refused TPM_DSAP of the run takes contents that are
      backed, or that cannot create delegations of their type, or whose family is gone for good. */
  lemma HarmlessExactly(events: seq<Event>, reuse: bool)
    requires Orderly(events, reuse)
    ensures Harmless(events, reuse) <==> forall n :: 0 <= n <= |events| ==> Secure(Run(events[..n]), reuse)
  {
    if Harmless(events, reuse) {
      forall n | 0 <= n <= |events| ensures Secure(Run(events[..n]), reuse) {
        Runs.Prefix(Next(), Innocents(reuse), Start(), events, n);
        Runs.Prefix(Next(), Numbered(reuse), Start(), events, n);
        HarmlessSecure(events[..n], reuse);
      }
    } else {
      var n := Runs.FirstBad(Next(), Innocents(reuse), Start(), events);
      var more := HarmfulIssues(Run(events[..n]), events[n], reuse);
      RunNext(events, n);
      assert !Secure(Run(events[..n + 1]), reuse);
    }
  }

  // ---- a harmful refusal has a continuation that breaks the chain

  /** The events lead from one world to the other without refusals. */
  ghost predicate Leads(w: World, more: seq<Event>, v: World, reuse: bool)
    requires Sized(w.st)
  {
    Along(w, more, Completing(reuse)) && After(w, more) == v
  }

  lemma LeadsOne(w: World, e: Event, reuse: bool)
    requires Sized(w.st) && !e.OpenDsap? && (reuse || !Wraps(w.st, e))
    ensures Leads(w, [e], Step(w, e), reuse)
  {
    Runs.More(Next(), Completing(reuse), w, [], e);
    assert [] + [e] == [e];
  }

  lemma LeadsOn(w: World, more: seq<Event>, v: World, e: Event, reuse: bool)
    requires Sized(w.st) && Leads(w, more, v, reuse) && !e.OpenDsap? && (reuse || !Wraps(v.st, e))
    ensures Leads(w, more + [e], Step(v, e), reuse)
  {
    Runs.More(Next(), Completing(reuse), w, more, e);
  }

  lemma LeadsFar(w: World, more: seq<Event>, v: World, rest: seq<Event>, u: World, reuse: bool)
    requires Sized(w.st) && Sized(v.st) && Leads(w, more, v, reuse) && Leads(v, rest, u, reuse)
    ensures Leads(w, more + rest, u, reuse)
  {
    Runs.Concat(Next(), Completing(reuse), w, more, rest);
  }

  /** An OIAP session is in the first slot; blobs and saved sessions are the given ones. */
  ghost predicate Managed(w: World, log: seq<Issue>, saved: seq<Slot>) {
    Sized(w.st) && w.st.slots[0].kind == OIAP && w.log == log && w.saved == saved
  }

  ghost predicate Present(st: State, family: nat) {
    Sized(st) && FamilyRow(st, family) < NUM_FAMILIES
  }

  /** The session is saved and an OIAP session takes the first slot. */
  lemma TakesOver(w: World, i: nat, reuse: bool) returns (more: seq<Event>)
    requires Sized(w.st) && i < NUM_SESSIONS
    ensures var v := After(w, more);
      && Leads(w, more, v, reuse) && Managed(v, w.log, w.saved + [w.st.slots[i]])
      && v.st.families == w.st.families && v.st.last == w.st.last
  {
    var save, close, open := SaveSession(i), CloseSession(0), OpenSession(false, 0);
    LeadsOne(w, save, reuse);
    LeadsOn(w, [save], Step(w, save), close, reuse);
    var v := Step(Step(w, save), close);
    assert FreeSlotFrom(v.st.slots, 0) == 0;
    LeadsOn(w, [save] + [close], v, open, reuse);
    more := [save] + [close] + [open];
  }

  /** If all rows are taken, the first family is invalidated. */
  lemma MakesRoom(w: World, log: seq<Issue>, saved: seq<Slot>, f: nat, reuse: bool) returns (more: seq<Event>)
    requires Managed(w, log, saved) && !Present(w.st, f)
    ensures var v := After(w, more);
      && Leads(w, more, v, reuse) && Managed(v, log, saved) && v.st.last == w.st.last && !Present(v.st, f)
      && FreeFamilyFrom(v.st.families, 0) < NUM_FAMILIES
  {
    more := [];
    if FreeFamilyFrom(w.st.families, 0) == NUM_FAMILIES {
      var e := DelegateManage(0, true, w.st.families[0].id, INVALIDATE, true);
      assert w.st.families[0].valid;
      assert FamilyRow(w.st, w.st.families[0].id) == 0;
      LeadsOne(w, e, reuse);
      var v := Step(w, e);
      assert v.st.families == w.st.families[0 := NO_FAMILY];
      more := [e];
    }
  }

  /** One more family. */
  lemma CreateStep(w: World, log: seq<Issue>, saved: seq<Slot>, f: nat)
    requires Managed(w, log, saved) && !Present(w.st, f) && FreeFamilyFrom(w.st.families, 0) < NUM_FAMILIES
    ensures var v := Step(w, DelegateManage(0, true, 0, CREATE(0), true));
      && Managed(v, log, saved) && v.st.last == (w.st.last + 1) % TWO32 && (Present(v.st, f) <==> v.st.last == f)
  {
    var k, v := FreeFamilyFrom(w.st.families, 0), Step(w, DelegateManage(0, true, 0, CREATE(0), true));
    assert v.st.families == w.st.families[k := Family(true, v.st.last, 0, 1, false, false)];
    assert v.st.families[k].valid;
  }

  lemma CreatesOne(w: World, log: seq<Issue>, saved: seq<Slot>, f: nat, reuse: bool) returns (more: seq<Event>)
    requires Managed(w, log, saved) && !Present(w.st, f) && (reuse || w.st.last + 1 < TWO32)
    ensures var v := After(w, more);
      && Leads(w, more, v, reuse) && Managed(v, log, saved) && v.st.last == (w.st.last + 1) % TWO32
      && (Present(v.st, f) <==> v.st.last == f)
  {
    var room := MakesRoom(w, log, saved, f, reuse);
    var v, e := After(w, room), DelegateManage(0, true, 0, CREATE(0), true);
    CreateStep(v, log, saved, f);
    LeadsOn(w, room, v, e, reuse);
    more := room + [e];
  }

  /** How many families are created before the one with ID `f`. */
  function Distance(last: id32, f: id32): nat {
    if last < f then f - last - 1 else f + TWO32 - last - 1
  }

  lemma Closer(last: id32, f: id32)
    requires (last + 1) % TWO32 != f
    ensures Distance((last + 1) % TWO32, f) < Distance(last, f)
    ensures last < f ==> (last + 1) % TWO32 < f
  {
    if last + 1 == TWO32 { assert (last + 1) % TWO32 == 0; } else { assert (last + 1) % TWO32 == last + 1; }
  }

  /** Families are created until `f` is there. */
  lemma {:induction false} CreatesUntil(w: World, log: seq<Issue>, saved: seq<Slot>, f: id32, reuse: bool)
    returns (more: seq<Event>)
    requires Managed(w, log, saved) && !Present(w.st, f) && (reuse || w.st.last < f)
    ensures var v := After(w, more);
      Leads(w, more, v, reuse) && Managed(v, log, saved) && Present(v.st, f)
    decreases Distance(w.st.last, f)
  {
    more := CreatesOne(w, log, saved, f, reuse);
    var v := After(w, more);
    if v.st.last != f {
      Closer(w.st.last, f);
      var rest := CreatesUntil(v, log, saved, f, reuse);
      LeadsFar(w, more, v, rest, After(v, rest), reuse);
      more := more + rest;
    }
  }

  /** The family is there and enabled. */
  ghost predicate Enabled(st: State, family: nat) {
    Present(st, family) && st.families[FamilyRow(st, family)].enabled
  }

  lemma Enables(w: World, log: seq<Issue>, saved: seq<Slot>, f: id32, reuse: bool)
    requires Managed(w, log, saved) && Present(w.st, f)
    ensures var e := DelegateManage(0, true, f, ENABLE(true), true); var v := Step(w, e);
      Leads(w, [e], v, reuse) && Managed(v, log, saved) && Enabled(v.st, f)
  {
    var e, k := DelegateManage(0, true, f, ENABLE(true), true), FamilyRow(w.st, f);
    LeadsOne(w, e, reuse);
    var v := Step(w, e);
    assert v.st.families == w.st.families[k := w.st.families[k].(enabled := true)];
    assert v.st.families[k].valid && v.st.families[k].id == f;
    FamilyRowKept(w.st, v.st, f);
  }

  /** The first row of a family depends on valid flags and IDs only. */
  lemma FamilyRowKept(st: State, r: State, f: nat)
    requires Sized(st) && Sized(r)
    requires forall i :: 0 <= i < NUM_FAMILIES ==>
      r.families[i].valid == st.families[i].valid && r.families[i].id == st.families[i].id
    ensures FamilyRow(r, f) == FamilyRow(st, f)
  {
    FamilyFromKept(st.families, r.families, f, 0);
  }

  lemma {:induction false} FamilyFromKept(s: seq<Family>, t: seq<Family>, f: nat, i: nat)
    requires i <= |s| == |t| && forall j :: 0 <= j < |s| ==> t[j].valid == s[j].valid && t[j].id == s[j].id
    ensures FamilyFrom(t, f, i) == FamilyFrom(s, f, i)
    decreases |s| - i
  {
    if i < |s| && !(s[i].valid && s[i].id == f) { FamilyFromKept(s, t, f, i + 1); }
  }

  /** The saved session comes back into the first slot. */
  lemma ComesBack(w: World, log: seq<Issue>, saved: seq<Slot>, k: nat, reuse: bool) returns (more: seq<Event>)
    requires Managed(w, log, saved) && k < |saved| && saved[k].kind == DSAP
    ensures var v := After(w, more);
      && Leads(w, more, v, reuse) && v.log == log && v.st.slots[0] == saved[k] && v.st.families == w.st.families
  {
    var close, load := CloseSession(0), LoadSession(k, 0, NO_SLOT);
    LeadsOne(w, close, reuse);
    LeadsOn(w, [close], Step(w, close), load, reuse);
    more := [close] + [load];
  }

  /** The command that creates a delegation of the session's own type with all its permissions. */
  function Creation(i: nat, s: Slot, secret: nat): Event {
    if s.delegated == OWNER_BITS then CreateOwnerDelegation(i, true, false, Held(s), secret)
    else CreateKeyDelegation(i, true, s.handle, Some(0), Held(s), secret)
  }

  /** In an enabled family such a session issues a blob without a parent, if it is not backed. */
  lemma IssuesOrphan(w: World, i: nat, secret: nat)
    requires Sized(w.st) && i < NUM_SESSIONS && w.st.slots[i].kind == DSAP && Creator(w.st.slots[i])
    requires Enabled(w.st, w.st.slots[i].family) && !Backed(w.log, w.st.slots[i])
    ensures var r := Step(w, Creation(i, w.st.slots[i], secret));
      |r.log| == |w.log| + 1 && r.log[|w.log|].delegated && !HasParent(r.log, |w.log|)
  {
    var s, n := w.st.slots[i], |w.log|;
    CoversReflexive(s.per1);
    CoversReflexive(s.per2);
    var r := Step(w, Creation(i, s, secret));
    assert r.log[n].blob.pub == Held(s).(count := w.st.families[FamilyRow(w.st, s.family)].count);
    forall k | 0 <= k < n ensures !Within(r.log[k].blob.pub, r.log[n].blob.pub) {
      assert !Within(w.log[k].blob.pub, Held(s));
    }
  }

  /** The family of the session is made ready while the session is swapped out. */
  lemma FamilyReady(w: World, i: nat, reuse: bool) returns (more: seq<Event>)
    requires Sized(w.st) && i < NUM_SESSIONS && w.st.slots[i].kind == DSAP
    requires reuse || !Gone(w.st, w.st.slots[i].family)
    ensures var v := After(w, more);
      && Leads(w, more, v, reuse) && v.log == w.log && v.st.slots[0] == w.st.slots[i]
      && Enabled(v.st, w.st.slots[i].family)
  {
    var s, saved := w.st.slots[i], w.saved + [w.st.slots[i]];
    more := TakesOver(w, i, reuse);
    var v := After(w, more);
    if !Present(v.st, s.family) {
      var rest := CreatesUntil(v, w.log, saved, s.family, reuse);
      LeadsFar(w, more, v, rest, After(v, rest), reuse);
      more, v := more + rest, After(v, rest);
    }
    var e := DelegateManage(0, true, s.family, ENABLE(true), true);
    Enables(v, w.log, saved, s.family, reuse);
    LeadsOn(w, more, v, e, reuse);
    more, v := more + [e], Step(v, e);
    var back := ComesBack(v, w.log, saved, |w.saved|, reuse);
    LeadsFar(w, more, v, back, After(v, back), reuse);
    more := more + back;
  }

  /** A refusal that is not innocent has a continuation that issues a delegated blob without a
      parent. */
  lemma HarmfulIssues(w: World, e: Event, reuse: bool) returns (more: seq<Event>)
    requires Sized(w.st) && !Innocent(w, e, reuse)
    ensures Orphans(Step(w, e), more, reuse)
  {
    var i, s, v := FreeSlotFrom(w.st.slots, 0), Leftover(w.st), Step(w, e);
    assert v.st == SetSlot(w.st, i, s.(kind := DSAP)) && v.log == w.log;
    more := FamilyReady(v, i, reuse);
    var u := After(v, more);
    var last := Creation(0, u.st.slots[0], 0);
    assert Held(u.st.slots[0]) == Held(s);
    IssuesOrphan(u, 0, 0);
    LeadsOn(v, more, u, last, reuse);
    more := more + [last];
    assert !HasParent(Step(u, last).log, |u.log|);
  }

  // ---- when refusals are harmless

  /** Reloads fill the fields that were not saved with no permissions. */
  ghost predicate Clean(events: seq<Event>) {
    forall i :: 0 <= i < |events| && events[i].LoadSession? ==> events[i].residue.delegated == 0
  }

  /** Every slot and every saved session is backed, delegated or not. */
  ghost predicate AllBacked(w: World) {
    && Sized(w.st)
    && (forall i :: 0 <= i < NUM_SESSIONS ==> Backed(w.log, w.st.slots[i]))
    && (forall i :: 0 <= i < |w.saved| ==> Backed(w.log, w.saved[i]))
  }

  /** Slots and saved sessions hold what they held, a saved session, or nothing. */
  lemma BackedKept(w: World, r: World)
    requires AllBacked(w) && r.log == w.log && Sized(r.st)
    requires forall i :: 0 <= i < NUM_SESSIONS ==>
      r.st.slots[i].delegated == 0 || Held(r.st.slots[i]) == Held(w.st.slots[i]) || r.st.slots[i] in w.saved
    requires forall i :: 0 <= i < |r.saved| ==> r.saved[i] in w.saved || r.saved[i] in w.st.slots
    ensures AllBacked(r)
  {}

  lemma IssueBacked(w: World, e: Event)
    requires AllBacked(w) && Act(w, e).1.Issued?
    ensures AllBacked(Step(w, e))
  {
    IssuedPublic(w, e);
    LogGrows(w.log, Step(w, e).log[|w.log|]);
    SlotsKept(w, e);
  }

  lemma DsapBacked(w: World, e: Event)
    requires AllBacked(w) && Sound(w, true) && e.OpenDsap?
    ensures AllBacked(Step(w, e))
  {
    var r, i := Step(w, e), FreeSlotFrom(w.st.slots, 0);
    if Revives(w, e) || i == NUM_SESSIONS {
      BackedKept(w, r);
    } else {
      GrantBacked(w, e.claim, r.st.slots[i]);
    }
  }

  lemma SlotEventBacked(w: World, e: Event)
    requires AllBacked(w) && (e.OpenSession? || e.CloseSession? || e.SaveSession? || e.LoadSession?)
    requires e.LoadSession? ==> e.residue.delegated == 0
    ensures AllBacked(Step(w, e))
  {
    BackedKept(w, Step(w, e));
  }

  lemma TableEventBacked(w: World, e: Event)
    requires AllBacked(w) && (e.DelegateManage? || e.LoadOwnerDelegation? || e.UpdateVerification?)
    ensures AllBacked(Step(w, e))
  {
    var r := Step(w, e);
    TableSlots(w, e);
    assert r.log == w.log && r.saved == w.saved;
    BackedKept(w, r);
  }

  lemma OtherBacked(w: World, e: Event)
    requires AllBacked(w) && !Act(w, e).1.Issued? && !e.OpenDsap?
    requires e.LoadSession? ==> e.residue.delegated == 0
    ensures AllBacked(Step(w, e))
  {
    if e.OpenSession? || e.CloseSession? || e.SaveSession? || e.LoadSession? {
      SlotEventBacked(w, e);
    } else if e.DelegateManage? || e.LoadOwnerDelegation? || e.UpdateVerification? {
      TableEventBacked(w, e);
    } else {
      BackedKept(w, Step(w, e));
    }
  }

  lemma AllBackedStep(w: World, e: Event)
    requires AllBacked(w) && Sound(w, true) && (e.LoadSession? ==> e.residue.delegated == 0)
    ensures AllBacked(Step(w, e))
  {
    if Act(w, e).1.Issued? {
      IssueBacked(w, e);
    } else if e.OpenDsap? {
      DsapBacked(w, e);
    } else {
      OtherBacked(w, e);
    }
  }

  /** So all refusals are harmless in a run without reloads, or whose reloads find no permissions
      in memory. */
  lemma {:induction false} CleanHarmless(events: seq<Event>)
    requires Clean(events)
    ensures Harmless(events, true) && Orderly(events, true) && AllBacked(Run(events))
  {
    if events != [] {
      var m := |events| - 1;
      assert forall i :: 0 <= i < m ==> events[..m][i] == events[i];
      CleanHarmless(events[..m]);
      RunSound(events[..m], true);
      RunLast(events);
      AllBackedStep(Run(events[..m]), events[m]);
    }
  }

  lemma {:induction false} Ancestor(log: seq<Issue>, j: nat) returns (i: nat)
    requires j < |log| && Chained(log)
    ensures i <= j && !log[i].delegated && Within(log[i].blob.pub, log[j].blob.pub)
  {
    if log[j].delegated {
      assert HasParent(log, j);
      var k :| 0 <= k < j && Within(log[k].blob.pub, log[j].blob.pub);
      i := Ancestor(log, k);
      WithinTransitive(log[i].blob.pub, log[k].blob.pub, log[j].blob.pub);
    } else {
      i := j;
      CoversReflexive(log[j].blob.pub.per1);
      CoversReflexive(log[j].blob.pub.per2);
    }
  }

  /** A permission contained in another one allows no further command. */
  lemma PermittedWithin(p: Public, q: Public, ordinal: nat)
    requires Within(p, q) && Permitted(q.kind, ordinal, q.per1)
    ensures Permitted(p.kind, ordinal, p.per1)
  {
    var mask := if q.kind == OWNER_BITS then OwnerMask(ordinal) else KeyMask(ordinal);
    IsSetCovered(p.per1, q.per1, mask.value);
  }

  /** Over every run whose refusals are harmless, every issued blob descends from one issued
      outside delegation that has the same family and type, covers its permissions, and so allows
      every command it allows. */
  lemma ChainsEnd(events: seq<Event>, reuse: bool, j: nat) returns (i: nat)
    requires Harmless(events, reuse) && Orderly(events, reuse) && j < |Run(events).log|
    ensures var log := Run(events).log;
      i <= j && !log[i].delegated && Within(log[i].blob.pub, log[j].blob.pub)
    ensures var log := Run(events).log;
      forall o :: Permitted(log[j].blob.pub.kind, o, log[j].blob.pub.per1) ==>
        Permitted(log[i].blob.pub.kind, o, log[i].blob.pub.per1)
  {
    RunSound(events, reuse);
    var log := Run(events).log;
    i := Ancestor(log, j);
    forall o | Permitted(log[j].blob.pub.kind, o, log[j].blob.pub.per1)
      ensures Permitted(log[i].blob.pub.kind, o, log[i].blob.pub.per1)
    {
      PermittedWithin(log[i].blob.pub, log[j].blob.pub, o);
    }
  }

  /** The owner creates and enables a family and saves the session; an OIAP session takes the
      slot, is saved, reloaded and saved again; then a TPM_DSAP is refused. */
  function Strayed(residue: Slot): seq<Event> {
    [OpenSession(true, KH_OWNER), DelegateManage(0, true, 0, CREATE(0), true),
     DelegateManage(0, true, 1, ENABLE(true), true), SaveSession(0),
     OpenSession(false, 0), SaveSession(0), LoadSession(1, 0, residue), SaveSession(0), OpenDsap(ByRow(0, 0))]
  }

  /** Nothing was delegated yet; the first slot, the first family and the saved sessions. */
  ghost predicate At(w: World, s: Slot, f: Family, saved: seq<Slot>) {
    && Sized(w.st) && w.log == [] && w.st.rows == Initial().rows && w.saved == saved
    && w.st.slots[0] == s && w.st.families[0] == f && w.st.last == if f.valid then 1 else 0
  }

  lemma OpenAt(w: World, s: Slot, f: Family, saved: seq<Slot>, osap: bool, handle: nat)
    requires At(w, s, f, saved) && s.kind == INVALID
    ensures At(Step(w, OpenSession(osap, handle)),
               s.(kind := if osap then OSAP else OIAP, handle := if osap then handle else s.handle), f, saved)
  {}

  lemma CreateAt(w: World, s: Slot)
    requires At(w, s, NO_FAMILY, []) && s.kind == OSAP && s.handle == KH_OWNER
    ensures At(Step(w, DelegateManage(0, true, 0, CREATE(0), true)), s, Family(true, 1, 0, 1, false, false), [])
  {}

  lemma EnableAt(w: World, s: Slot)
    requires At(w, s, Family(true, 1, 0, 1, false, false), []) && s.kind == OSAP && s.handle == KH_OWNER
    ensures At(Step(w, DelegateManage(0, true, 1, ENABLE(true), true)), s, Family(true, 1, 0, 1, true, false), [])
  {}

  lemma SaveAt(w: World, s: Slot, f: Family, saved: seq<Slot>)
    requires At(w, s, f, saved)
    ensures At(Step(w, SaveSession(0)), s.(kind := INVALID), f, saved + [s])
  {}

  lemma LoadAt(w: World, s: Slot, f: Family, saved: seq<Slot>, k: nat, residue: Slot)
    requires At(w, s, f, saved) && s.kind == INVALID && k < |saved|
    ensures At(Step(w, LoadSession(k, 0, residue)), Reloaded(saved[k], residue), f, saved)
  {}

  lemma RunNext(events: seq<Event>, n: nat)
    requires n < |events|
    ensures Run(events[..n + 1]) == Step(Run(events[..n]), events[n])
  {
    assert events[..n + 1][..n] == events[..n];
    RunLast(events[..n + 1]);
  }

  /** Four steps of a run. */
  ghost function Four(w: World, e: Event, f: Event, g: Event, h: Event): World
    requires Sized(w.st)
  {
    Step(Step(Step(Step(w, e), f), g), h)
  }

  lemma RunFour(events: seq<Event>, n: nat)
    requires n + 4 <= |events|
    ensures Run(events[..n + 4]) == Four(Run(events[..n]), events[n], events[n + 1], events[n + 2], events[n + 3])
  {
    RunNext(events, n);
    RunNext(events, n + 1);
    RunNext(events, n + 2);
    RunNext(events, n + 3);
  }

  /** The owner enables a family and saves the session. */
  lemma OwnerLeaves(w: World)
    requires At(w, NO_SLOT, NO_FAMILY, [])
    ensures var s := Slot(OSAP, KH_OWNER, 0, 0, 0, 0);
      At(Four(w, OpenSession(true, KH_OWNER), DelegateManage(0, true, 0, CREATE(0), true),
              DelegateManage(0, true, 1, ENABLE(true), true), SaveSession(0)),
         s.(kind := INVALID), Family(true, 1, 0, 1, true, false), [s])
  {
    var s := Slot(OSAP, KH_OWNER, 0, 0, 0, 0);
    OpenAt(w, NO_SLOT, NO_FAMILY, [], true, KH_OWNER);
    var v := Step(w, OpenSession(true, KH_OWNER));
    CreateAt(v, s);
    v := Step(v, DelegateManage(0, true, 0, CREATE(0), true));
    EnableAt(v, s);
    SaveAt(Step(v, DelegateManage(0, true, 1, ENABLE(true), true)), s, Family(true, 1, 0, 1, true, false), []);
  }

  /** The slot comes to hold what is in memory at the reload. */
  lemma SlotStrays(w: World, s: Slot, f: Family, residue: Slot)
    requires At(w, s.(kind := INVALID), f, [s])
    ensures At(Four(w, OpenSession(false, 0), SaveSession(0), LoadSession(1, 0, residue), SaveSession(0)),
               residue.(kind := INVALID, handle := s.handle), f,
               [s, s.(kind := OIAP), residue.(kind := OIAP, handle := s.handle)])
  {
    var t, u := s.(kind := OIAP), residue.(kind := OIAP, handle := s.handle);
    OpenAt(w, s.(kind := INVALID), f, [s], false, 0);
    var v := Step(w, OpenSession(false, 0));
    SaveAt(v, t, f, [s]);
    v := Step(v, SaveSession(0));
    LoadAt(v, t.(kind := INVALID), f, [s] + [t], 1, residue);
    SaveAt(Step(v, LoadSession(1, 0, residue)), u, f, [s] + [t]);
    assert [s] + [t] + [u] == [s, t, u];
  }

  lemma OwnerLeft(events: seq<Event>, n: nat)
    requires n + 4 <= |events| && At(Run(events[..n]), NO_SLOT, NO_FAMILY, [])
    requires events[n] == OpenSession(true, KH_OWNER) && events[n + 3] == SaveSession(0)
    requires events[n + 1] == DelegateManage(0, true, 0, CREATE(0), true)
    requires events[n + 2] == DelegateManage(0, true, 1, ENABLE(true), true)
    ensures var s := Slot(OSAP, KH_OWNER, 0, 0, 0, 0);
      At(Run(events[..n + 4]), s.(kind := INVALID), Family(true, 1, 0, 1, true, false), [s])
  {
    OwnerLeaves(Run(events[..n]));
    RunFour(events, n);
  }

  lemma SlotStrayed(events: seq<Event>, n: nat, s: Slot, f: Family, residue: Slot)
    requires n + 4 <= |events| && At(Run(events[..n]), s.(kind := INVALID), f, [s])
    requires events[n] == OpenSession(false, 0) && events[n + 1] == SaveSession(0)
    requires events[n + 2] == LoadSession(1, 0, residue) && events[n + 3] == SaveSession(0)
    ensures At(Run(events[..n + 4]), residue.(kind := INVALID, handle := s.handle), f,
               [s, s.(kind := OIAP), residue.(kind := OIAP, handle := s.handle)])
  {
    SlotStrays(Run(events[..n]), s, f, residue);
    RunFour(events, n);
  }

  /** The world before the refusal. */
  lemma StrayedWorld(events: seq<Event>, residue: Slot)
    requires events == Strayed(residue)
    ensures exists saved :: At(Run(events[..8]), residue.(kind := INVALID, handle := KH_OWNER),
                               Family(true, 1, 0, 1, true, false), saved)
  {
    OwnerLeft(events, 0);
    SlotStrayed(events, 4, Slot(OSAP, KH_OWNER, 0, 0, 0, 0), Family(true, 1, 0, 1, true, false), residue);
  }

  /** So without the condition the claim is false: if memory held such permissions, the one blob
      of this run was created in a delegated session, and nothing was ever delegated. */
  lemma ChainBroken(residue: Slot, secret: nat)
    requires residue.family == 1 && residue.delegated == OWNER_BITS
    requires Permitted(OWNER_BITS, ORD_CREATE_OWNER, residue.per1)
    ensures var last := CreateOwnerDelegation(0, true, false, Held(residue), secret);
      var log := Run(Strayed(residue) + [last]).log;
      |log| == 1 && log[0].delegated
  {
    var events, last := Strayed(residue), CreateOwnerDelegation(0, true, false, Held(residue), secret);
    StrayedWorld(events, residue);
    RunNext(events, 8);
    assert events[..9] == events && (events + [last])[..9] == events;
    var w := Run(events[..9]);
    assert w.st.slots[0] == residue.(kind := DSAP, handle := KH_OWNER) && w.log == [];
    assert FamilyRow(w.st, 1) == 0;
    IssuesOrphan(w, 0, secret);
    RunNext(events + [last], 9);
    assert (events + [last])[..10] == events + [last];
  }

  // ---- revocation lasts

  /** Valid rows have distinct IDs of at most `last`; `n` bounds the number of commands so far,
      and with it the ID and the counts. */
  ghost predicate FamiliesValid(st: State, n: nat) {
    && Sized(st) && st.last <= n
    && (forall i :: 0 <= i < NUM_FAMILIES && st.families[i].valid ==>
          1 <= st.families[i].id <= st.last && st.families[i].count <= n + 1)
    && (forall i, j :: 0 <= i < j < NUM_FAMILIES && st.families[i].valid && st.families[j].valid ==>
          st.families[i].id != st.families[j].id)
  }

  /** The row of a family after a step: the same ID with a count that is not smaller. */
  ghost predicate FamiliesKept(st: State, r: State) {
    && Sized(st) && Sized(r) && st.last <= r.last
    && forall i :: 0 <= i < NUM_FAMILIES && r.families[i].valid ==>
         (st.families[i].valid && r.families[i].id == st.families[i].id && r.families[i].count >= st.families[i].count)
         || (r.families[i].id > st.last)
  }

  lemma SameFamilies(st: State, r: State, n: nat)
    requires FamiliesValid(st, n) && Sized(r) && r.families == st.families && r.last == st.last
    ensures FamiliesValid(r, n + 1) && FamiliesKept(st, r)
  {}

  /** A row keeps its ID and its count grows by at most one. */
  lemma UpdatedFamily(st: State, r: State, k: nat, n: nat)
    requires FamiliesValid(st, n) && Sized(r) && k < NUM_FAMILIES && r.last == st.last
    requires r.families == st.families[k := r.families[k]]
    requires r.families[k].valid ==> st.families[k].valid && r.families[k].id == st.families[k].id
    requires r.families[k].valid ==> st.families[k].count <= r.families[k].count <= st.families[k].count + 1
    ensures FamiliesValid(r, n + 1) && FamiliesKept(st, r)
  {}

  lemma NewFamily(st: State, r: State, k: nat, n: nat)
    requires FamiliesValid(st, n) && Sized(r) && k < NUM_FAMILIES && r.last == st.last + 1 && !st.families[k].valid
    requires r.families == st.families[k := r.families[k]] && r.families[k].id == r.last && r.families[k].count == 1
    ensures FamiliesValid(r, n + 1) && FamiliesKept(st, r)
  {}

  lemma OperateFamilies(st: State, k: nat, op: Operation, sized: bool, n: nat)
    requires FamiliesValid(st, n) && n + 2 < TWO32 && k <= NUM_FAMILIES && (!op.CREATE? ==> k < NUM_FAMILIES)
    ensures var r := Operate(st, k, op, sized).0; FamiliesValid(r, n + 1) && FamiliesKept(st, r)
  {
    var r := Operate(st, k, op, sized).0;
    if r.families == st.families && r.last == st.last {
      SameFamilies(st, r, n);
    } else if op.CREATE? {
      NewFamily(st, r, FreeFamilyFrom(st.families, 0), n);
    } else {
      UpdatedFamily(st, r, k, n);
    }
  }

  lemma ManageFamilies(st: State, i: nat, proof: bool, id: nat, op: Operation, sized: bool, n: nat)
    requires FamiliesValid(st, n) && n + 2 < TWO32
    ensures var r := Manage(st, i, proof, id, op, sized).0; FamiliesValid(r, n + 1) && FamiliesKept(st, r)
  {
    var t := st.(slots := OnlySlot(st.slots, i));
    var k := if op.CREATE? then NUM_FAMILIES else FamilyRow(st, id);
    if k < NUM_FAMILIES || op.CREATE? { OperateFamilies(t, k, op, sized, n); }
    SameFamilies(st, st, n);
  }

  lemma CreateOwnerFamilies(st: State, i: nat, proof: bool, increment: bool, p: Public, secret: nat, n: nat)
    requires FamiliesValid(st, n) && n + 2 < TWO32
    ensures var r := CreateOwner(st, i, proof, increment, p, secret).0; FamiliesValid(r, n + 1) && FamiliesKept(st, r)
  {
    var r := CreateOwner(st, i, proof, increment, p, secret).0;
    if r.families == st.families {
      SameFamilies(st, r, n);
    } else {
      UpdatedFamily(st, r, FamilyRow(st, p.family), n);
    }
  }

  lemma OthersKeepFamilies(w: World, e: Event)
    requires Sized(w.st) && !e.DelegateManage? && !e.CreateOwnerDelegation?
    ensures Step(w, e).st.families == w.st.families && Step(w, e).st.last == w.st.last
  {}

  lemma FamilyStep(w: World, e: Event, n: nat)
    requires FamiliesValid(w.st, n) && n + 2 < TWO32
    ensures FamiliesValid(Step(w, e).st, n + 1) && FamiliesKept(w.st, Step(w, e).st)
  {
    if e.DelegateManage? {
      ManageFamilies(w.st, e.slot, e.proof, e.id, e.op, e.sized, n);
    } else if e.CreateOwnerDelegation? {
      CreateOwnerFamilies(w.st, e.slot, e.proof, e.increment, e.pub, e.secret, n);
    } else {
      OthersKeepFamilies(w, e);
      SameFamilies(w.st, Step(w, e).st, n);
    }
  }

  lemma {:induction false} RunFamilies(events: seq<Event>)
    requires |events| + 1 < TWO32
    ensures FamiliesValid(Run(events).st, |events|)
  {
    if events != [] {
      RunFamilies(events[..|events| - 1]);
      RunLast(events);
      FamilyStep(Run(events[..|events| - 1]), events[|events| - 1], |events| - 1);
    }
  }

  /** The family was created once, and is gone or has moved past the count. */
  ghost predicate Revoked(st: State, family: nat, count: nat) {
    && Sized(st) && family <= st.last
    && forall i :: 0 <= i < NUM_FAMILIES && st.families[i].valid && st.families[i].id == family ==>
         st.families[i].count > count
  }

  lemma RunMore(first: seq<Event>, more: seq<Event>)
    requires more != []
    ensures Run(first + more) == Step(Run(first + more[..|more| - 1]), more[|more| - 1])
  {
    var all, m := first + more, |first + more| - 1;
    assert all[..m] == first + more[..|more| - 1] && all[m] == more[|more| - 1];
    RunLast(all);
  }

  lemma RevokedKept(st: State, r: State, family: nat, count: nat)
    requires FamiliesKept(st, r)
    ensures Revoked(st, family, count) ==> Revoked(r, family, count)
    ensures Gone(st, family) ==> Gone(r, family)
  {}

  /** Over every run of fewer than 2^32 commands, what is revoked stays revoked. */
  lemma {:induction false} RevokedForever(first: seq<Event>, more: seq<Event>, family: nat, count: nat)
    requires |first| + |more| + 1 < TWO32
    ensures Revoked(Run(first).st, family, count) ==> Revoked(Run(first + more).st, family, count)
    ensures Gone(Run(first).st, family) ==> Gone(Run(first + more).st, family)
    decreases |more|
  {
    if more == [] {
      assert first + more == first;
    } else {
      var before, e := more[..|more| - 1], more[|more| - 1];
      RevokedForever(first, before, family, count);
      RunFamilies(first + before);
      FamilyStep(Run(first + before), e, |first + before|);
      RunMore(first, more);
      RevokedKept(Run(first + before).st, Run(first + more).st, family, count);
    }
  }

  /** A revoked blob opens no session, and neither does a row of a family that is gone. */
  lemma RevokedRefuses(st: State, c: Claim)
    requires Sized(st)
    ensures !c.ByRow? && Revoked(st, c.blob.pub.family, c.blob.pub.count) ==> Grants(st, c).Refused?
    ensures c.ByRow? && c.index < NUM_ROWS && Gone(st, st.rows[c.index].pub.family) ==> Grants(st, c).Refused?
  {}

  /** So once a blob is revoked, no later TPM_DSAP of the run opens a session for it; and once its
      family is gone, none does for a row of the family. */
  lemma NeverOpens(first: seq<Event>, more: seq<Event>, c: Claim)
    requires |first| + |more| + 1 < TWO32
    ensures !c.ByRow? && Revoked(Run(first).st, c.blob.pub.family, c.blob.pub.count) ==>
      !Act(Run(first + more), OpenDsap(c)).1.Opened?
    ensures c.ByRow? && c.index < NUM_ROWS && Gone(Run(first).st, Run(first + more).st.rows[c.index].pub.family) ==>
      !Act(Run(first + more), OpenDsap(c)).1.Opened?
  {
    var w := Run(first + more);
    if c.ByRow? {
      if c.index < NUM_ROWS { RevokedForever(first, more, w.st.rows[c.index].pub.family, 0); }
    } else {
      RevokedForever(first, more, c.blob.pub.family, c.blob.pub.count);
    }
    RevokedRefuses(w.st, Checked(w.log, c));
  }

  /** A command issues at most one blob, and only in a family that is there. */
  lemma LogStep(w: World, e: Event, family: nat)
    requires Sized(w.st)
    ensures w.log <= Step(w, e).log
    ensures Gone(w.st, family) ==>
      forall j :: |w.log| <= j < |Step(w, e).log| ==> Step(w, e).log[j].blob.pub.family != family
  {
    if Act(w, e).1.Issued? {
      IssuedPublic(w, e);
      assert FamilyRow(w.st, Act(w, e).1.blob.pub.family) < NUM_FAMILIES;
    }
  }

  /** The blobs from `n` on are not of the family. */
  ghost predicate NoneSince(log: seq<Issue>, n: nat, family: nat) {
    forall j :: n <= j < |log| ==> log[j].blob.pub.family != family
  }

  /** A session that was swapped out keeps its permissions when its family is invalidated, but
      nobody can pass any on: no later blob belongs to the family. */
  lemma {:induction false} NeverIssues(first: seq<Event>, more: seq<Event>, family: nat)
    requires |first| + |more| + 1 < TWO32 && Gone(Run(first).st, family)
    ensures NoneSince(Run(first + more).log, |Run(first).log|, family)
    decreases |more|
  {
    if more == [] {
      assert first + more == first;
    } else {
      var before := more[..|more| - 1];
      NeverIssues(first, before, family);
      RevokedForever(first, before, family, 0);
      LogStep(Run(first + before), more[|more| - 1], family);
      RunMore(first, more);
    }
  }

  /** Invalidating a family revokes everything in it. */
  lemma InvalidateRevokes(st: State, n: nat, i: nat, proof: bool, id: nat, sized: bool)
    requires FamiliesValid(st, n) && Manage(st, i, proof, id, INVALIDATE, sized).1 == Done
    ensures Gone(Manage(st, i, proof, id, INVALIDATE, sized).0, id)
  {}

  /** A delegation created with an increment revokes the blobs with the count before it. */
  lemma IncrementRevokes(st: State, n: nat, i: nat, proof: bool, p: Public, secret: nat)
    requires FamiliesValid(st, n) && n + 2 < TWO32 && CreateOwner(st, i, proof, true, p, secret).1.Issued?
    ensures FamilyRow(st, p.family) < NUM_FAMILIES
    ensures Revoked(CreateOwner(st, i, proof, true, p, secret).0, p.family, st.families[FamilyRow(st, p.family)].count)
  {
    var k, r := FamilyRow(st, p.family), CreateOwner(st, i, proof, true, p, secret).0;
    assert r.families == st.families[k := r.families[k]] && r.families[k].count == st.families[k].count + 1;
  }
}
