/** What each session command does, told by the fields of the slots: which handles name a session,
    which entity a session is bound to, what an authorization needs, and what goes with a key or a
    DAA session (tpm-emulator/tpm/tpm_authorization.c, tpm_context.c, tpm_eviction.c). */
module SessionLaws {
  import opened Wrappers
  import opened Sessions
  import opened SessionRuns

  /** Slot `i` is the first free one. */
  predicate FirstFree(s: seq<Session>, i: nat) {
    i < |s| && s[i].kind == 0 && forall j :: 0 <= j < i ==> s[j].kind != 0
  }

  /** No slot is free. */
  predicate Full(s: seq<Session>) {
    forall j :: 0 <= j < |s| ==> s[j].kind != 0
  }

  lemma {:induction false} FreeIsFirst(s: seq<Session>, i: nat)
    requires i <= |s| && forall j :: 0 <= j < i ==> s[j].kind != 0
    ensures var k := FreeFrom(s, i); if k < |s| then FirstFree(s, k) else Full(s)
    decreases |s| - i
  {
    if i < |s| && s[i].kind != 0 { FreeIsFirst(s, i + 1); }
  }

  lemma OneFirst(s: seq<Session>, i: nat, j: nat)
    requires FirstFree(s, i) && FirstFree(s, j)
    ensures i == j
  {}

  /** The handle of a session carries the resource type and the number of its slot. */
  predicate Names(st: State, h: nat, resource: nat, i: nat)
    requires Sized(st)
  {
    && i < 4 && h == resource * 0x100_0000 + i
    && ((resource == 2 && st.sessions[i].kind in {1, 2, 16}) || (resource == 4 && st.sessions[i].kind == 4))
  }

  lemma NamedSlots(st: State, h: nat, i: nat)
    requires Sized(st)
    ensures AuthSlot(st, h) == Some(i) <==> Names(st, h, 2, i)
    ensures TransportSlot(st, h) == Some(i) <==> Names(st, h, 4, i)
    ensures DaaSlot(st, h) == Some(i) <==> i == 0 && h == 0x0800_0000 && st.daa[0].kind == 8
  {
    assert h == 0x100_0000 * (h / 0x100_0000) + h % 0x100_0000;
  }

  // ---- opening

  /** TPM_OIAP: the first free slot gets type and nonce. */
  lemma OiapOpens(st: State, even: Nonce, i: nat)
    requires Sized(st)
    ensures var (now, r) := Oiap(st, even);
      && (Full(st.sessions) ==> now == st && r == Failed(RESOURCES))
      && (FirstFree(st.sessions, i) ==>
            && r == Opened(0x0200_0000 + i)
            && now == st.(sessions := st.sessions[i := st.sessions[i].(kind := 1, even := even)]))
  {
    FreeIsFirst(st.sessions, 0);
    if FirstFree(st.sessions, i) { OneFirst(st.sessions, i, FreeFrom(st.sessions, 0)); }
  }

  /** The handle that TPM_OSAP binds a session to: the owner, the SRK, or the value given; some
      entities cannot have a session. */
  predicate Entitles(entity: nat, value: nat, handle: nat) {
    entity / 0x100 % 0x100 == 0 &&
    ((entity % 0x100 in {0x02, 0x0D} && handle == 0x4000_0001)
     || (entity % 0x100 == 0x04 && handle == 0x4000_0000)
     || (entity % 0x100 in {0x0A, 0x0B} && handle == value)
     || (entity % 0x100 == 0x01 && handle == value && value != 0x4000_0004))
  }

  /** TPM_OSAP: a session is opened exactly for an entity that has a secret, bound to the handle of
      that entity, with the shared secret and the new nonce. */
  lemma OsapOpens(st: State, share: Sharing, entity: nat, value: nat, secret: Option<nat>, odd: Nonce,
                  even: Nonce, evenOsap: Nonce, i: nat, handle: nat)
    requires Sized(st) && FirstFree(st.sessions, i)
    ensures var (now, r) := Osap(st, share, entity, value, secret, odd, even, evenOsap);
      && (r.Opened? <==> secret.Some? && exists h :: Entitles(entity, value, h))
      && (r.Opened? && Entitles(entity, value, handle) ==>
            && r.handle == 0x0200_0000 + i
            && now == st.(sessions := st.sessions[i := st.sessions[i].(kind := 2, handle := handle,
                            entity := entity, even := even, secret := share(secret.value, evenOsap, odd))]))
  {
    FreeIsFirst(st.sessions, 0);
    OneFirst(st.sessions, i, FreeFrom(st.sessions, 0));
    match OsapTarget(entity, value) {
      case Entity(h) => assert Entitles(entity, value, h);
      case _ =>
    }
  }

  /** What a TPM_OSAP that opens no session leaves: a wiped slot if the entity has no secret, and
      else a slot in use with the fields it had. */
  lemma OsapRefuses(st: State, share: Sharing, entity: nat, value: nat, secret: Option<nat>, odd: Nonce,
                    even: Nonce, evenOsap: Nonce, i: nat)
    requires Sized(st)
    ensures var (now, r) := Osap(st, share, entity, value, secret, odd, even, evenOsap);
      var early := !exists h :: Entitles(entity, value, h);
      && (Full(st.sessions) ==> now == st && r == Failed(RESOURCES))
      && (FirstFree(st.sessions, i) && !early && secret.None? ==>
            && r == Failed(BAD_PARAMETER)
            && now == st.(sessions := st.sessions[i := Session(0, 0, 0, 0, 0, 0, Rights(0, 0, 0, 0), 0)]))
      && (FirstFree(st.sessions, i) && early ==>
            var operator := entity / 0x100 % 0x100 == 0 && entity % 0x100 == 0x01;
            && r == Failed(if entity / 0x100 % 0x100 != 0 then INAPPROPRIATE_ENC
                           else if operator then BAD_HANDLE else BAD_PARAMETER)
            && now == st.(sessions := st.sessions[i := st.sessions[i].(kind := 2,
                            handle := if operator then 0x4000_0004 else st.sessions[i].handle)]))
  {
    FreeIsFirst(st.sessions, 0);
    if FirstFree(st.sessions, i) { OneFirst(st.sessions, i, FreeFrom(st.sessions, 0)); }
    match OsapTarget(entity, value) {
      case Entity(h) => assert Entitles(entity, value, h);
      case _ =>
    }
  }

  /** TPM_DSAP: the session holds what was granted, or the slot is in use with the fields it had. */
  lemma DsapOpens(st: State, share: Sharing, entity: nat, d: Outcome, odd: Nonce, even: Nonce, evenDsap: Nonce, i: nat)
    requires Sized(st)
    ensures var (now, r) := Dsap(st, share, entity, d, odd, even, evenDsap);
      && (Full(st.sessions) ==> now == st && r == Failed(RESOURCES))
      && (FirstFree(st.sessions, i) && d.Refused? ==>
            r == Failed(REFUSED) && now == st.(sessions := st.sessions[i := st.sessions[i].(kind := 16)]))
      && (FirstFree(st.sessions, i) && d.Accepted? ==>
            && r == Opened(0x0200_0000 + i)
            && now == st.(sessions := st.sessions[i := st.sessions[i].(kind := 16, handle := d.handle,
                            rights := d.rights, entity := entity, even := even,
                            secret := share(d.secret, evenDsap, odd))]))
  {
    FreeIsFirst(st.sessions, 0);
    if FirstFree(st.sessions, i) { OneFirst(st.sessions, i, FreeFrom(st.sessions, 0)); }
  }

  // ---- authorization

  /** What a session asks of a command on an entity: the handle it is bound to, rights of the owner
      or of a key that include the command, and the digest under the right secret. */
  predicate Meets(keyed: Keyed, permits: Permits, s: Session, a: Auth, secret: nat, handle: nat) {
    && (s.kind in {2, 16} ==> s.handle == handle)
    && (s.kind == 16 ==> s.rights.kind in {1, 2} && permits(s.rights, a.ordinal))
    && a.mac == keyed(if s.kind == 1 then secret else if s.kind == 4 then s.transport else s.secret,
                      a.digest, s.even, a.odd, a.continued)
  }

  /** `tpm_verify_auth` succeeds exactly on a handle that names a session whose demands are met; it
      rolls the even nonce and touches no other slot. */
  lemma AuthorizesExactly(st: State, keyed: Keyed, permits: Permits, a: Auth, secret: nat, handle: nat, next: Nonce,
                          i: nat)
    requires Sized(st) && (Names(st, a.handle, 2, i) || Names(st, a.handle, 4, i))
    ensures var (now, r) := Verify(st, keyed, permits, a, secret, handle, next); var s := st.sessions[i];
      && (r.Authorized? <==> Meets(keyed, permits, s, a, secret, handle))
      && (r.Authorized? ==>
            && r.even == s.even
            && now == st.(sessions := st.sessions[i := s.(last := s.even, even := next,
                 secret := if s.kind == 1 then secret else if s.kind == 4 then s.transport else s.secret)]))
  {
    NamedSlots(st, a.handle, i);
  }

  /** Why an authorization fails, and what is left: at most the secret of the session changes. */
  lemma AuthorizationFails(st: State, keyed: Keyed, permits: Permits, a: Auth, secret: nat, handle: nat, next: Nonce)
    requires Sized(st) && !Verify(st, keyed, permits, a, secret, handle, next).1.Authorized?
    ensures var (now, r) := Verify(st, keyed, permits, a, secret, handle, next); var i := a.handle % 0x100_0000;
      var found := Names(st, a.handle, 2, i) || Names(st, a.handle, 4, i);
      && (r == Failed(INVALID_AUTHHANDLE) <==> !found)
      && (r == Failed(DISABLED_CMD) <==>
            && found && var s := st.sessions[i];
            s.kind == 16 && s.handle == handle && s.rights.kind in {1, 2} && !permits(s.rights, a.ordinal))
      && (r != Failed(INVALID_AUTHHANDLE) && r != Failed(DISABLED_CMD) ==> r == Failed(AUTHFAIL))
      && (!found ==> now == st)
      && (found ==>
            var s := st.sessions[i];
            now == st || now == st.(sessions := st.sessions[i := s.(secret :=
                            if s.kind == 1 then secret else if s.kind == 4 then s.transport else s.secret)]))
  {
    var i := a.handle % 0x100_0000;
    NamedSlots(st, a.handle, i);
    match AuthSlot(st, a.handle) { case Some(j) => NamedSlots(st, a.handle, j); case None => }
    match TransportSlot(st, a.handle) { case Some(j) => NamedSlots(st, a.handle, j); case None => }
    if i < 4 { assert st.sessions[i := st.sessions[i]] == st.sessions; }
  }

  // ---- a session stays what it was opened as

  /** The same session with a rolled nonce: an OSAP session keeps its secret as well. */
  predicate Continues(s: Session, t: Session) {
    && t.kind == s.kind && t.handle == s.handle && t.entity == s.entity && t.rights == s.rights
    && t.transport == s.transport && (s.kind in {2, 16} ==> t.secret == s.secret)
  }

  /** No command turns a live session into another one: it ends or continues. */
  lemma SessionContinues(c: Setting, w: World, e: Event, i: nat)
    requires SizedWorld(w) && i < 4 && w.st.sessions[i].kind != 0 && Step(c, w, e).st.sessions[i].kind != 0
    ensures Continues(w.st.sessions[i], Step(c, w, e).st.sessions[i])
  {
    if e.SaveContext? && Source(w.st, e.handle, e.resource).Some? { Moved(w.st, e.handle, e.resource, i); }
  }

  lemma Moved(st: State, h: nat, resource: nat, i: nat)
    requires Sized(st) && Source(st, h, resource).Some? && i < 4
    ensures var now := Evicted(st, h, resource).sessions[i]; now == st.sessions[i] || now == st.sessions[i].(kind := 0)
  {}

  /** Slot `i` is in use all along. */
  ghost predicate Stays(c: Setting, w: World, events: seq<Event>, i: nat)
    requires SizedWorld(w) && i < 4
  {
    forall n :: 0 <= n <= |events| ==> Run(c, w, events[..n]).st.sessions[i].kind != 0
  }

  lemma {:induction false} RunContinues(c: Setting, w: World, events: seq<Event>, i: nat)
    requires SizedWorld(w) && i < 4 && Stays(c, w, events, i)
    ensures Continues(w.st.sessions[i], Run(c, w, events).st.sessions[i])
  {
    if events == [] {
    } else {
      var m := |events| - 1;
      forall n | 0 <= n <= m ensures Run(c, w, events[..m][..n]).st.sessions[i].kind != 0 {
        assert events[..m][..n] == events[..n];
      }
      RunContinues(c, w, events[..m], i);
      RunLast(c, w, events);
      assert events[..m + 1] == events;
      SessionContinues(c, Run(c, w, events[..m]), events[m], i);
    }
  }

  /** From its opening to its end, whatever commands come between, an OSAP session authorizes the
      commands on its own entity that carry the digest under the shared secret, and no others. An
      owner session so serves KH_OWNER only, and an SRK session KH_SRK. */
  lemma OsapServesEntity(c: Setting, w: World, entity: nat, value: nat, secret: nat, odd: Nonce, even: Nonce,
                         evenOsap: Nonce, i: nat, bound: nat, start: World, events: seq<Event>, a: Auth,
                         given: nat, handle: nat, next: Nonce)
    requires SizedWorld(w) && FirstFree(w.st.sessions, i) && Entitles(entity, value, bound)
    requires start == Step(c, w, Event.OpenOsap(entity, value, Some(secret), odd, even, evenOsap))
    requires Stays(c, start, events, i) && a.handle == 0x0200_0000 + i
    ensures var st := Run(c, start, events).st;
      Verify(st, c.keyed, c.permits, a, given, handle, next).1.Authorized? <==>
        handle == bound
        && a.mac == c.keyed(c.share(secret, evenOsap, odd), a.digest, st.sessions[i].even, a.odd, a.continued)
  {
    OsapOpens(w.st, c.share, entity, value, Some(secret), odd, even, evenOsap, i, bound);
    RunContinues(c, start, events, i);
    assert events[..|events|] == events;
    AuthorizesExactly(Run(c, start, events).st, c.keyed, c.permits, a, given, handle, next, i);
  }

  /** So does a DSAP session for the commands that its rights include. */
  lemma DsapServesGrant(c: Setting, w: World, entity: nat, d: Outcome, odd: Nonce, even: Nonce, evenDsap: Nonce,
                        i: nat, start: World, events: seq<Event>, a: Auth, given: nat, handle: nat, next: Nonce)
    requires SizedWorld(w) && FirstFree(w.st.sessions, i) && d.Accepted?
    requires start == Step(c, w, Event.OpenDsap(entity, d, odd, even, evenDsap))
    requires Stays(c, start, events, i) && a.handle == 0x0200_0000 + i
    ensures var st := Run(c, start, events).st;
      Verify(st, c.keyed, c.permits, a, given, handle, next).1.Authorized? <==>
        handle == d.handle && d.rights.kind in {1, 2} && c.permits(d.rights, a.ordinal)
        && a.mac == c.keyed(c.share(d.secret, evenDsap, odd), a.digest, st.sessions[i].even, a.odd, a.continued)
  {
    DsapOpens(w.st, c.share, entity, d, odd, even, evenDsap, i);
    RunContinues(c, start, events, i);
    assert events[..|events|] == events;
    AuthorizesExactly(Run(c, start, events).st, c.keyed, c.permits, a, given, handle, next, i);
  }

  // ---- what goes with a key or a DAA session

  /** Every OSAP, DSAP and transport session on the handle is wiped, and nothing else changes. */
  predicate Released(before: seq<Session>, now: seq<Session>, h: nat) {
    && |now| == |before|
    && forall i :: 0 <= i < |before| ==>
         now[i] == if (before[i].kind == 2 || before[i].kind == 16 || before[i].kind == 4) && before[i].handle == h
                   then Session(0, 0, 0, 0, 0, 0, Rights(0, 0, 0, 0), 0) else before[i]
  }

  lemma InvalidatedReleases(s: seq<Session>, h: nat)
    ensures Released(s, Invalidated(s, h), h)
    ensures forall i :: 0 <= i < |s| && Invalidated(s, h)[i].kind in {2, 4, 16} ==> Invalidated(s, h)[i].handle != h
  {}

  /** `tpm_get_key` finds a key: the SRK, or one of ten key slots in use. */
  predicate KeyThere(keys: Keys, h: nat) {
    (h == 0x4000_0000 && keys.srk) || (0x0100_0000 <= h < 0x0100_000A && h - 0x0100_0000 in keys.used)
  }

  lemma KeysThere(keys: Keys, h: nat)
    ensures HasKey(keys, h) <==> KeyThere(keys, h)
  {
    assert h == 0x100_0000 * (h / 0x100_0000) + h % 0x100_0000;
  }

  /** TPM_FlushSpecific for keys and DAA sessions. */
  lemma FlushReleases(st: State, h: nat, resource: nat, keys: Keys)
    requires Sized(st) && resource in {1, 8}
    ensures var (now, r) := Flush(st, h, resource, keys);
      var key := resource == 1 && KeyThere(keys, h);
      var daa := resource == 8 && h == 0x0800_0000 && st.daa[0].kind == 8;
      && r == (if key && h in keys.controlled then Failed(KEY_OWNER_CONTROL)
               else if key && h == 0x4000_0000 then Failed(FAIL) else Done)
      && (daa || (key && r == Done) ==> Released(st.sessions, now.sessions, h))
      && (key || resource == 1 ==> now == st.(sessions := now.sessions))
      && (daa ==> now == st.(sessions := now.sessions, daa := [DaaSession(0, 0, 0)],
                             current := if h == st.current then 0 else st.current))
      && (!daa && !(key && r == Done) ==> now == st)
  {
    KeysThere(keys, h);
    NamedSlots(st, h, 0);
    match DaaSlot(st, h) { case Some(j) => NamedSlots(st, h, j); case None => }
    InvalidatedReleases(st.sessions, h);
  }

  /** TPM_FlushSpecific for contexts and sessions, and for what it does not know. */
  lemma FlushDrops(st: State, h: nat, resource: nat, keys: Keys, i: nat)
    requires Sized(st) && resource !in {1, 8}
    ensures var (now, r) := Flush(st, h, resource, keys);
      && r == (if resource in {2, 4, 5} then Done else Failed(INVALID_RESOURCE))
      && (resource in {2, 4} && Names(st, h, resource, i) ==>
            now == st.(sessions := st.sessions[i := Session(0, 0, 0, 0, 0, 0, Rights(0, 0, 0, 0), 0)]))
      && (resource in {2, 4} && !Names(st, h, resource, h % 0x100_0000) ==> now == st)
      && (resource == 5 && h !in st.list ==> now == st)
      && (resource == 5 && i < 16 && st.list[i] == h && (forall j :: 0 <= j < i ==> st.list[j] != h) ==>
            now == st.(list := st.list[i := 0]))
      && (resource !in {2, 4, 5} ==> now == st)
  {
    NamedSlots(st, h, i);
    NamedSlots(st, h, h % 0x100_0000);
    var k := FindFrom(st.list, h, 0);
    if resource == 5 && k < 16 { assert st.list[k] == h; }
  }

  // ---- saved contexts

  /** The session or DAA session that a save names. */
  predicate Saves(st: State, h: nat, resource: nat, i: nat)
    requires Sized(st)
  {
    (resource in {2, 4} && Names(st, h, resource, i))
    || (resource == 8 && i == 0 && h == 0x0800_0000 && st.daa[0].kind == 8)
  }

  /** TPM_SaveContext: the blob carries the data under the count after the next, which takes the
      first free place of the list; a session keeps all but its type, a DAA session nothing. */
  lemma SavesExactly(st: State, h: nat, resource: nat, name: nat, iv: nat, i: nat, k: nat)
    requires Sized(st) && Saves(st, h, resource, i)
    ensures var (now, r) := Save(st, h, resource, name, iv);
      && (r.Issued? <==> st.count < 0xffff_fffc && 0 in st.list)
      && (st.count >= 0xffff_fffc ==> r == Failed(TOOMANYCONTEXTS) && now == st)
      && (st.count < 0xffff_fffc && 0 !in st.list ==>
            r == Failed(NOCONTEXTSPACE) && now == st.(count := st.count + 1))
      && (r.Issued? && k < 16 && st.list[k] == 0 && (forall j :: 0 <= j < k ==> st.list[j] != 0) ==>
            && r.blob == Blob(resource, h, name, st.count + 2, iv, st.nonce,
                              if resource == 8 then OfDaa(st.daa[0]) else OfSession(st.sessions[i]))
            && now.count == st.count + 2 && now.list == st.list[k := st.count + 2] && now.nonce == st.nonce
            && (resource != 8 ==>
                  && now.daa == st.daa && now.current == st.current
                  && now.sessions == st.sessions[i := st.sessions[i].(kind := 0)])
            && (resource == 8 ==> now.sessions == st.sessions && now.daa == [DaaSession(0, 0, 0)] && now.current == 0))
  {
    NamedSlots(st, h, i);
    NamedSlots(st, h, 0);
    var f := FindFrom(st.list, 0, 0);
    if f < 16 { assert st.list[f] == 0; }
  }

  lemma SavesNothing(st: State, h: nat, resource: nat, name: nat, iv: nat)
    requires Sized(st) && forall i: nat :: i < 4 ==> !Saves(st, h, resource, i)
    ensures Save(st, h, resource, name, iv) == (st, Failed(INVALID_RESOURCE))
  {
    assert !Saves(st, h, resource, 0);
    var auth, transport, daa := AuthSlot(st, h), TransportSlot(st, h), DaaSlot(st, h);
    if auth.Some? {
      NamedSlots(st, h, auth.value);
      assert !Saves(st, h, resource, auth.value);
    }
    if transport.Some? {
      NamedSlots(st, h, transport.value);
      assert !Saves(st, h, resource, transport.value);
    }
    if daa.Some? { NamedSlots(st, h, daa.value); }
  }

  /** The slot asked for is usable for a session. */
  predicate Suits(st: State, h: nat)
    requires Sized(st)
  {
    h != 0xffff_ffff && h % 0x100_0000 < 4 && st.sessions[h % 0x100_0000].kind == 0
  }

  /** The blob passes the checks before a slot is looked for. */
  predicate Passes(st: State, genuine: bool, b: Blob, keys: Keys) {
    && genuine && b.nonce == st.nonce && b.count in st.list
    && (b.saved.OfSession? && b.saved.session.kind == 2 ==> KeyThere(keys, b.saved.session.handle))
  }

  /** TPM_LoadContext of a session: it takes the slot asked for if that is free, else the first free
      one unless the handle has to be kept, and the list entry of the blob is cleared. */
  lemma LoadsSession(st: State, genuine: bool, h: nat, keep: bool, b: Blob, keys: Keys, residue: (Rights, nat),
                     e: nat, i: nat)
    requires Sized(st) && Passes(st, genuine, b, keys) && b.saved.OfSession?
    requires e < 16 && st.list[e] == b.count && forall j :: 0 <= j < e ==> st.list[j] != b.count
    ensures var (now, r) := Load(st, genuine, h, keep, b, keys, residue); var s := b.saved.session;
      var back := s.(rights := if s.kind == 16 then s.rights else residue.0,
                     transport := if s.kind == 4 then s.transport else residue.1);
      var t := st.(list := st.list[e := 0]);
      && (Suits(st, h) ==> r == Loaded(h) && now == t.(sessions := t.sessions[h % 0x100_0000 := back]))
      && (!Suits(st, h) && keep ==> r == Failed(BAD_HANDLE) && now == t)
      && (!Suits(st, h) && !keep && Full(st.sessions) ==> r == Failed(RESOURCES) && now == t)
      && (!Suits(st, h) && !keep && FirstFree(st.sessions, i) ==>
            && r == Loaded((if s.kind == 4 then 0x0400_0000 else 0x0200_0000) + i)
            && now == t.(sessions := t.sessions[i := back]))
  {
    if b.saved.session.kind == 2 { KeysThere(keys, b.saved.session.handle); }
    FreeIsFirst(st.sessions, 0);
    if FirstFree(st.sessions, i) { OneFirst(st.sessions, i, FreeFrom(st.sessions, 0)); }
    assert st.list[FindFrom(st.list, b.count, 0)] == b.count;
  }

  /** The same for a DAA session, which also becomes the current one. */
  lemma LoadsDaa(st: State, genuine: bool, h: nat, keep: bool, b: Blob, keys: Keys, residue: (Rights, nat), e: nat)
    requires Sized(st) && Passes(st, genuine, b, keys) && b.saved.OfDaa?
    requires e < 16 && st.list[e] == b.count && forall j :: 0 <= j < e ==> st.list[j] != b.count
    ensures var (now, r) := Load(st, genuine, h, keep, b, keys, residue); var t := st.(list := st.list[e := 0]);
      var free := st.daa[0].kind == 0;
      if free && (h == 0x0800_0000 || !keep) then
        r == Loaded(0x0800_0000) && now == t.(daa := [b.saved.daa], current := 0x0800_0000)
      else r == Failed(if keep then BAD_HANDLE else RESOURCES) && now == t
  {
    assert h == 0x100_0000 * (h / 0x100_0000) + h % 0x100_0000;
    assert st.list[FindFrom(st.list, b.count, 0)] == b.count;
  }

  /** A blob that does not pass changes nothing. */
  lemma LoadsNothing(st: State, genuine: bool, h: nat, keep: bool, b: Blob, keys: Keys, residue: (Rights, nat))
    requires Sized(st) && !Passes(st, genuine, b, keys)
    ensures var missing := b.saved.OfSession? && b.saved.session.kind == 2 && !KeyThere(keys, b.saved.session.handle);
      Load(st, genuine, h, keep, b, keys, residue) ==
        (st, Failed(if genuine && b.nonce == st.nonce && missing then RESOURCEMISSING else BADCONTEXT))
  {
    if b.saved.OfSession? { KeysThere(keys, b.saved.session.handle); }
    var f := FindFrom(st.list, b.count, 0);
    if f < 16 { assert st.list[f] == b.count; }
  }

  /** The clear branch of TPM_Startup ends every session and forgets every blob. */
  lemma StartupEndsAll(nonce: Nonce, i: nat)
    ensures var st := Cleared(nonce);
      && |st.sessions| == 4 && |st.daa| == 1 && |st.list| == 16 && st.count == 0 && st.current == 0
      && st.nonce == nonce && st.daa[0] == DaaSession(0, 0, 0)
      && (i < 4 ==> st.sessions[i] == Session(0, 0, 0, 0, 0, 0, Rights(0, 0, 0, 0), 0)) && (i < 16 ==> st.list[i] == 0)
  {}
}
