/** The session commands in the form of the source: slots, context list and counter are arrays
    and fields overwritten in place. The object carries the history of its calls, and its
    validity is the invariant of the runs, so that each command promises its caller what the
    runs guarantee. */
module SessionMachine {
  import opened Wrappers
  import opened Handles
  import Delegation
  import opened Sessions
  import opened SessionRuns
  import opened SessionLaws

  /** A session that was not there before has been opened, and nothing else has changed. */
  ghost predicate NewSession(before: State, now: State, h: nat, kind: nat, even: Nonce)
    requires Sized(before) && Sized(now)
  {
    AuthSlot(now, h).Some? &&
    var i := AuthSlot(now, h).value;
    !Live(before, i) && now.sessions[i].kind == kind && now.sessions[i].even == even
    && now == before.(sessions := before.sessions[i := now.sessions[i]])
  }

  /** The session of an authorization, if its handle names one. */
  function Addressed(st: State, h: nat): Option<nat>
    requires Sized(st)
  {
    if AuthSlot(st, h).Some? then AuthSlot(st, h) else TransportSlot(st, h)
  }

  /** The secret that a session is used with; `given` is the entity's. */
  function SecretOf(s: Session, given: nat): nat {
    if s.kind == OIAP then given else if s.kind == TRANSPORT then s.transport else s.secret
  }

  /** The handle names a session that is bound to the entity (if it is bound at all), its rights
      (if it is delegated) allow the command, and the keyed digest over its nonce is right. */
  predicate Proves(c: Setting, st: State, a: Auth, secret: nat, handle: nat)
    requires Sized(st)
  {
    Addressed(st, a.handle).Some? &&
    var s := st.sessions[Addressed(st, a.handle).value];
    && Admits(c, s, handle, a.ordinal)
    && c.keyed(SecretOf(s, secret), a.digest, s.even, a.odd, a.continued) == a.mac
  }

  /** No list entry carries the count of the blob, so it cannot be loaded. */
  predicate Unloadable(st: State, b: Blob) {
    b.nonce == st.nonce ==> b.count !in st.list
  }

  /** What a step keeps: the list and the blobs always, the nonces as long as early returns are
      innocent and authorizations are those of commands. */
  lemma Kept(c: Setting, w: World, e: Event, harmless: bool)
    requires SessionRuns.Valid(w) && Tidy(w) && (harmless ==> NoncesValid(c, w)) && Draws(w.st, e) !! w.drawn
    ensures SessionRuns.Valid(Step(c, w, e)) && Tidy(Step(c, w, e))
    ensures harmless && Innocent(c, w, e) && Called(c, e) ==> NoncesValid(c, Step(c, w, e))
  {
    StepValid(c, w, e);
    StepTidy(c, w, e);
    if harmless && Called(c, e) {
      if Revives(w.st, e) { RevivedSlot(c, w, e); } else { StepNonces(c, w, e); }
    }
  }

  /** A spent nonce can be used by nobody. */
  lemma SpentUnheld(c: Setting, w: World, x: Nonce)
    requires NoncesValid(c, w) && x in w.used
    ensures forall j :: Holds(c, w.st, j) ==> w.st.sessions[j].even != x
    ensures forall b :: Pending(c, w, b) ==> b.saved.session.even != x
  {}

  class Tpm {
    const sessions: array<Session>
    const daa: array<DaaSession>
    const list: array<nat>
    var count: nat
    var nonce: Nonce
    var current: nat
    const setting: Setting

    /** The history of the calls, and whether all early returns so far were innocent and all
        authorizations those of commands. */
    ghost var world: World
    ghost var harmless: bool

    ghost predicate Shape()
      reads this
    {
      && sessions.Length == MAX_SESSIONS && daa.Length == MAX_SESSIONS_DAA && list.Length == MAX_SESSION_LIST
    }

    function Value(): State
      reads this, sessions, daa, list
    {
      State(sessions[..], daa[..], list[..], count, nonce, current)
    }

    /** The invariant of the runs. */
    ghost predicate Valid()
      reads this, sessions, daa, list
    {
      && Shape() && world.st == Value() && SessionRuns.Valid(world) && Tidy(world)
      && (harmless ==> NoncesValid(setting, world))
    }

    /** The call was the step `e` of the run. */
    ghost predicate Did(w: World, e: Event, r: Reply)
      requires SizedWorld(w)
      reads this
    {
      world == Step(setting, w, e) && r == Act(setting, w.st, w.issued, e).1
    }

    constructor (setting: Setting, first: Nonce)
      ensures Valid() && harmless && world == Start(first) && this.setting == setting
    {
      sessions := new Session[MAX_SESSIONS](_ => EMPTY);
      daa := new DaaSession[MAX_SESSIONS_DAA](_ => EMPTY_DAA);
      list := new nat[MAX_SESSION_LIST](_ => 0);
      count, nonce, current := 0, first, 0;
      this.setting := setting;
      world, harmless := Start(first), true;
      new;
      assert sessions[..] == Cleared(first).sessions;
      assert daa[..] == Cleared(first).daa;
      assert list[..] == Cleared(first).list;
      LoadedOnce(setting, first, []);
      AuthorizedOnce(setting, first, []);
    }

    /** The history moves on by one step. */
    ghost method Log(e: Event)
      requires Shape() && SessionRuns.Valid(world) && Tidy(world) && (harmless ==> NoncesValid(setting, world))
      requires Draws(world.st, e) !! world.drawn && Act(setting, world.st, world.issued, e).0 == Value()
      modifies this`world, this`harmless
      ensures Valid() && world == Step(setting, old(world), e)
      ensures harmless == (old(harmless) && Innocent(setting, old(world), e) && Called(setting, e))
    {
      Kept(setting, world, e, harmless);
      harmless := harmless && Innocent(setting, world, e) && Called(setting, e);
      world := Step(setting, world, e);
    }

    // ---- loops

    /** The search of `tpm_get_free_session`. */
    method FindFree() returns (i: nat)
      requires Shape()
      ensures i == FreeFrom(sessions[..], 0)
    {
      i := 0;
      while i < MAX_SESSIONS && sessions[i].kind != INVALID
        invariant 0 <= i <= MAX_SESSIONS && FreeFrom(sessions[..], 0) == FreeFrom(sessions[..], i)
      {
        i := i + 1;
      }
    }

    method FindFreeDaa() returns (i: nat)
      requires Shape()
      ensures i == FreeDaaFrom(daa[..], 0)
    {
      i := 0;
      while i < MAX_SESSIONS_DAA && daa[i].kind != INVALID
        invariant 0 <= i <= MAX_SESSIONS_DAA && FreeDaaFrom(daa[..], 0) == FreeDaaFrom(daa[..], i)
      {
        i := i + 1;
      }
    }

    /** The searches of the context list. */
    method FindEntry(c: nat) returns (i: nat)
      requires Shape()
      ensures i == FindFrom(list[..], c, 0)
    {
      i := 0;
      while i < MAX_SESSION_LIST && list[i] != c
        invariant 0 <= i <= MAX_SESSION_LIST && FindFrom(list[..], c, 0) == FindFrom(list[..], c, i)
      {
        i := i + 1;
      }
    }

    /** `tpm_invalidate_sessions`: every OSAP, DSAP and transport session on the handle is wiped,
        and every other slot stays as it was. */
    method InvalidateSessions(handle: nat)
      requires Shape()
      modifies sessions
      ensures sessions[..] == Invalidated(old(sessions[..]), handle)
      ensures forall i :: 0 <= i < MAX_SESSIONS ==>
        if old(sessions[..])[i].kind in {2, 16, 4} && old(sessions[..])[i].handle == handle
        then sessions[i] == Session(0, 0, 0, 0, 0, 0, Rights(0, 0, 0, 0), 0)
        else sessions[i] == old(sessions[..])[i]
    {
      ghost var before := sessions[..];
      var i := 0;
      while i < MAX_SESSIONS
        invariant 0 <= i <= MAX_SESSIONS
        invariant forall j :: 0 <= j < i ==> sessions[j] == Invalidated(before, handle)[j]
        invariant forall j :: i <= j < MAX_SESSIONS ==> sessions[j] == before[j]
      {
        if (sessions[i].kind == OSAP && sessions[i].handle == handle)
           || (sessions[i].kind == DSAP && sessions[i].handle == handle)
           || (sessions[i].kind == TRANSPORT && sessions[i].handle == handle)
        {
          sessions[i] := EMPTY;
        }
        i := i + 1;
      }
    }

    method SetSlot(i: nat, s: Session)
      requires Shape() && i < MAX_SESSIONS
      modifies sessions
      ensures Value() == Put(old(Value()), i, s)
    {
      sessions[i] := s;
    }

    // ---- opening sessions

    /** A free slot gets the fresh nonce, which nobody else holds. */
    method OpenOiap(even: Nonce) returns (r: Reply)
      requires Valid() && even !in world.drawn
      modifies this`world, this`harmless, sessions
      ensures Valid() && Did(old(world), Event.OpenOiap(even), r) && harmless == old(harmless)
      ensures r.Opened? ==> NewSession(old(world).st, Value(), r.handle, OIAP, even)
      ensures !r.Opened? ==> Value() == old(world).st && forall i :: 0 <= i < MAX_SESSIONS ==> Live(Value(), i)
    {
      ghost var e := Event.OpenOiap(even);
      var i := FindFree();
      if i == MAX_SESSIONS {
        Log(e);
        return Failed(RESOURCES);
      }
      SetSlot(i, sessions[i].(kind := OIAP, even := even));
      Log(e);
      r := Opened(HandleOf(RT_AUTH, i));
      HandleNames(i);
    }

    /** A completed call opens a session bound to the entity, with a fresh nonce and the shared
        secret; an early return leaves a slot in use with the nonce it held before, and is
        harmless exactly when that session can authorize nothing or nobody else can use the
        nonce. */
    method OpenOsap(entity: nat, value: nat, secret: Option<nat>, odd: Nonce, even: Nonce, evenOsap: Nonce)
      returns (r: Reply)
      requires Valid() && Draws(Value(), Event.OpenOsap(entity, value, secret, odd, even, evenOsap)) !! world.drawn
      modifies this`world, this`harmless, sessions
      ensures Valid() && Did(old(world), Event.OpenOsap(entity, value, secret, odd, even, evenOsap), r)
      ensures r.Opened? ==>
        && NewSession(old(world).st, Value(), r.handle, OSAP, even) && harmless == old(harmless)
        && var s := sessions[AuthSlot(Value(), r.handle).value];
           s.entity == entity && s.secret == setting.share(secret.value, evenOsap, odd)
           && s.handle == if entity % 0x100 in {0x02, 0x0D} then 0x4000_0001
                          else if entity % 0x100 == 0x04 then 0x4000_0000 else value
      ensures r.Opened? <==>
        && !Full(old(sessions[..])) && secret.Some? && entity / 0x100 % 0x100 == 0
        && (entity % 0x100 in {0x02, 0x0D, 0x04, 0x0A, 0x0B} || (entity % 0x100 == 0x01 && value != 0x4000_0004))
      ensures !Full(old(sessions[..])) && (entity / 0x100 % 0x100 != 0
                || entity % 0x100 !in {0x01, 0x02, 0x04, 0x0A, 0x0B, 0x0D}
                || (entity % 0x100 == 0x01 && value == 0x4000_0004)) ==>
        && FreeFrom(old(world).st.sessions, 0) < MAX_SESSIONS && Live(Value(), FreeFrom(old(world).st.sessions, 0))
        && sessions[FreeFrom(old(world).st.sessions, 0)].even == Leftover(old(world).st)
        && harmless == (old(harmless) && (Usable(setting, sessions[FreeFrom(old(world).st.sessions, 0)]) ==>
                                            Unheld(setting, old(world), Leftover(old(world).st))))
    {
      FreeIsFirst(sessions[..], 0);
      r := Associate(entity, value, secret, odd, even, evenOsap);
      Log(Event.OpenOsap(entity, value, secret, odd, even, evenOsap));
      if r.Opened? { HandleNames(FreeFrom(old(world).st.sessions, 0)); }
    }

    /** The search for the entity and the set-up of the session, in the order of the source: the
        handle is written before the secret is looked for. */
    method Associate(entity: nat, value: nat, secret: Option<nat>, odd: Nonce, even: Nonce, evenOsap: Nonce)
      returns (r: Reply)
      requires Shape()
      modifies sessions
      ensures (Value(), r) == Osap(old(Value()), setting.share, entity, value, secret, odd, even, evenOsap)
    {
      var i := FindFree();
      if i == MAX_SESSIONS { return Failed(RESOURCES); }
      var s := sessions[i].(kind := OSAP);
      var low := entity % 0x100;
      if entity / 0x100 % 0x100 != 0 {
        SetSlot(i, s);
        return Failed(INAPPROPRIATE_ENC);
      }
      if low == 0x01 {
        s := s.(handle := value);
        if s.handle == KH_OPERATOR {
          SetSlot(i, s);
          return Failed(BAD_HANDLE);
        }
      } else if low == 0x02 || low == 0x0D {
        s := s.(handle := KH_OWNER);
      } else if low == 0x04 {
        s := s.(handle := KH_SRK);
      } else if low == 0x0A || low == 0x0B {
        s := s.(handle := value);
      } else {
        SetSlot(i, s);
        return Failed(BAD_PARAMETER);
      }
      if secret.None? {
        SetSlot(i, EMPTY);
        return Failed(BAD_PARAMETER);
      }
      s := s.(entity := entity);
      s := s.(even := even, secret := setting.share(secret.value, evenOsap, odd));
      SetSlot(i, s);
      r := Opened(HandleOf(RT_AUTH, i));
    }

    /** As TPM_OSAP, for the outcome `d` of the delegation checks. */
    method OpenDsap(entity: nat, d: Outcome, odd: Nonce, even: Nonce, evenDsap: Nonce) returns (r: Reply)
      requires Valid() && Draws(Value(), Event.OpenDsap(entity, d, odd, even, evenDsap)) !! world.drawn
      modifies this`world, this`harmless, sessions
      ensures Valid() && Did(old(world), Event.OpenDsap(entity, d, odd, even, evenDsap), r)
      ensures r.Opened? ==>
        && d.Accepted? && NewSession(old(world).st, Value(), r.handle, DSAP, even) && harmless == old(harmless)
        && var s := sessions[AuthSlot(Value(), r.handle).value];
           s.handle == d.handle && s.rights == d.rights && s.secret == setting.share(d.secret, evenDsap, odd)
      ensures r == Failed(REFUSED) ==>
        && FreeFrom(old(world).st.sessions, 0) < MAX_SESSIONS && Live(Value(), FreeFrom(old(world).st.sessions, 0))
        && sessions[FreeFrom(old(world).st.sessions, 0)].even == Leftover(old(world).st)
        && harmless == (old(harmless) && (Usable(setting, sessions[FreeFrom(old(world).st.sessions, 0)]) ==>
                                            Unheld(setting, old(world), Leftover(old(world).st))))
    {
      ghost var e := Event.OpenDsap(entity, d, odd, even, evenDsap);
      var i := FindFree();
      if i == MAX_SESSIONS {
        Log(e);
        return Failed(RESOURCES);
      }
      var s := sessions[i].(kind := DSAP);
      if d.Refused? {
        SetSlot(i, s);
        Log(e);
        return Failed(REFUSED);
      }
      s := s.(rights := d.rights, handle := d.handle, entity := entity);
      s := s.(even := even, secret := setting.share(d.secret, evenDsap, odd));
      SetSlot(i, s);
      Log(e);
      r := Opened(HandleOf(RT_AUTH, i));
      HandleNames(i);
    }

    // ---- tpm_verify_auth

    /** Authorizes exactly the commands that prove knowledge of the secret. In a harmless history
        the nonce that authorized has never done so before, and nobody can use it again. */
    method VerifyAuth(a: Auth, secret: nat, handle: nat, next: Nonce) returns (r: Reply)
      requires Valid() && next !in world.drawn
      modifies this`world, this`harmless, sessions
      ensures Valid() && Did(old(world), Event.VerifyAuth(a, secret, handle, next), r)
      ensures harmless == (old(harmless) && setting.called(handle, a.ordinal))
      ensures r.Authorized? <==> Proves(setting, old(world).st, a, secret, handle)
      ensures r.Authorized? ==> world.used == old(world.used) + [r.even]
      ensures r.Authorized? && harmless ==>
        && r.even !in old(world.used)
        && (forall j :: Holds(setting, Value(), j) ==> sessions[j].even != r.even)
        && (forall b :: Pending(setting, world, b) ==> b.saved.session.even != r.even)
    {
      ghost var e := Event.VerifyAuth(a, secret, handle, next);
      var slot := AuthSlot(Value(), a.handle);
      if slot.None? { slot := TransportSlot(Value(), a.handle); }
      if slot.None? {
        Log(e);
        return Failed(INVALID_AUTHHANDLE);
      }
      r := Check(slot.value, a, secret, handle, next);
      Log(e);
      if r.Authorized? && harmless {
        assert world.used[|old(world.used)|] == r.even;
        assert r.even !in old(world.used);
        SpentUnheld(setting, world, r.even);
      }
    }

    /** The checks on the session that was found. */
    method Check(i: nat, a: Auth, secret: nat, handle: nat, next: Nonce) returns (r: Reply)
      requires Shape() && Addressed(Value(), a.handle) == Some(i)
      modifies sessions
      ensures (Value(), r) == Verify(old(Value()), setting.keyed, setting.permits, a, secret, handle, next)
    {
      var s := sessions[i];
      if s.kind == OIAP {
        s := s.(secret := secret);
      } else if s.kind == OSAP {
        if s.handle != handle { return Failed(AUTHFAIL); }
      } else if s.kind == DSAP {
        if s.handle != handle { return Failed(AUTHFAIL); }
        if s.rights.kind == Delegation.OWNER_BITS || s.rights.kind == Delegation.KEY_BITS {
          if !setting.permits(s.rights, a.ordinal) { return Failed(DISABLED_CMD); }
        } else {
          return Failed(AUTHFAIL);
        }
      } else {
        s := s.(secret := s.transport);
      }
      if setting.keyed(s.secret, a.digest, s.even, a.odd, a.continued) != a.mac {
        SetSlot(i, s);
        r := Failed(AUTHFAIL);
      } else {
        r := Authorized(s.even);
        s := s.(last := s.even);
        s := s.(even := next);
        SetSlot(i, s);
      }
      assert old(Value()).sessions[i := old(sessions[i])] == old(Value()).sessions;
    }

    // ---- saving and loading contexts

    method Evict(h: nat, resource: nat)
      requires Shape() && Source(Value(), h, resource).Some?
      modifies this`current, sessions, daa
      ensures Value() == Evicted(old(Value()), h, resource)
    {
      if resource == RT_DAA_TPM {
        daa[Index(h)] := EMPTY_DAA;
        current := 0;
      } else {
        SetSlot(Index(h), sessions[Index(h)].(kind := INVALID));
      }
    }

    /** `TPM_SaveContext` for sessions and DAA sessions: a blob never issued before carries the
        resource away, under a count above every entry of the list. */
    method SaveContext(h: nat, resource: nat, name: nat, iv: nat) returns (r: Reply)
      requires Valid()
      modifies this, sessions, daa, list
      ensures Valid() && Did(old(world), Event.SaveContext(h, resource, name, iv), r) && harmless == old(harmless)
      ensures r.Issued? ==>
        && Source(old(world).st, h, resource) == Some(r.blob.saved) && Source(Value(), h, resource).None?
        && r.blob !in old(world.issued) && r.blob.count in list[..] && r.blob.nonce == nonce
        && (forall x :: x in old(world).st.list ==> x < r.blob.count)
      ensures r.Issued? <==> Source(old(world).st, h, resource).Some? && old(count) < 0xffff_fffc && 0 in old(list[..])
    {
      ghost var e := Event.SaveContext(h, resource, name, iv);
      SaveMeans(setting, world, e);
      r := Store(h, resource, name, iv);
      Log(e);
    }

    method Store(h: nat, resource: nat, name: nat, iv: nat) returns (r: Reply)
      requires Shape()
      modifies this`count, this`current, sessions, daa, list
      ensures (Value(), r) == Save(old(Value()), h, resource, name, iv)
    {
      var data := Source(Value(), h, resource);
      if data.None? { return Failed(INVALID_RESOURCE); }
      if count >= 0xffff_fffc { return Failed(TOOMANYCONTEXTS); }
      Evictable(Value(), h, resource);
      var i := FindEntry(0);
      count := count + 1;
      if i == MAX_SESSION_LIST { return Failed(NOCONTEXTSPACE); }
      count := count + 1;
      list[i] := count;
      r := Issued(Blob(resource, h, name, count, iv, nonce, data.value));
      Evict(h, resource);
    }

    /** `TPM_LoadContext` for sessions and DAA sessions under an ideal digest: only an issued blob
        that was never loaded before comes back, and it cannot come back again. */
    method LoadContext(genuine: bool, h: nat, keep: bool, b: Blob, keys: Keys, residue: (Rights, nat))
      returns (r: Reply)
      requires Valid() && genuine == (b in world.issued)
      modifies this, sessions, daa, list
      ensures Valid() && Did(old(world), Event.LoadContext(h, keep, b, keys, residue), r) && harmless == old(harmless)
      ensures r.Loaded? ==>
        && b in old(world.issued) && b !in old(world.loaded) && world.loaded == old(world.loaded) + [b]
        && Unloadable(Value(), b) && !KeyMissing(keys, b)
      ensures r.Loaded? && b.saved.OfSession? ==>
        exists k :: 0 <= k < MAX_SESSIONS && !Live(old(world).st, k) && SameSession(b.saved.session, sessions[k])
          && sessions[..] == old(world).st.sessions[k := sessions[k]]
    {
      ghost var e := Event.LoadContext(h, keep, b, keys, residue);
      r := Restore(genuine, h, keep, b, keys, residue);
      Log(e);
      if r.Loaded? { LoadMeans(setting, old(world), e); }
    }

    method Restore(genuine: bool, h: nat, keep: bool, b: Blob, keys: Keys, residue: (Rights, nat)) returns (r: Reply)
      requires Shape()
      modifies this`current, sessions, daa, list
      ensures (Value(), r) == Load(old(Value()), genuine, h, keep, b, keys, residue)
    {
      if !genuine || b.nonce != nonce { return Failed(BADCONTEXT); }
      if KeyMissing(keys, b) { return Failed(RESOURCEMISSING); }
      var i := FindEntry(b.count);
      if i == MAX_SESSION_LIST { return Failed(BADCONTEXT); }
      list[i] := 0;
      if b.saved.OfSession? {
        r := Reload(h, keep, b.saved.session, residue);
      } else {
        r := ReloadDaa(h, keep, b.saved.daa);
      }
    }

    method Reload(h: nat, keep: bool, s: Session, residue: (Rights, nat)) returns (r: Reply)
      requires Shape()
      modifies sessions
      ensures var st := old(Value()); var (k, handle, code) := LoadSlot(st, h, keep, s.kind);
        if k == MAX_SESSIONS then Value() == st && r == Failed(code)
        else Value() == Put(st, k, Reloaded(s, residue)) && r == Loaded(handle)
    {
      if h != INVALID_HANDLE && Index(h) < MAX_SESSIONS && sessions[Index(h)].kind == INVALID {
        SetSlot(Index(h), Reloaded(s, residue));
        r := Loaded(h);
      } else {
        if keep { return Failed(BAD_HANDLE); }
        var k := FindFree();
        if k == MAX_SESSIONS { return Failed(RESOURCES); }
        SetSlot(k, Reloaded(s, residue));
        r := Loaded(SessionHandle(s.kind, k));
      }
    }

    method ReloadDaa(h: nat, keep: bool, d: DaaSession) returns (r: Reply)
      requires Shape()
      modifies this`current, daa
      ensures var st := old(Value()); var (k, handle, code) := LoadDaaSlot(st, h, keep);
        if k == MAX_SESSIONS_DAA then Value() == st && r == Failed(code)
        else Value() == st.(daa := st.daa[k := d], current := handle) && r == Loaded(handle)
    {
      var handle, k := h, Index(h);
      if !(h != INVALID_HANDLE && Index(h) < MAX_SESSIONS_DAA && daa[Index(h)].kind == INVALID
           && Resource(h) == RT_DAA_TPM) {
        if keep { return Failed(BAD_HANDLE); }
        k := FindFreeDaa();
        if k == MAX_SESSIONS_DAA { return Failed(RESOURCES); }
        handle := HandleOf(RT_DAA_TPM, k);
      }
      current := handle;
      daa[k] := EMPTY_DAA;
      daa[k] := d;
      r := Loaded(handle);
    }

    /** `TPM_FlushSpecific`: what is named is gone, with a key or DAA session also every session
        bound to it. The SRK and keys under the owner's control stay. */
    method FlushSpecific(h: nat, resource: nat, keys: Keys) returns (r: Reply)
      requires Valid()
      modifies this, sessions, daa, list
      ensures Valid() && Did(old(world), Event.FlushSpecific(h, resource, keys), r) && harmless == old(harmless)
      ensures resource == RT_CONTEXT && h != 0 ==> h !in list[..] && sessions[..] == old(sessions[..])
      ensures resource in {RT_AUTH, RT_TRANS, RT_DAA_TPM} ==>
        Source(Value(), h, resource).None? && list[..] == old(list[..])
      ensures resource == 1 && KeyThere(keys, h) ==>
        && (r == Done <==> h !in keys.controlled && h != 0x4000_0000)
        && (r == Done ==> Released(old(sessions[..]), sessions[..], h))
      ensures resource == 8 && h == 0x0800_0000 && old(daa[0]).kind == 8 ==>
        r == Done && Released(old(sessions[..]), sessions[..], h)
      ensures (resource == 1 && (!KeyThere(keys, h) || r != Done)) || resource !in {1, 2, 4, 8} ==>
        sessions[..] == old(sessions[..])
      ensures forall i :: 0 <= i < MAX_SESSIONS && sessions[i] != old(sessions[..])[i] ==>
        sessions[i] == Session(0, 0, 0, 0, 0, 0, Rights(0, 0, 0, 0), 0)
      ensures forall i :: Live(Value(), i) ==> Live(old(world).st, i) && sessions[i] == old(world).st.sessions[i]
    {
      FlushMeans(world, h, resource, keys);
      if resource in {1, 8} { FlushReleases(Value(), h, resource, keys); }
      r := Drop(h, resource, keys);
      Log(Event.FlushSpecific(h, resource, keys));
    }

    method Drop(h: nat, resource: nat, keys: Keys) returns (r: Reply)
      requires Shape()
      modifies this`current, sessions, daa, list
      ensures (Value(), r) == Flush(old(Value()), h, resource, keys)
    {
      if resource == RT_KEY {
        if HasKey(keys, h) {
          if h in keys.controlled { return Failed(KEY_OWNER_CONTROL); }
          if h == KH_SRK { return Failed(FAIL); }
          InvalidateSessions(h);
        }
        r := Done;
      } else if resource == RT_CONTEXT {
        var i := FindEntry(h);
        if i != MAX_SESSION_LIST { list[i] := 0; }
        r := Done;
      } else if resource == RT_AUTH {
        var slot := AuthSlot(Value(), h);
        if slot.Some? { SetSlot(slot.value, EMPTY); }
        r := Done;
      } else if resource == RT_TRANS {
        var slot := TransportSlot(Value(), h);
        if slot.Some? { SetSlot(slot.value, EMPTY); }
        r := Done;
      } else if resource == RT_DAA_TPM {
        var slot := DaaSlot(Value(), h);
        if slot.Some? {
          daa[slot.value] := EMPTY_DAA;
          if h == current { current := 0; }
          InvalidateSessions(h);
        }
        r := Done;
      } else {
        r := Failed(INVALID_RESOURCE);
      }
    }

    /** `tpm_invalidate_sessions` as a step of its own. */
    method Invalidate(handle: nat)
      requires Valid()
      modifies this`world, this`harmless, sessions
      ensures Valid() && Did(old(world), Event.InvalidateSessions(handle), Done) && harmless == old(harmless)
      ensures Released(old(sessions[..]), sessions[..], handle)
    {
      InvalidateSessions(handle);
      Log(Event.InvalidateSessions(handle));
    }
  }

  lemma HandleNames(i: nat)
    requires i < MAX_SESSIONS
    ensures Index(HandleOf(RT_AUTH, i)) == i && Resource(HandleOf(RT_AUTH, i)) == RT_AUTH
  {}

  /** What a save means for the blobs and the list. */
  lemma SaveMeans(c: Setting, w: World, e: Event)
    requires SessionRuns.Valid(w) && e.SaveContext?
    ensures var (st, r) := Act(c, w.st, w.issued, e);
      && (r.Issued? <==> Source(w.st, e.handle, e.resource).Some? && w.st.count < 0xffff_fffc && 0 in w.st.list)
      && (r.Issued? ==>
            && Source(w.st, e.handle, e.resource) == Some(r.blob.saved) && Source(st, e.handle, e.resource).None?
            && r.blob !in w.issued && r.blob.count in st.list && r.blob.nonce == st.nonce
            && (forall x :: x in w.st.list ==> x < r.blob.count))
  {
    var (st, r) := Act(c, w.st, w.issued, e);
    var i := FindFrom(w.st.list, 0, 0);
    if r.Issued? { assert st.list[i] == r.blob.count; }
  }

  /** What a flush means: the resource is gone, and no session appears or changes. */
  lemma FlushMeans(w: World, h: nat, resource: nat, keys: Keys)
    requires SessionRuns.Valid(w)
    ensures var st := Flush(w.st, h, resource, keys).0;
      && (resource == RT_CONTEXT && h != 0 ==> h !in st.list && st.sessions == w.st.sessions)
      && (resource in {RT_AUTH, RT_TRANS, RT_DAA_TPM} ==> Source(st, h, resource).None? && st.list == w.st.list)
      && forall i :: Live(st, i) ==> Live(w.st, i) && st.sessions[i] == w.st.sessions[i]
  {
    var i := FindFrom(w.st.list, h, 0);
    if resource == RT_CONTEXT && i < MAX_SESSION_LIST { ClearEntry(w.st, Flush(w.st, h, resource, keys).0, i); }
  }

  /** What a load means for the blobs and the slots. */
  lemma LoadMeans(c: Setting, w: World, e: Event)
    requires SessionRuns.Valid(w) && e.LoadContext? && Act(c, w.st, w.issued, e).1.Loaded?
    ensures var st, b := Act(c, w.st, w.issued, e).0, e.blob;
      && b in w.issued && b !in w.loaded && !KeyMissing(e.keys, b) && Unloadable(st, b)
      && (b.saved.OfSession? ==>
            exists k :: 0 <= k < MAX_SESSIONS && !Live(w.st, k) && SameSession(b.saved.session, st.sessions[k])
              && st.sessions == w.st.sessions[k := st.sessions[k]])
  {
    LoadWrites(w.st, e.handle, e.keep, e.blob, e.keys, e.residue);
    var i, st := FindFrom(w.st.list, e.blob.count, 0), Act(c, w.st, w.issued, e).0;
    ClearEntry(w.st, st, i);
  }

  /** Eviction looks at the slots only. */
  lemma Evictable(st: State, h: nat, resource: nat)
    requires Sized(st) && Source(st, h, resource).Some?
    ensures forall t: State {:trigger Evicted(t, h, resource)} {:trigger Source(t, h, resource)} ::
      t.sessions == st.sessions && t.daa == st.daa && Sized(t) ==>
      Source(t, h, resource).Some? &&
      Evicted(t, h, resource) == Evicted(st, h, resource).(list := t.list, count := t.count, nonce := t.nonce,
        current := if resource == RT_DAA_TPM then 0 else t.current)
  {}
}
