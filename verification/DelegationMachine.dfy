/** The delegation commands in the form of the source: family rows, delegate rows and sessions
    are arrays scanned and overwritten in place. The object carries the history of its calls, and
    its validity is the invariant of the runs, so that each command promises its caller what the
    runs guarantee. */
module DelegationMachine {
  import opened Wrappers
  import opened Handles
  import opened Delegation
  import opened DelegationRuns

  /** Some blob issued outside delegation has the family and type of `p` and covers it. */
  ghost predicate Rooted(log: seq<Issue>, p: Public) {
    exists i :: 0 <= i < |log| && !log[i].delegated && Within(log[i].blob.pub, p)
  }

  lemma SoundRooted(w: World, j: nat)
    requires Chained(w.log) && j < |w.log|
    ensures Rooted(w.log, w.log[j].blob.pub)
  {
    var i := Ancestor(w.log, j);
  }

  /** The session in the slot has exactly the permissions of some issued blob. */
  ghost predicate Issuance(log: seq<Issue>, s: Slot) {
    exists i :: 0 <= i < |log| && SameGrant(log[i].blob.pub, Held(s))
  }

  /** A valid row with the count of its family. */
  ghost predicate UpToDate(st: State, row: Row)
    requires Sized(st)
  {
    row.valid &&
    exists k :: 0 <= k < NUM_FAMILIES && st.families[k].valid && st.families[k].id == row.pub.family
                && st.families[k].count == row.pub.count
  }

  class Tpm {
    const families: array<Family>
    const rows: array<Row>
    const slots: array<Slot>
    var last: id32

    /** The history of the calls, their number, and whether all refusals so far were harmless. */
    ghost var world: World
    ghost var steps: nat
    ghost var harmless: bool

    ghost predicate Shape()
      reads this
    {
      families.Length == NUM_FAMILIES && rows.Length == NUM_ROWS && slots.Length == NUM_SESSIONS
    }

    function Value(): State
      reads this, families, rows, slots
    {
      State(families[..], rows[..], slots[..], last)
    }

    /** Family IDs and verification counts have not wrapped. */
    ghost predicate Early()
      reads this
    {
      steps + 2 < TWO32
    }

    /** The invariant of the runs. */
    ghost predicate Valid()
      reads this, families, rows, slots
    {
      && Shape() && world.st == Value() && (harmless ==> Sound(world, true))
      && (steps + 1 < TWO32 ==> FamiliesValid(world.st, steps))
    }

    /** The call was the step `e` of the run. */
    ghost predicate Did(w: World, e: Event, r: Reply)
      requires Sized(w.st)
      reads this
    {
      world == Step(w, e) && r == Act(w, e).1
    }

    constructor ()
      ensures Valid() && harmless && steps == 0 && world == Run([])
    {
      families := new Family[NUM_FAMILIES](_ => NO_FAMILY);
      rows := new Row[NUM_ROWS](_ => Row(false, Public(0, 0, 0, 0, 0, 0), 0));
      slots := new Slot[NUM_SESSIONS](_ => NO_SLOT);
      last := 0;
      world, steps, harmless := Run([]), 0, true;
      new;
      assert families[..] == Initial().families && rows[..] == Initial().rows && slots[..] == Initial().slots;
      RunSound([], true);
      RunFamilies([]);
    }

    /** The history moves on by one step. */
    ghost method Log(e: Event)
      requires Shape() && Sized(world.st) && (harmless ==> Sound(world, true))
      requires steps + 1 < TWO32 ==> FamiliesValid(world.st, steps)
      requires Act(world, e).0 == Value()
      modifies this`world, this`steps, this`harmless
      ensures Valid() && world == Step(old(world), e) && steps == old(steps) + 1
      ensures harmless == (old(harmless) && Innocent(old(world), e, true))
    {
      harmless := harmless && Innocent(world, e, true);
      if harmless { SoundStep(world, e, true); }
      if steps + 2 < TWO32 { FamilyStep(world, e, steps); }
      world, steps := Step(world, e), steps + 1;
    }

    // ---- scans

    /** `tpm_get_family_row`. */
    method FindFamily(id: nat) returns (i: nat)
      requires Shape()
      ensures i == FamilyRow(Value(), id)
    {
      i := 0;
      while i < NUM_FAMILIES && !(families[i].valid && families[i].id == id)
        invariant 0 <= i <= NUM_FAMILIES && FamilyFrom(families[..], id, 0) == FamilyFrom(families[..], id, i)
      {
        i := i + 1;
      }
    }

    /** `tpm_get_free_family_row`. */
    method FindFreeFamily() returns (i: nat)
      requires Shape()
      ensures i == FreeFamilyFrom(families[..], 0)
    {
      i := 0;
      while i < NUM_FAMILIES && families[i].valid
        invariant 0 <= i <= NUM_FAMILIES && FreeFamilyFrom(families[..], 0) == FreeFamilyFrom(families[..], i)
      {
        i := i + 1;
      }
    }

    method FindFreeSlot() returns (i: nat)
      requires Shape()
      ensures i == FreeSlotFrom(slots[..], 0)
    {
      i := 0;
      while i < NUM_SESSIONS && slots[i].kind != INVALID
        invariant 0 <= i <= NUM_SESSIONS && FreeSlotFrom(slots[..], 0) == FreeSlotFrom(slots[..], i)
      {
        i := i + 1;
      }
    }

    /** The loop that invalidates all but one session. */
    method KeepOnly(k: nat)
      requires Shape()
      modifies slots
      ensures slots[..] == OnlySlot(old(slots[..]), k)
    {
      ghost var before := slots[..];
      var i := 0;
      while i < NUM_SESSIONS
        invariant 0 <= i <= NUM_SESSIONS
        invariant forall j :: 0 <= j < i ==> slots[j] == OnlySlot(before, k)[j]
        invariant forall j :: i <= j < NUM_SESSIONS ==> slots[j] == before[j]
      {
        if slots[i].kind != TRANSPORT && i != k { slots[i] := NO_SLOT; }
        i := i + 1;
      }
    }

    // ---- sessions

    /** TPM_OIAP or TPM_OSAP: a free slot becomes a session that is not delegated. */
    method OpenSession(osap: bool, handle: nat) returns (r: Reply)
      requires Valid()
      modifies this`world, this`steps, this`harmless, slots
      ensures Valid() && Did(old(world), Event.OpenSession(osap, handle), r) && harmless == old(harmless)
      ensures r.Opened? ==>
        && r.slot < NUM_SESSIONS && old(slots[..])[r.slot].kind == INVALID && slots[r.slot].kind in {OIAP, OSAP}
        && slots[..] == old(slots[..])[r.slot := slots[r.slot]]
      ensures !r.Opened? ==> Value() == old(world).st
    {
      var i := FindFreeSlot();
      if i == NUM_SESSIONS {
        Log(Event.OpenSession(osap, handle));
        return Failed(RESOURCES);
      }
      var s := slots[i].(kind := if osap then OSAP else OIAP);
      if osap { s := s.(handle := handle); }
      slots[i] := s;
      Log(Event.OpenSession(osap, handle));
      r := Opened(i);
    }

    method CheckFamily(pub: Public) returns (r: Option<Code>)
      requires Shape()
      ensures r == FamilyRefuses(Value(), pub)
    {
      var k := FindFamily(pub.family);
      if k == NUM_FAMILIES { return Some(BADINDEX); }
      if !families[k].enabled { return Some(DISABLED_CMD); }
      if families[k].count != pub.count { return Some(FAIL); }
      r := None;
    }

    method CheckClaim(c: Claim) returns (g: Grant)
      requires Shape()
      ensures g == Grants(Value(), c)
    {
      match c {
        case ByOwnerBlob(b, genuine) =>
          if !b.OwnerBlob? { return Refused(BAD_PARAMETER); }
          if !genuine { return Refused(AUTHFAIL); }
          var code := CheckFamily(b.pub);
          g := if code.Some? then Refused(code.value) else Granted(b.pub, KH_OWNER);
        case ByRow(index, handle) =>
          if index >= NUM_ROWS || !rows[index].valid { return Refused(BADINDEX); }
          var code := CheckFamily(rows[index].pub);
          g := if code.Some? then Refused(code.value) else Granted(rows[index].pub, handle);
        case ByKeyBlob(b, genuine, handle, key) =>
          if !b.KeyBlob? { return Refused(BAD_PARAMETER); }
          if !genuine { return Refused(AUTHFAIL); }
          if KeyAt(handle, key) != Some(b.key) { return Refused(KEYNOTFOUND); }
          var code := CheckFamily(b.pub);
          g := if code.Some? then Refused(code.value) else Granted(b.pub, handle);
      }
    }

    /** `TPM_DSAP` under an ideal digest: a session is opened with exactly the permissions of some
        issued blob, whose family is there and whose count has not been passed; a refusal leaves a
        slot typed as delegated, and is harmless exactly when its old contents are backed or could
        create no delegation. */
    method OpenDsap(c: Claim) returns (r: Reply)
      requires Valid() && c == Checked(world.log, c)
      modifies this`world, this`steps, this`harmless, slots
      ensures Valid() && Did(old(world), Event.OpenDsap(c), r)
      ensures r.Opened? ==> r.slot < NUM_SESSIONS && slots[r.slot].kind == DSAP && harmless == old(harmless)
      ensures r.Opened? && harmless ==> Issuance(world.log, slots[r.slot])
      ensures r.Opened? ==> !Gone(Value(), slots[r.slot].family)
      ensures r.Opened? && !c.ByRow? ==>
        InLog(world.log, c.blob) && !Revoked(Value(), c.blob.pub.family, c.blob.pub.count)
      ensures !r.Opened? && r != Failed(RESOURCES) ==>
        && FreeSlotFrom(old(world).st.slots, 0) < NUM_SESSIONS
        && harmless == (old(harmless) && (Creator(Leftover(old(world).st)) ==>
                                            Backed(old(world).log, Leftover(old(world).st))))
    {
      if Grants(world.st, c).Granted? {
        GrantMeans(world, c);
        if harmless { GrantSound(world, c); }
      }
      r := Open(c);
      Log(Event.OpenDsap(c));
      if r.Opened? && harmless {
        ghost var pub := Grants(old(world).st, c).pub;
        ghost var j :| 0 <= j < |world.log| && SameGrant(world.log[j].blob.pub, pub);
        assert SameGrant(world.log[j].blob.pub, Held(slots[r.slot]));
      }
    }

    method Open(c: Claim) returns (r: Reply)
      requires Shape()
      modifies slots
      ensures (Value(), r) == Dsap(old(Value()), c)
    {
      var i := FindFreeSlot();
      if i == NUM_SESSIONS { return Failed(RESOURCES); }
      var g := CheckClaim(c);
      ghost var before := slots[..];
      var s := slots[i].(kind := DSAP);
      slots[i] := s;
      if g.Refused? {
        assert slots[..] == before[i := s];
        return Failed(g.code);
      }
      s := s.(per1 := g.pub.per1, per2 := g.pub.per2, delegated := g.pub.kind);
      s := s.(handle := g.handle, family := g.pub.family);
      slots[i] := s;
      assert slots[..] == before[i := s];
      r := Opened(i);
    }

    // ---- TPM_Delegate_Manage

    method Perform(k: nat, op: Operation, sized: bool) returns (r: Reply)
      requires Shape() && k <= NUM_FAMILIES && (!op.CREATE? ==> k < NUM_FAMILIES)
      modifies this`last, families
      ensures (Value(), r) == Operate(old(Value()), k, op, sized)
    {
      match op {
        case CREATE(name) =>
          if !sized { return Failed(BAD_PARAM_SIZE); }
          var free := FindFreeFamily();
          if free == NUM_FAMILIES { return Failed(NOSPACE); }
          last := (last + 1) % TWO32;
          families[free] := Family(true, last, name, 1, false, false);
          r := Created(last);
        case ADMIN(on) =>
          if !sized { return Failed(BAD_PARAM_SIZE); }
          families[k] := families[k].(locked := on);
          r := Done;
        case ENABLE(on) =>
          if !sized { return Failed(BAD_PARAM_SIZE); }
          families[k] := families[k].(enabled := on);
          r := Done;
        case INVALIDATE =>
          families[k] := NO_FAMILY;
          r := Done;
        case UNKNOWN => r := Failed(BAD_PARAMETER);
      }
    }

    /** A new family gets an ID that no family had; an invalidated one is gone; enabling and
        locking change the named row only. A command that gets past its checks wipes all sessions
        but its own and transport sessions. */
    method DelegateManage(i: nat, proof: bool, id: nat, op: Operation, sized: bool) returns (r: Reply)
      requires Valid()
      modifies this, families, slots
      ensures Valid() && Did(old(world), Event.DelegateManage(i, proof, id, op, sized), r) && harmless == old(harmless)
      ensures r.Created? && old(Early()) ==>
        && old(world).st.last < r.family == last
        && (forall k :: 0 <= k < NUM_FAMILIES && old(world).st.families[k].valid ==>
              old(world).st.families[k].id < r.family && families[k] == old(world).st.families[k])
      ensures op.INVALIDATE? && r == Done && old(Early()) ==> Gone(Value(), id)
      ensures (op.ADMIN? || op.ENABLE?) && r == Done ==>
        exists k :: 0 <= k < NUM_FAMILIES && families[k].id == id
          && families[..] == old(world).st.families[k := families[k]]
          && (op.ENABLE? ==> families[k] == old(world).st.families[k].(enabled := op.on))
          && (op.ADMIN? ==> families[k] == old(world).st.families[k].(locked := op.on))
      ensures rows[..] == old(rows[..])
      ensures !r.Failed? ==> slots[..] == OnlySlot(old(slots[..]), i)
    {
      ManageMeans(world, Event.DelegateManage(i, proof, id, op, sized), steps);
      r := Manage(i, proof, id, op, sized);
      Log(Event.DelegateManage(i, proof, id, op, sized));
    }

    method Manage(i: nat, proof: bool, id: nat, op: Operation, sized: bool) returns (r: Reply)
      requires Shape()
      modifies this`last, families, slots
      ensures (Value(), r) == Delegation.Manage(old(Value()), i, proof, id, op, sized)
    {
      var k := NUM_FAMILIES;
      if !op.CREATE? {
        k := FindFamily(id);
        if k == NUM_FAMILIES { return Failed(BADINDEX); }
      }
      if !IsAuth(Value(), i) { return Failed(AUTHFAIL); }
      var code := Verify(slots[i], proof, KH_OWNER, ORD_MANAGE);
      if code.Some? { return Failed(code.value); }
      if slots[i].kind == DSAP && slots[i].family != id { return Failed(DELEGATE_FAMILY); }
      KeepOnly(i);
      r := Perform(k, op, sized);
    }

    // ---- creating delegations

    method CheckCreate(i: nat, proof: bool, handle: nat, ordinal: nat, kind: nat, p: Public) returns (c: Check)
      requires Shape()
      ensures c == MayCreate(Value(), i, proof, handle, ordinal, kind, p)
    {
      if !IsAuth(Value(), i) { return Bad(FAIL); }
      var s := slots[i];
      if s.kind != OSAP && s.kind != DSAP { return Bad(INVALID_AUTHHANDLE); }
      var code := Verify(s, proof, handle, ordinal);
      if code.Some? { return Bad(code.value); }
      var k := FindFamily(p.family);
      if k == NUM_FAMILIES { return Bad(BADINDEX); }
      if p.kind != kind { return Bad(BAD_PARAMETER); }
      if s.kind == DSAP {
        if !families[k].enabled { return Bad(DISABLED_CMD); }
        if s.family != p.family { return Bad(DELEGATE_FAMILY); }
        if !Covers(s.per1, p.per1) || !Covers(s.per2, p.per2) { return Bad(AUTHFAIL); }
      }
      c := Fine(k);
    }

    /** The blob carries the requested permissions and the family's count. One created in a
        delegated session is covered by an earlier blob, and every one by a blob issued outside
        delegation. */
    method CreateKeyDelegation(i: nat, proof: bool, handle: nat, key: Option<nat>, p: Public, secret: nat)
      returns (r: Reply)
      requires Valid()
      modifies this`world, this`steps, this`harmless
      ensures Valid() && Did(old(world), Event.CreateKeyDelegation(i, proof, handle, key, p, secret), r)
      ensures Value() == old(world).st && harmless == old(harmless)
      ensures r.Issued? ==>
        && key.Some? && Keyable(handle) && r.blob == KeyBlob(p.(count := r.blob.pub.count), secret, key.value)
        && !Gone(Value(), p.family) && world.log == old(world).log + [Issue(r.blob, r.delegated)]
      ensures r.Issued? && harmless ==>
        && (r.delegated ==> HasParent(world.log, |old(world).log|)) && Rooted(world.log, r.blob.pub)
    {
      ghost var e := Event.CreateKeyDelegation(i, proof, handle, key, p, secret);
      if KeyAt(handle, key).None? {
        Log(e);
        return Failed(INVALID_KEYHANDLE);
      }
      var c := CheckCreate(i, proof, handle, ORD_CREATE_KEY, KEY_BITS, p);
      if c.Bad? {
        Log(e);
        return Failed(c.code);
      }
      r := Issued(KeyBlob(p.(count := families[c.row].count), secret, key.value), slots[i].kind == DSAP);
      Log(e);
      if harmless { SoundRooted(world, |old(world).log|); }
    }

    /** As for keys. With an increment, every earlier blob of the family is revoked and all
        sessions but the command's own and transport sessions are wiped. */
    method CreateOwnerDelegation(i: nat, proof: bool, increment: bool, p: Public, secret: nat) returns (r: Reply)
      requires Valid()
      modifies this`world, this`steps, this`harmless, families, slots
      ensures Valid() && Did(old(world), Event.CreateOwnerDelegation(i, proof, increment, p, secret), r)
      ensures harmless == old(harmless) && rows[..] == old(rows[..])
      ensures r.Issued? ==>
        && r.blob == OwnerBlob(p.(count := r.blob.pub.count), secret)
        && !Gone(Value(), p.family) && world.log == old(world).log + [Issue(r.blob, r.delegated)]
      ensures r.Issued? && harmless ==>
        && (r.delegated ==> HasParent(world.log, |old(world).log|)) && Rooted(world.log, r.blob.pub)
      ensures r.Issued? && increment && old(Early()) ==>
        && FamilyRow(old(world).st, p.family) < NUM_FAMILIES
        && Revoked(Value(), p.family, old(world).st.families[FamilyRow(old(world).st, p.family)].count)
        && slots[..] == OnlySlot(old(slots[..]), i)
      ensures !(r.Issued? && increment) ==> Value() == old(world).st
    {
      ghost var e := Event.CreateOwnerDelegation(i, proof, increment, p, secret);
      OwnerMeans(world, e, steps);
      r := IssueOwner(i, proof, increment, p, secret);
      Log(e);
      if r.Issued? && harmless { SoundRooted(world, |old(world).log|); }
    }

    method IssueOwner(i: nat, proof: bool, increment: bool, p: Public, secret: nat) returns (r: Reply)
      requires Shape()
      modifies families, slots
      ensures (Value(), r) == CreateOwner(old(Value()), i, proof, increment, p, secret)
    {
      var c := CheckCreate(i, proof, KH_OWNER, ORD_CREATE_OWNER, OWNER_BITS, p);
      if c.Bad? { return Failed(c.code); }
      var delegated := slots[i].kind == DSAP;
      if increment {
        families[c.row] := families[c.row].(count := (families[c.row].count + 1) % TWO32);
        KeepOnly(i);
      }
      r := Issued(OwnerBlob(p.(count := families[c.row].count), secret), delegated);
    }

    // ---- the delegate table

    /** Under an ideal digest a row is written exactly with an issued blob of a family that is
        enabled; all sessions but the command's own and transport sessions are wiped. */
    method LoadOwnerDelegation(i: nat, proof: bool, index: nat, b: Blob, genuine: bool, readable: bool)
      returns (r: Reply)
      requires Valid() && genuine == InLog(world.log, b)
      modifies this`world, this`steps, this`harmless, rows, slots
      ensures Valid() && Did(old(world), Event.LoadOwnerDelegation(i, proof, index, b, readable), r)
      ensures harmless == old(harmless)
      ensures r == Done ==>
        && InLog(world.log, b) && index < NUM_ROWS && !Gone(Value(), b.pub.family)
        && rows[..] == old(rows[..])[index := Row(true, b.pub, b.secret)] && slots[..] == OnlySlot(old(slots[..]), i)
      ensures r != Done ==> Value() == old(world).st
    {
      RowMeans(Value(), i, proof, index, b, genuine, readable);
      r := WriteRow(i, proof, index, b, genuine, readable);
      Log(Event.LoadOwnerDelegation(i, proof, index, b, readable));
    }

    method WriteRow(i: nat, proof: bool, index: nat, b: Blob, genuine: bool, readable: bool) returns (r: Reply)
      requires Shape()
      modifies rows, slots
      ensures (Value(), r) == LoadOwner(old(Value()), i, proof, index, b, genuine, readable)
    {
      var k := FindFamily(b.pub.family);
      if k == NUM_FAMILIES { return Failed(BADINDEX); }
      if !IsAuth(Value(), i) { return Failed(AUTHFAIL); }
      var code := Verify(slots[i], proof, KH_OWNER, ORD_LOAD_OWNER);
      if code.Some? { return Failed(code.value); }
      if slots[i].kind == DSAP && slots[i].family != b.pub.family { return Failed(DELEGATE_FAMILY); }
      if !families[k].enabled { return Failed(DISABLED_CMD); }
      if !genuine || !b.OwnerBlob? { return Failed(AUTHFAIL); }
      if !readable { return Failed(INVALID_STRUCTURE); }
      if index >= NUM_ROWS { return Failed(BADINDEX); }
      rows[index] := Row(true, b.pub, b.secret);
      KeepOnly(i);
      r := Done;
    }

    /** The row gets the count of its family, so that it is no longer behind it; what it grants
        and everything else stays. */
    method UpdateVerification(i: nat, proof: bool, index: nat) returns (r: Reply)
      requires Valid()
      modifies this`world, this`steps, this`harmless, rows
      ensures Valid() && Did(old(world), Event.UpdateVerification(i, proof, index), r) && harmless == old(harmless)
      ensures r == Done ==>
        && index < NUM_ROWS && rows[..] == old(rows[..])[index := rows[index]]
        && SameGrant(old(rows[..])[index].pub, rows[index].pub) && UpToDate(Value(), rows[index])
      ensures r != Done ==> Value() == old(world).st
    {
      UpdateMeans(Value(), i, proof, index);
      r := Refresh(i, proof, index);
      Log(Event.UpdateVerification(i, proof, index));
    }

    method Refresh(i: nat, proof: bool, index: nat) returns (r: Reply)
      requires Shape()
      modifies rows
      ensures (Value(), r) == UpdateRow(old(Value()), i, proof, index)
    {
      if !IsAuth(Value(), i) { return Failed(AUTHFAIL); }
      var code := Verify(slots[i], proof, KH_OWNER, ORD_UPDATE);
      if code.Some? { return Failed(code.value); }
      if index >= NUM_ROWS || !rows[index].valid { return Failed(BADINDEX); }
      var k := FindFamily(rows[index].pub.family);
      if k == NUM_FAMILIES { return Failed(BADINDEX); }
      if slots[i].kind == DSAP {
        if !families[k].enabled { return Failed(DISABLED_CMD); }
        if slots[i].family != rows[index].pub.family { return Failed(DELEGATE_FAMILY); }
      }
      rows[index] := rows[index].(pub := rows[index].pub.(count := families[k].count));
      r := Done;
    }
  }

  /** A granted claim names a family that is there, with a count that has not been passed. */
  lemma GrantMeans(w: World, c: Claim)
    requires Sized(w.st) && Grants(w.st, Checked(w.log, c)).Granted?
    ensures !Gone(w.st, Grants(w.st, Checked(w.log, c)).pub.family)
    ensures !c.ByRow? ==> InLog(w.log, c.blob) && !Revoked(w.st, c.blob.pub.family, c.blob.pub.count)
  {
    var k := FamilyRow(w.st, Grants(w.st, Checked(w.log, c)).pub.family);
    assert w.st.families[k].valid;
  }

  /** What an owner delegation means for blobs, families and sessions. */
  lemma OwnerMeans(w: World, e: Event, n: nat)
    requires Sized(w.st) && e.CreateOwnerDelegation? && (n + 1 < TWO32 ==> FamiliesValid(w.st, n))
    ensures var (st, r) := Act(w, e);
      && st.rows == w.st.rows && (!(r.Issued? && e.increment) ==> st == w.st)
      && (r.Issued? ==> r.blob == OwnerBlob(e.pub.(count := r.blob.pub.count), e.secret) && !Gone(st, e.pub.family))
      && (r.Issued? && e.increment && n + 2 < TWO32 ==>
            && FamilyRow(w.st, e.pub.family) < NUM_FAMILIES
            && Revoked(st, e.pub.family, w.st.families[FamilyRow(w.st, e.pub.family)].count)
            && st.slots == OnlySlot(w.st.slots, e.slot))
  {
    var (st, r) := Act(w, e);
    if r.Issued? {
      var k := FamilyRow(w.st, e.pub.family);
      assert st.families[k].valid && st.families[k].id == e.pub.family;
      if e.increment && n + 2 < TWO32 { IncrementRevokes(w.st, n, e.slot, e.proof, e.pub, e.secret); }
    }
  }

  /** What writing a row means. */
  lemma RowMeans(st: State, i: nat, proof: bool, index: nat, b: Blob, genuine: bool, readable: bool)
    requires Sized(st)
    ensures var (r, reply) := LoadOwner(st, i, proof, index, b, genuine, readable);
      && (reply != Done ==> r == st)
      && (reply == Done ==>
            && genuine && index < NUM_ROWS && !Gone(r, b.pub.family)
            && r == st.(rows := st.rows[index := Row(true, b.pub, b.secret)], slots := OnlySlot(st.slots, i)))
  {
    var k := FamilyRow(st, b.pub.family);
    assert k < NUM_FAMILIES ==> st.families[k].valid;
  }

  /** What updating a row means. */
  lemma UpdateMeans(st: State, i: nat, proof: bool, index: nat)
    requires Sized(st)
    ensures var (r, reply) := UpdateRow(st, i, proof, index);
      && (reply != Done ==> r == st)
      && (reply == Done ==>
            && index < NUM_ROWS && r == st.(rows := st.rows[index := r.rows[index]])
            && SameGrant(st.rows[index].pub, r.rows[index].pub) && UpToDate(r, r.rows[index]))
  {
    var r := UpdateRow(st, i, proof, index).0;
    if r != st { assert st.families[FamilyRow(st, st.rows[index].pub.family)].count == r.rows[index].pub.count; }
  }

  /** What the operations on families mean. */
  lemma ManageMeans(w: World, e: Event, n: nat)
    requires Sized(w.st) && e.DelegateManage? && (n + 1 < TWO32 ==> FamiliesValid(w.st, n))
    ensures var (st, r) := Act(w, e);
      && st.rows == w.st.rows && (!r.Failed? ==> st.slots == OnlySlot(w.st.slots, e.slot))
      && (r.Created? && n + 2 < TWO32 ==>
            && w.st.last < r.family == st.last
            && (forall k :: 0 <= k < NUM_FAMILIES && w.st.families[k].valid ==>
                  w.st.families[k].id < r.family && st.families[k] == w.st.families[k]))
      && (e.op.INVALIDATE? && r == Done && n + 2 < TWO32 ==> Gone(st, e.id))
      && ((e.op.ADMIN? || e.op.ENABLE?) && r == Done ==>
            exists k :: 0 <= k < NUM_FAMILIES && st.families[k].id == e.id
              && st.families == w.st.families[k := st.families[k]]
              && (e.op.ENABLE? ==> st.families[k] == w.st.families[k].(enabled := e.op.on))
              && (e.op.ADMIN? ==> st.families[k] == w.st.families[k].(locked := e.op.on)))
  {
    var (st, r) := Act(w, e);
    if e.op.INVALIDATE? && r == Done && n + 2 < TWO32 {
      InvalidateRevokes(w.st, n, e.slot, e.proof, e.id, e.sized);
    }
    if !e.op.CREATE? && r == Done {
      var k := FamilyRow(w.st, e.id);
      assert st.families == w.st.families[k := st.families[k]];
    }
  }
}
