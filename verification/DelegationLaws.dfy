/** What the delegation commands check and change, told by the fields of families, rows and sessions
    (tpm-emulator/tpm/tpm_delegation.c, tpm_authorization.c). */
module DelegationLaws {
  import opened Wrappers
  import opened Delegation

  // ---- the tables

  /** The commands behind the owner permission bits, from bit 30 down. */
  const OWNER_COMMANDS: seq<nat> :=
    [141, 25, 29, 205, 18, 207, 216, 41, 43, 44, 45, 46, 129, 64, 91, 92, 204, 110, 63, 121, 122, 125, 126, 154, 170,
     209, 220, 224, 210, 213, 49]

  /** The commands behind the key permission bits, from bit 28 down; bit 4 (TPM_UnBind) permits
      nothing. */
  const KEY_COMMANDS: seq<nat> :=
    [36, 242, 14, 15, 19, 37, 65, 230, 232, 62, 61, 121, 122, 134, 60, 51, 50, 31, 27, 40, 42, 212, 12, 33]

  const LAST_KEY_COMMANDS: seq<nat> := [22, 24, 23, 32]

  lemma OwnerBits(i: nat)
    requires i < 31
    ensures |OWNER_COMMANDS| == 31 && OwnerMask(OWNER_COMMANDS[i]) == Some((1 as bits) << (30 - i))
  {
    if i < 8 { OwnerHigh(i); } else if i < 20 { OwnerMiddle(i); } else { OwnerLow(i); }
  }

  lemma OwnerHigh(i: nat)
    requires i < 8
    ensures |OWNER_COMMANDS| == 31 && OwnerMask(OWNER_COMMANDS[i]) == Some((1 as bits) << (30 - i))
  {}

  lemma OwnerMiddle(i: nat)
    requires 8 <= i < 20
    ensures |OWNER_COMMANDS| == 31 && OwnerMask(OWNER_COMMANDS[i]) == Some((1 as bits) << (30 - i))
  {}

  lemma OwnerLow(i: nat)
    requires 20 <= i < 31
    ensures |OWNER_COMMANDS| == 31 && OwnerMask(OWNER_COMMANDS[i]) == Some((1 as bits) << (30 - i))
  {}

  lemma KeyBits(i: nat)
    requires i < 24
    ensures |KEY_COMMANDS| == 24 && KeyMask(KEY_COMMANDS[i]) == Some((1 as bits) << (28 - i))
  {
    if i < 7 { KeyHigh(i); } else if i < 15 { KeyMiddle(i); } else { KeyLow(i); }
  }

  lemma KeyHigh(i: nat)
    requires i < 7
    ensures |KEY_COMMANDS| == 24 && KeyMask(KEY_COMMANDS[i]) == Some((1 as bits) << (28 - i))
  {}

  lemma KeyMiddle(i: nat)
    requires 7 <= i < 15
    ensures |KEY_COMMANDS| == 24 && KeyMask(KEY_COMMANDS[i]) == Some((1 as bits) << (28 - i))
  {}

  lemma KeyLow(i: nat)
    requires 15 <= i < 24
    ensures |KEY_COMMANDS| == 24 && KeyMask(KEY_COMMANDS[i]) == Some((1 as bits) << (28 - i))
  {}

  lemma LastKeyBits(i: nat)
    requires i < 4
    ensures |LAST_KEY_COMMANDS| == 4 && KeyMask(LAST_KEY_COMMANDS[i]) == Some((1 as bits) << (3 - i))
  {}

  lemma OtherCommands(ordinal: nat)
    ensures ordinal !in OWNER_COMMANDS ==> OwnerMask(ordinal).None?
    ensures ordinal !in KEY_COMMANDS && ordinal !in LAST_KEY_COMMANDS ==> KeyMask(ordinal).None?
  {}

  /** A command is permitted by its bit of the first permission word. */
  lemma OwnerAllows(i: nat, per1: bits)
    requires i < 31
    ensures |OWNER_COMMANDS| == 31
    ensures var bit := (1 as bits) << (30 - i); Permitted(1, OWNER_COMMANDS[i], per1) <==> per1 & bit == bit
  {
    OwnerBits(i);
  }

  lemma KeyAllows(i: nat, per1: bits)
    requires i < 24
    ensures |KEY_COMMANDS| == 24
    ensures var bit := (1 as bits) << (28 - i); Permitted(2, KEY_COMMANDS[i], per1) <==> per1 & bit == bit
  {
    KeyBits(i);
  }

  lemma LastKeyAllows(i: nat, per1: bits)
    requires i < 4
    ensures |LAST_KEY_COMMANDS| == 4
    ensures var bit := (1 as bits) << (3 - i); Permitted(2, LAST_KEY_COMMANDS[i], per1) <==> per1 & bit == bit
  {
    LastKeyBits(i);
  }

  lemma NothingElse(kind: nat, ordinal: nat, per1: bits)
    requires Permitted(kind, ordinal, per1)
    ensures kind == 1 || kind == 2
    ensures kind == 1 ==> ordinal in OWNER_COMMANDS
    ensures kind == 2 ==> ordinal in KEY_COMMANDS || ordinal in LAST_KEY_COMMANDS
  {
    OtherCommands(ordinal);
  }

  // ---- authorization

  /** The session in slot `i` authorizes the command on the entity. */
  predicate Authorizes(st: State, i: nat, proof: bool, handle: nat, ordinal: nat)
    requires Sized(st)
  {
    i < 4 && proof &&
    var s := st.slots[i];
    && s.kind in {1, 2, 16} && (s.kind in {2, 16} ==> s.handle == handle)
    && (s.kind == 16 ==> s.delegated in {1, 2} && Permitted(s.delegated, ordinal, s.per1))
  }

  lemma AuthorizesExactly(st: State, i: nat, proof: bool, handle: nat, ordinal: nat)
    requires Sized(st)
    ensures IsAuth(st, i) <==> i < 4 && st.slots[i].kind in {1, 2, 16}
    ensures IsAuth(st, i) ==>
      var s, r := st.slots[i], Verify(st.slots[i], proof, handle, ordinal);
      && (r == None <==> Authorizes(st, i, proof, handle, ordinal))
      && (r == Some(DISABLED_CMD) <==>
            s.kind == 16 && s.handle == handle && s.delegated in {1, 2} && !Permitted(s.delegated, ordinal, s.per1))
      && (r.Some? ==> r.value in {AUTHFAIL, DISABLED_CMD})
  {}

  // ---- families

  /** Row `k` is the one of the family. */
  predicate FamilyIs(st: State, id: nat, k: nat)
    requires Sized(st)
  {
    && k < 16 && st.families[k].valid && st.families[k].id == id
    && forall j :: 0 <= j < k ==> !(st.families[j].valid && st.families[j].id == id)
  }

  predicate NoFamily(st: State, id: nat)
    requires Sized(st)
  {
    forall j :: 0 <= j < 16 ==> !(st.families[j].valid && st.families[j].id == id)
  }

  lemma FamilyFound(st: State, id: nat, k: nat)
    requires Sized(st)
    ensures FamilyIs(st, id, k) ==> FamilyRow(st, id) == k
    ensures FamilyRow(st, id) == 16 <==> NoFamily(st, id)
    ensures FamilyRow(st, id) < 16 ==> FamilyIs(st, id, FamilyRow(st, id))
  {
    var f := FamilyRow(st, id);
    assert f < 16 ==> st.families[f].valid && st.families[f].id == id;
  }

  /** All sessions are wiped but transport sessions and the one in slot `i`. */
  predicate WipedBut(before: seq<Slot>, now: seq<Slot>, i: nat) {
    && |now| == |before|
    && forall j :: 0 <= j < |before| ==>
         now[j] == if j == i || before[j].kind == 4 then before[j] else Slot(0, 0, 0, 0, 0, 0)
  }

  lemma OnlyWipes(s: seq<Slot>, i: nat)
    ensures WipedBut(s, OnlySlot(s, i), i)
  {}

  // ---- TPM_DSAP

  /** The handle may be that of a key: the SRK or one of ten slots. */
  predicate KeyHandle(h: nat) {
    h == 0x4000_0000 || 0x0100_0000 <= h < 0x0100_000A
  }

  lemma KeyHandles(h: nat, key: Option<nat>)
    ensures KeyAt(h, key) == if KeyHandle(h) then key else None
  {
    assert h == 0x100_0000 * (h / 0x100_0000) + h % 0x100_0000;
  }

  /** The evidence is in order: a genuine blob of the right kind, for a key blob with the key that is
      there, or a row that is in use. */
  predicate Evidence(st: State, c: Claim)
    requires Sized(st)
  {
    match c
    case ByOwnerBlob(b, genuine) => b.OwnerBlob? && genuine
    case ByRow(index, _) => index < 4 && st.rows[index].valid
    case ByKeyBlob(b, genuine, h, key) => b.KeyBlob? && genuine && KeyHandle(h) && key == Some(b.key)
  }

  function Claimed(st: State, c: Claim): Public
    requires Sized(st)
  {
    if c.ByRow? then if c.index < 4 then st.rows[c.index].pub else Public(0, 0, 0, 0, 0, 0) else c.blob.pub
  }

  /** TPM_DSAP opens a session exactly on good evidence of an enabled family whose count the
      delegation still has; the session gets the permissions, the family and the handle. */
  lemma DsapExactly(st: State, c: Claim, i: nat, k: nat)
    requires Sized(st) && i < 4 && st.slots[i].kind == 0 && (forall j :: 0 <= j < i ==> st.slots[j].kind != 0)
    ensures var (now, r) := Dsap(st, c); var p := Claimed(st, c);
      && (NoFamily(st, p.family) ==> !r.Opened?)
      && (FamilyIs(st, p.family, k) ==>
            (r.Opened? <==> Evidence(st, c) && st.families[k].enabled && st.families[k].count == p.count))
      && (r.Opened? ==>
            && r.slot == i
            && now == st.(slots := st.slots[i := Slot(16, if c.ByOwnerBlob? then 0x4000_0001 else c.handle, p.family,
                                                      p.kind, p.per1, p.per2)]))
      && (!r.Opened? ==> now == st.(slots := st.slots[i := st.slots[i].(kind := 16)]))
  {
    var p := Claimed(st, c);
    FamilyFound(st, p.family, k);
    FirstSlot(st.slots, 0, i);
    if c.ByKeyBlob? { KeyHandles(c.handle, c.key); }
  }

  lemma {:induction false} FirstSlot(s: seq<Slot>, i: nat, k: nat)
    requires i <= k < |s| && s[k].kind == 0 && forall j :: 0 <= j < k ==> s[j].kind != 0
    ensures FreeSlotFrom(s, i) == k
    decreases k - i
  {
    if i < k { FirstSlot(s, i + 1, k); }
  }

  /** Why a claim is refused. */
  lemma GrantRefuses(st: State, c: Claim, k: nat)
    requires Sized(st) && Grants(st, c).Refused?
    ensures var code, p := Grants(st, c).code, Claimed(st, c);
      && (!Evidence(st, c) ==>
            code == if c.ByRow? then BADINDEX
                    else if c.blob.OwnerBlob? != c.ByOwnerBlob? then BAD_PARAMETER
                    else if !c.genuine then AUTHFAIL else KEYNOTFOUND)
      && (Evidence(st, c) && NoFamily(st, p.family) ==> code == BADINDEX)
      && (Evidence(st, c) && FamilyIs(st, p.family, k) ==>
            code == if st.families[k].enabled then FAIL else DISABLED_CMD)
  {
    FamilyFound(st, Claimed(st, c).family, k);
    if c.ByKeyBlob? { KeyHandles(c.handle, c.key); }
  }

  // ---- TPM_Delegate_Manage

  /** The command gets past its checks. */
  predicate Manages(st: State, i: nat, proof: bool, id: nat, op: Operation, k: nat)
    requires Sized(st)
  {
    && (op.CREATE? || FamilyIs(st, id, k)) && Authorizes(st, i, proof, 0x4000_0001, 210)
    && (st.slots[i].kind == 16 ==> st.slots[i].family == id)
  }

  /** A command that gets past its checks wipes the sessions, even if the operation then fails; a
      new family takes the first free row, the next ID, count 1 and no flags. */
  lemma ManagesExactly(st: State, i: nat, proof: bool, id: nat, op: Operation, sized: bool, k: nat, f: nat)
    requires Sized(st) && Manages(st, i, proof, id, op, k)
    requires op.CREATE? ==> f < 16 && !st.families[f].valid && forall j :: 0 <= j < f ==> st.families[j].valid
    ensures var (now, r) := Manage(st, i, proof, id, op, sized); var next: id32 := (st.last + 1) % 0x1_0000_0000;
      && WipedBut(st.slots, now.slots, i) && now.rows == st.rows
      && (op.CREATE? && sized ==>
            && r == Created(next) && now.last == next
            && now.families == st.families[f := Family(true, next, op.name, 1, false, false)])
      && (op.ADMIN? && sized ==> r == Done && now.families == st.families[k := st.families[k].(locked := op.on)])
      && (op.ENABLE? && sized ==> r == Done && now.families == st.families[k := st.families[k].(enabled := op.on)])
      && (op.INVALIDATE? ==> r == Done && now.families == st.families[k := Family(false, 0, 0, 0, false, false)])
      && ((op.CREATE? || op.ADMIN? || op.ENABLE?) && !sized ==>
            r == Failed(BAD_PARAM_SIZE) && now.families == st.families && now.last == st.last)
      && (op.UNKNOWN? ==> r == Failed(BAD_PARAMETER) && now.families == st.families)
      && (!op.CREATE? ==> now.last == st.last)
  {
    FamilyFound(st, id, k);
    OnlyWipes(st.slots, i);
    AuthorizesExactly(st, i, proof, 0x4000_0001, 210);
    if op.CREATE? { FirstFree(st.families, 0, f); }
  }

  lemma {:induction false} FirstFree(f: seq<Family>, i: nat, k: nat)
    requires i <= k < |f| && !f[k].valid && forall j :: 0 <= j < k ==> f[j].valid
    ensures FreeFamilyFrom(f, i) == k
    decreases k - i
  {
    if i < k { FirstFree(f, i + 1, k); }
  }

  /** A command that does not get past its checks changes nothing. */
  lemma ManageRefuses(st: State, i: nat, proof: bool, id: nat, op: Operation, sized: bool)
    requires Sized(st) && forall k: nat :: k < 16 ==> !Manages(st, i, proof, id, op, k)
    ensures var (now, r) := Manage(st, i, proof, id, op, sized);
      && now == st && r.Failed?
      && (!op.CREATE? && NoFamily(st, id) ==> r.code == BADINDEX)
      && (Authorizes(st, i, proof, 0x4000_0001, 210) && (op.CREATE? || !NoFamily(st, id)) ==> r.code == DELEGATE_FAMILY)
  {
    var k := FamilyRow(st, id);
    FamilyFound(st, id, k);
    AuthorizesExactly(st, i, proof, 0x4000_0001, 210);
    assert !Manages(st, i, proof, id, op, 0);
    if k < 16 { assert !Manages(st, i, proof, id, op, k); }
  }

  // ---- creating delegations

  /** The checks of both creating commands: an OSAP or DSAP session on the entity, and in a delegated
      one an enabled family that is its own, and no permission that it does not have. */
  predicate Creates(st: State, i: nat, proof: bool, handle: nat, ordinal: nat, kind: nat, p: Public, k: nat)
    requires Sized(st)
  {
    && Authorizes(st, i, proof, handle, ordinal) && FamilyIs(st, p.family, k) && p.kind == kind
    && st.slots[i].kind in {2, 16}
    && (st.slots[i].kind == 16 ==>
          && st.families[k].enabled && st.slots[i].family == p.family
          && Contains(st.slots[i].per1, p.per1) && Contains(st.slots[i].per2, p.per2))
  }

  /** No bit of `q` is missing in `p`. */
  predicate Contains(p: bits, q: bits) {
    q & !p == 0
  }

  lemma ContainsIs(p: bits, q: bits)
    ensures Contains(p, q) <==> Covers(p, q)
  {}

  lemma CreatesExactly(st: State, i: nat, proof: bool, handle: nat, ordinal: nat, kind: nat, p: Public, k: nat)
    requires Sized(st)
    ensures MayCreate(st, i, proof, handle, ordinal, kind, p) == Fine(k) <==>
      Creates(st, i, proof, handle, ordinal, kind, p, k)
  {
    FamilyFound(st, p.family, k);
    AuthorizesExactly(st, i, proof, handle, ordinal);
    if i < 4 && k < 16 {
      ContainsIs(st.slots[i].per1, p.per1);
      ContainsIs(st.slots[i].per2, p.per2);
      PassesOn(st, st.slots[i], k, p);
    }
  }

  lemma PassesOn(st: State, s: Slot, k: nat, p: Public)
    requires Sized(st) && k < 16
    ensures Exceeds(st, s, k, p) == None <==>
      (s.kind == 16 ==>
         st.families[k].enabled && s.family == p.family && Covers(s.per1, p.per1) && Covers(s.per2, p.per2))
  {}

  lemma KeyExactly(st: State, i: nat, proof: bool, handle: nat, key: Option<nat>, p: Public, secret: nat, k: nat)
    requires Sized(st)
    ensures var (now, r) := CreateKey(st, i, proof, handle, key, p, secret);
      && now == st
      && (FamilyIs(st, p.family, k) ==>
            (r.Issued? <==> KeyHandle(handle) && key.Some? && Creates(st, i, proof, handle, 212, 2, p, k)))
      && (NoFamily(st, p.family) ==> !r.Issued?)
      && (r.Issued? && FamilyIs(st, p.family, k) ==>
            r == Issued(KeyBlob(p.(count := st.families[k].count), secret, key.value), st.slots[i].kind == 16))
      && (!(KeyHandle(handle) && key.Some?) ==> r == Failed(INVALID_KEYHANDLE))
  {
    KeyHandles(handle, key);
    FamilyFound(st, p.family, k);
    CreatesExactly(st, i, proof, handle, 212, 2, p, k);
    if MayCreate(st, i, proof, handle, ORD_CREATE_KEY, KEY_BITS, p).Fine? {
      assert MayCreate(st, i, proof, handle, 212, 2, p).row == FamilyRow(st, p.family);
    }
  }

  /** An increment passes the count before it and wipes the sessions. */
  lemma OwnerExactly(st: State, i: nat, proof: bool, increment: bool, p: Public, secret: nat, k: nat)
    requires Sized(st)
    ensures var (now, r) := CreateOwner(st, i, proof, increment, p, secret);
      && (FamilyIs(st, p.family, k) ==> (r.Issued? <==> Creates(st, i, proof, 0x4000_0001, 213, 1, p, k)))
      && (NoFamily(st, p.family) ==> !r.Issued?) && (!r.Issued? ==> now == st)
      && (r.Issued? && FamilyIs(st, p.family, k) ==>
            var count := if increment then (st.families[k].count + 1) % 0x1_0000_0000 else st.families[k].count;
            && r == Issued(OwnerBlob(p.(count := count), secret), st.slots[i].kind == 16)
            && now == st.(families := st.families[k := st.families[k].(count := count)], slots := now.slots)
            && (if increment then WipedBut(st.slots, now.slots, i) else now.slots == st.slots))
  {
    FamilyFound(st, p.family, k);
    CreatesExactly(st, i, proof, 0x4000_0001, 213, 1, p, k);
    OnlyWipes(st.slots, i);
    if MayCreate(st, i, proof, 0x4000_0001, 213, 1, p).Fine? {
      assert MayCreate(st, i, proof, 0x4000_0001, 213, 1, p).row == FamilyRow(st, p.family);
    }
    if k < 16 { assert st.families[k := st.families[k]] == st.families; }
  }

  /** Why a delegation is not created. */
  lemma CreateRefuses(st: State, i: nat, proof: bool, handle: nat, ordinal: nat, kind: nat, p: Public, k: nat)
    requires Sized(st) && MayCreate(st, i, proof, handle, ordinal, kind, p).Bad?
    ensures var code := MayCreate(st, i, proof, handle, ordinal, kind, p).code;
      && (!(i < 4 && st.slots[i].kind in {1, 2, 16}) ==> code == FAIL)
      && (i < 4 && st.slots[i].kind == 1 ==> code == INVALID_AUTHHANDLE)
      && (Authorizes(st, i, proof, handle, ordinal) && st.slots[i].kind != 1 ==>
            && (NoFamily(st, p.family) ==> code == BADINDEX)
            && (FamilyIs(st, p.family, k) ==>
                  code == if p.kind != kind then BAD_PARAMETER
                          else if !st.families[k].enabled then DISABLED_CMD
                          else if st.slots[i].family != p.family then DELEGATE_FAMILY else AUTHFAIL))
  {
    FamilyFound(st, p.family, k);
    AuthorizesExactly(st, i, proof, handle, ordinal);
  }

  // ---- the table

  /** TPM_Delegate_LoadOwnerDelegation writes the row exactly for a genuine owner blob of an enabled
      family, which is the session's own if that is delegated. */
  lemma LoadsExactly(st: State, i: nat, proof: bool, index: nat, b: Blob, genuine: bool, readable: bool, k: nat)
    requires Sized(st)
    ensures var (now, r) := LoadOwner(st, i, proof, index, b, genuine, readable);
      && (FamilyIs(st, b.pub.family, k) ==>
            (r == Done <==>
              && Authorizes(st, i, proof, 0x4000_0001, 216)
              && (st.slots[i].kind == 16 ==> st.slots[i].family == b.pub.family)
              && st.families[k].enabled && genuine && b.OwnerBlob? && readable && index < 4))
      && (NoFamily(st, b.pub.family) ==> r == Failed(BADINDEX))
      && (r == Done ==>
            && now == st.(rows := st.rows[index := Row(true, b.pub, b.secret)], slots := now.slots)
            && WipedBut(st.slots, now.slots, i))
      && (r != Done ==> now == st)
  {
    FamilyFound(st, b.pub.family, k);
    AuthorizesExactly(st, i, proof, 0x4000_0001, 216);
    OnlyWipes(st.slots, i);
  }

  /** TPM_Delegate_UpdateVerification brings the row to the count of its family. */
  lemma UpdatesExactly(st: State, i: nat, proof: bool, index: nat, k: nat)
    requires Sized(st)
    ensures var (now, r) := UpdateRow(st, i, proof, index);
      && (r == Done ==> index < 4) && (r != Done ==> now == st)
      && (index < 4 && NoFamily(st, st.rows[index].pub.family) ==> r != Done)
      && (index < 4 && FamilyIs(st, st.rows[index].pub.family, k) ==>
            var row := st.rows[index];
            && (r == Done <==>
                  && Authorizes(st, i, proof, 0x4000_0001, 209) && row.valid
                  && (st.slots[i].kind == 16 ==> st.families[k].enabled && st.slots[i].family == row.pub.family))
            && (r == Done ==>
                  now == st.(rows := st.rows[index := row.(pub := row.pub.(count := st.families[k].count))])))
  {
    if index < 4 { FamilyFound(st, st.rows[index].pub.family, k); }
    AuthorizesExactly(st, i, proof, 0x4000_0001, 209);
  }
}
