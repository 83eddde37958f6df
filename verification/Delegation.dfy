/** Delegation (tpm-emulator/tpm/tpm_delegation.c and the delegation parts of
    tpm_authorization.c): families, delegate rows, delegation blobs and the sessions opened with
    them, as functions on the state. */
module Delegation {
  import opened Wrappers
  import opened Handles

  const NUM_FAMILIES: nat := 16
  const NUM_ROWS: nat := 4
  const NUM_SESSIONS: nat := 4
  const TWO32: nat := 0x1_0000_0000

  const INVALID: nat := 0
  const OIAP: nat := 1
  const OSAP: nat := 2
  const TRANSPORT: nat := 4
  const DSAP: nat := 16

  const OWNER_BITS: nat := 1
  const KEY_BITS: nat := 2

  const ORD_MANAGE: nat := 210
  const ORD_CREATE_KEY: nat := 212
  const ORD_CREATE_OWNER: nat := 213
  const ORD_LOAD_OWNER: nat := 216
  const ORD_UPDATE: nat := 209

  type bits = bv32

  /** Family IDs are 32 bits wide. */
  type id32 = x: nat | x < TWO32

  // ---- permissions

  /** The owner permission bit of a command, if it can be delegated. */
  function OwnerMask(ordinal: nat): Option<bits> {
    match ordinal
    case 141 => Some(0x40000000) case 25 => Some(0x20000000) case 29 => Some(0x10000000)
    case 205 => Some(0x8000000) case 18 => Some(0x4000000) case 207 => Some(0x2000000)
    case 216 => Some(0x1000000) case 41 => Some(0x800000) case 43 => Some(0x400000)
    case 44 => Some(0x200000) case 45 => Some(0x100000) case 46 => Some(0x80000)
    case 129 => Some(0x40000) case 64 => Some(0x20000) case 91 => Some(0x10000)
    case 92 => Some(0x8000) case 204 => Some(0x4000) case 110 => Some(0x2000)
    case 63 => Some(0x1000) case 121 => Some(0x800) case 122 => Some(0x400)
    case 125 => Some(0x200) case 126 => Some(0x100) case 154 => Some(0x80)
    case 170 => Some(0x40) case 209 => Some(0x20) case 220 => Some(0x10)
    case 224 => Some(0x8) case 210 => Some(0x4) case 213 => Some(0x2)
    case 49 => Some(0x1)
    case _ => None
  }

  /** The key permission bit of a command, if it can be delegated. */
  function KeyMask(ordinal: nat): Option<bits> {
    match ordinal
    case 36 => Some(0x10000000) case 242 => Some(0x8000000) case 14 => Some(0x4000000)
    case 15 => Some(0x2000000) case 19 => Some(0x1000000) case 37 => Some(0x800000)
    case 65 => Some(0x400000) case 230 => Some(0x200000) case 232 => Some(0x100000)
    case 62 => Some(0x80000) case 61 => Some(0x40000) case 121 => Some(0x20000)
    case 122 => Some(0x10000) case 134 => Some(0x8000) case 60 => Some(0x4000)
    case 51 => Some(0x2000) case 50 => Some(0x1000) case 31 => Some(0x800)
    case 27 => Some(0x400) case 40 => Some(0x200) case 42 => Some(0x100)
    case 212 => Some(0x80) case 12 => Some(0x40) case 33 => Some(0x20)
    case 22 => Some(0x8) case 24 => Some(0x4) case 23 => Some(0x2)
    case 32 => Some(0x1)
    case _ => None
  }

  /** Every bit of `q` is set in `p`. */
  predicate Covers(p: bits, q: bits) {
    (p | q) == p
  }

  /** IS_SET. */
  predicate IsSet(p: bits, mask: bits) {
    (p & mask) == mask
  }

  predicate MaskSet(mask: Option<bits>, per1: bits) {
    mask.Some? && IsSet(per1, mask.value)
  }

  /** `is_owner_delegation_permitted` and `is_key_delegation_permitted` by delegation type. */
  predicate Permitted(kind: nat, ordinal: nat, per1: bits) {
    if kind == OWNER_BITS then MaskSet(OwnerMask(ordinal), per1)
    else kind == KEY_BITS && MaskSet(KeyMask(ordinal), per1)
  }

  lemma CoversReflexive(p: bits)
    ensures Covers(p, p)
  {}

  lemma CoversTransitive(p: bits, q: bits, r: bits)
    requires Covers(p, q) && Covers(q, r)
    ensures Covers(p, r)
  {
    CoversChain(p, q, r);
  }

  lemma CoversChain(p: bits, q: bits, r: bits)
    requires (p | q) == p && (q | r) == q
    ensures (p | r) == p
  {
    assert ((p | q) | r) == (p | (q | r));
  }

  lemma IsSetCovered(p: bits, q: bits, mask: bits)
    requires Covers(p, q) && IsSet(q, mask)
    ensures IsSet(p, mask)
  {
    MaskCovered(p, q, mask);
  }

  lemma MaskCovered(p: bits, q: bits, mask: bits)
    requires (p | q) == p && (q & mask) == mask
    ensures (p & mask) == mask
  {
    assert (p & mask) == ((p | q) & mask) == ((p & mask) | (q & mask));
  }

  // ---- state

  /** TPM_FAMILY_TABLE_ENTRY. */
  datatype Family = Family(valid: bool, id: id32, name: nat, count: nat, enabled: bool, locked: bool)

  /** TPM_DELEGATE_PUBLIC; `info` stands for the label and the PCR information. */
  datatype Public = Public(info: nat, kind: nat, per1: bits, per2: bits, family: id32, count: nat)

  /** TPM_DELEGATE_TABLE_ROW. */
  datatype Row = Row(valid: bool, pub: Public, secret: nat)

  /** The fields of TPM_SESSION_DATA that matter here. */
  datatype Slot = Slot(kind: nat, handle: nat, family: id32, delegated: nat, per1: bits, per2: bits)

  datatype Blob = OwnerBlob(pub: Public, secret: nat) | KeyBlob(pub: Public, secret: nat, key: nat)

  datatype State = State(families: seq<Family>, rows: seq<Row>, slots: seq<Slot>, last: id32)

  predicate Sized(st: State) {
    |st.families| == NUM_FAMILIES && |st.rows| == NUM_ROWS && |st.slots| == NUM_SESSIONS
  }

  const NO_SLOT: Slot := Slot(INVALID, 0, 0, 0, 0, 0)
  const NO_FAMILY: Family := Family(false, 0, 0, 0, false, false)

  datatype Code = BADINDEX | AUTHFAIL | FAIL | DISABLED_CMD | DELEGATE_FAMILY | BAD_PARAM_SIZE | NOSPACE
                | BAD_PARAMETER | INVALID_AUTHHANDLE | INVALID_KEYHANDLE | RESOURCES | KEYNOTFOUND | INVALID_STRUCTURE

  datatype Reply = Done | Created(family: nat) | Opened(slot: nat) | Issued(blob: Blob, delegated: bool)
                 | Failed(code: Code)

  /** `tpm_get_family_row`: the first valid row with the given ID from `i` on. */
  function FamilyFrom(f: seq<Family>, id: nat, i: nat): (k: nat)
    requires i <= |f|
    ensures i <= k <= |f| && (k < |f| ==> f[k].valid && f[k].id == id)
    ensures forall j :: i <= j < k ==> !(f[j].valid && f[j].id == id)
    decreases |f| - i
  {
    if i == |f| || (f[i].valid && f[i].id == id) then i else FamilyFrom(f, id, i + 1)
  }

  /** `tpm_get_free_family_row`. */
  function FreeFamilyFrom(f: seq<Family>, i: nat): (k: nat)
    requires i <= |f|
    ensures i <= k <= |f| && (k < |f| ==> !f[k].valid)
    ensures forall j :: i <= j < k ==> f[j].valid
    decreases |f| - i
  {
    if i == |f| || !f[i].valid then i else FreeFamilyFrom(f, i + 1)
  }

  function FreeSlotFrom(s: seq<Slot>, i: nat): (k: nat)
    requires i <= |s|
    ensures i <= k <= |s| && (k < |s| ==> s[k].kind == INVALID)
    decreases |s| - i
  {
    if i == |s| || s[i].kind == INVALID then i else FreeSlotFrom(s, i + 1)
  }

  function FamilyRow(st: State, id: nat): (k: nat)
    requires Sized(st)
    ensures k <= NUM_FAMILIES && (k < NUM_FAMILIES ==> st.families[k].valid && st.families[k].id == id)
  {
    FamilyFrom(st.families, id, 0)
  }

  function SetFamily(st: State, k: nat, f: Family): (r: State)
    requires Sized(st) && k < NUM_FAMILIES
    ensures Sized(r)
  {
    st.(families := st.families[k := f])
  }

  function SetSlot(st: State, i: nat, s: Slot): (r: State)
    requires Sized(st) && i < NUM_SESSIONS
    ensures Sized(r)
  {
    st.(slots := st.slots[i := s])
  }

  /** All sessions but transport sessions and the one in slot `i` are wiped. */
  function OnlySlot(s: seq<Slot>, i: nat): (r: seq<Slot>)
    ensures |r| == |s|
  {
    seq(|s|, j requires 0 <= j < |s| => if s[j].kind != TRANSPORT && j != i then NO_SLOT else s[j])
  }

  // ---- authorization

  /** `tpm_get_auth` on a slot index. */
  predicate IsAuth(st: State, i: nat)
    requires Sized(st)
  {
    i < NUM_SESSIONS && st.slots[i].kind in {OIAP, OSAP, DSAP}
  }

  /** `tpm_verify_auth`; `proof` says whether the keyed digest matches. */
  function Verify(s: Slot, proof: bool, handle: nat, ordinal: nat): Option<Code> {
    if (s.kind == OSAP || s.kind == DSAP) && s.handle != handle then Some(AUTHFAIL)
    else if s.kind == DSAP && s.delegated != OWNER_BITS && s.delegated != KEY_BITS then Some(AUTHFAIL)
    else if s.kind == DSAP && !Permitted(s.delegated, ordinal, s.per1) then Some(DISABLED_CMD)
    else if !proof then Some(AUTHFAIL)
    else None
  }

  // ---- opening sessions

  /** A session that is not delegated: TPM_OIAP or TPM_OSAP. */
  function Open(st: State, kind: nat, handle: nat): (r: (State, Reply))
    requires Sized(st) && kind in {OIAP, OSAP}
    ensures Sized(r.0)
  {
    var i := FreeSlotFrom(st.slots, 0);
    if i == NUM_SESSIONS then (st, Failed(RESOURCES))
    else
      var s := st.slots[i];
      (SetSlot(st, i, s.(kind := kind, handle := if kind == OSAP then handle else s.handle)), Opened(i))
  }

  /** The family checks of TPM_DSAP. */
  function FamilyRefuses(st: State, pub: Public): Option<Code>
    requires Sized(st)
  {
    var k := FamilyRow(st, pub.family);
    if k == NUM_FAMILIES then Some(BADINDEX)
    else if !st.families[k].enabled then Some(DISABLED_CMD)
    else if st.families[k].count != pub.count then Some(FAIL)
    else None
  }

  /** The delegation behind a TPM_DSAP: an owner blob, a row, or a key blob with the digest of
      the key it is to be used with. `genuine` is what the integrity digest says. */
  datatype Claim = ByOwnerBlob(blob: Blob, genuine: bool) | ByRow(index: nat, handle: nat)
                 | ByKeyBlob(blob: Blob, genuine: bool, handle: nat, key: Option<nat>)

  /** `tpm_get_key`: the digest of the key behind a handle, if there can be one. */
  function KeyAt(handle: nat, key: Option<nat>): Option<nat> {
    if Keyable(handle) then key else None
  }

  /** What the checks make of a claim: the public part to use and the handle to bind. */
  datatype Grant = Refused(code: Code) | Granted(pub: Public, handle: nat)

  function Grants(st: State, c: Claim): Grant
    requires Sized(st)
  {
    match c
    case ByOwnerBlob(b, genuine) =>
      if !b.OwnerBlob? then Refused(BAD_PARAMETER)
      else if !genuine then Refused(AUTHFAIL)
      else (match FamilyRefuses(st, b.pub) case Some(code) => Refused(code) case None => Granted(b.pub, KH_OWNER))
    case ByRow(index, handle) =>
      if index >= NUM_ROWS || !st.rows[index].valid then Refused(BADINDEX)
      else
        (match FamilyRefuses(st, st.rows[index].pub)
         case Some(code) => Refused(code)
         case None => Granted(st.rows[index].pub, handle))
    case ByKeyBlob(b, genuine, handle, key) =>
      if !b.KeyBlob? then Refused(BAD_PARAMETER)
      else if !genuine then Refused(AUTHFAIL)
      else if KeyAt(handle, key) != Some(b.key) then Refused(KEYNOTFOUND)
      else (match FamilyRefuses(st, b.pub) case Some(code) => Refused(code) case None => Granted(b.pub, handle))
  }

  /** TPM_DSAP: a refusal leaves the slot typed but otherwise as it was. */
  function Dsap(st: State, c: Claim): (r: (State, Reply))
    requires Sized(st)
    ensures Sized(r.0)
  {
    var i := FreeSlotFrom(st.slots, 0);
    if i == NUM_SESSIONS then (st, Failed(RESOURCES))
    else
      match Grants(st, c)
      case Refused(code) => (SetSlot(st, i, st.slots[i].(kind := DSAP)), Failed(code))
      case Granted(p, handle) =>
        (SetSlot(st, i, Slot(DSAP, handle, p.family, p.kind, p.per1, p.per2)), Opened(i))
  }

  // ---- TPM_Delegate_Manage

  datatype Operation = CREATE(name: nat) | ADMIN(on: bool) | ENABLE(on: bool) | INVALIDATE | UNKNOWN

  /** The operation itself on row `k` (the number of rows for CREATE); `sized` is whether the
      operation data has one byte. */
  function Operate(st: State, k: nat, op: Operation, sized: bool): (r: (State, Reply))
    requires Sized(st) && k <= NUM_FAMILIES && (!op.CREATE? ==> k < NUM_FAMILIES)
    ensures Sized(r.0)
  {
    match op
    case CREATE(name) =>
      if !sized then (st, Failed(BAD_PARAM_SIZE))
      else
        var free := FreeFamilyFrom(st.families, 0);
        if free == NUM_FAMILIES then (st, Failed(NOSPACE))
        else
          var id := (st.last + 1) % TWO32;
          (SetFamily(st, free, Family(true, id, name, 1, false, false)).(last := id), Created(id))
    case ADMIN(on) =>
      if !sized then (st, Failed(BAD_PARAM_SIZE)) else (SetFamily(st, k, st.families[k].(locked := on)), Done)
    case ENABLE(on) =>
      if !sized then (st, Failed(BAD_PARAM_SIZE)) else (SetFamily(st, k, st.families[k].(enabled := on)), Done)
    case INVALIDATE => (SetFamily(st, k, NO_FAMILY), Done)
    case UNKNOWN => (st, Failed(BAD_PARAMETER))
  }

  function Manage(st: State, i: nat, proof: bool, id: nat, op: Operation, sized: bool): (r: (State, Reply))
    requires Sized(st)
    ensures Sized(r.0)
  {
    var k := if op.CREATE? then NUM_FAMILIES else FamilyRow(st, id);
    if !op.CREATE? && k == NUM_FAMILIES then (st, Failed(BADINDEX))
    else if !IsAuth(st, i) then (st, Failed(AUTHFAIL))
    else
      match Verify(st.slots[i], proof, KH_OWNER, ORD_MANAGE)
      case Some(code) => (st, Failed(code))
      case None =>
        if st.slots[i].kind == DSAP && st.slots[i].family != id then (st, Failed(DELEGATE_FAMILY))
        else Operate(st.(slots := OnlySlot(st.slots, i)), k, op, sized)
  }

  // ---- creating delegations

  /** A delegated session may only pass on permissions of its own family. */
  function Exceeds(st: State, s: Slot, k: nat, p: Public): Option<Code>
    requires Sized(st) && k < NUM_FAMILIES
  {
    if s.kind != DSAP then None
    else if !st.families[k].enabled then Some(DISABLED_CMD)
    else if s.family != p.family then Some(DELEGATE_FAMILY)
    else if !Covers(s.per1, p.per1) || !Covers(s.per2, p.per2) then Some(AUTHFAIL)
    else None
  }

  /** The checks common to both creating commands; on success the row of the family. */
  datatype Check = Bad(code: Code) | Fine(row: nat)

  function MayCreate(st: State, i: nat, proof: bool, handle: nat, ordinal: nat, kind: nat, p: Public): (c: Check)
    requires Sized(st)
    ensures c.Fine? ==> c.row == FamilyRow(st, p.family) < NUM_FAMILIES && IsAuth(st, i)
  {
    if !IsAuth(st, i) then Bad(FAIL)
    else if st.slots[i].kind != OSAP && st.slots[i].kind != DSAP then Bad(INVALID_AUTHHANDLE)
    else
      match Verify(st.slots[i], proof, handle, ordinal)
      case Some(code) => Bad(code)
      case None =>
        var k := FamilyRow(st, p.family);
        if k == NUM_FAMILIES then Bad(BADINDEX)
        else if p.kind != kind then Bad(BAD_PARAMETER)
        else (match Exceeds(st, st.slots[i], k, p) case Some(code) => Bad(code) case None => Fine(k))
  }

  function CreateKey(st: State, i: nat, proof: bool, handle: nat, key: Option<nat>, p: Public, secret: nat):
    (r: (State, Reply))
    requires Sized(st)
    ensures Sized(r.0)
  {
    if KeyAt(handle, key).None? then (st, Failed(INVALID_KEYHANDLE))
    else
      match MayCreate(st, i, proof, handle, ORD_CREATE_KEY, KEY_BITS, p)
      case Bad(code) => (st, Failed(code))
      case Fine(k) =>
        (st, Issued(KeyBlob(p.(count := st.families[k].count), secret, key.value), st.slots[i].kind == DSAP))
  }

  function CreateOwner(st: State, i: nat, proof: bool, increment: bool, p: Public, secret: nat): (r: (State, Reply))
    requires Sized(st)
    ensures Sized(r.0)
  {
    match MayCreate(st, i, proof, KH_OWNER, ORD_CREATE_OWNER, OWNER_BITS, p)
    case Bad(code) => (st, Failed(code))
    case Fine(k) =>
      var f := st.families[k];
      var count := if increment then (f.count + 1) % TWO32 else f.count;
      var t := if increment then SetFamily(st, k, f.(count := count)).(slots := OnlySlot(st.slots, i)) else st;
      (t, Issued(OwnerBlob(p.(count := count), secret), st.slots[i].kind == DSAP))
  }

  // ---- the delegate table

  /** TPM_Delegate_LoadOwnerDelegation with an owner installed; `readable` is whether the
      sensitive part decrypts to a well-formed structure. */
  function LoadOwner(st: State, i: nat, proof: bool, index: nat, b: Blob, genuine: bool, readable: bool):
    (r: (State, Reply))
    requires Sized(st)
    ensures Sized(r.0)
  {
    var k := FamilyRow(st, b.pub.family);
    if k == NUM_FAMILIES then (st, Failed(BADINDEX))
    else if !IsAuth(st, i) then (st, Failed(AUTHFAIL))
    else
      match Verify(st.slots[i], proof, KH_OWNER, ORD_LOAD_OWNER)
      case Some(code) => (st, Failed(code))
      case None =>
        if st.slots[i].kind == DSAP && st.slots[i].family != b.pub.family then (st, Failed(DELEGATE_FAMILY))
        else if !st.families[k].enabled then (st, Failed(DISABLED_CMD))
        else if !genuine || !b.OwnerBlob? then (st, Failed(AUTHFAIL))
        else if !readable then (st, Failed(INVALID_STRUCTURE))
        else if index >= NUM_ROWS then (st, Failed(BADINDEX))
        else
          (st.(rows := st.rows[index := Row(true, b.pub, b.secret)], slots := OnlySlot(st.slots, i)), Done)
  }

  /** TPM_Delegate_UpdateVerification for a row of the table. */
  function UpdateRow(st: State, i: nat, proof: bool, index: nat): (r: (State, Reply))
    requires Sized(st)
    ensures Sized(r.0)
  {
    if !IsAuth(st, i) then (st, Failed(AUTHFAIL))
    else
      match Verify(st.slots[i], proof, KH_OWNER, ORD_UPDATE)
      case Some(code) => (st, Failed(code))
      case None =>
        if index >= NUM_ROWS || !st.rows[index].valid then (st, Failed(BADINDEX))
        else
          var row := st.rows[index];
          var k := FamilyRow(st, row.pub.family);
          if k == NUM_FAMILIES then (st, Failed(BADINDEX))
          else if st.slots[i].kind == DSAP && !st.families[k].enabled then (st, Failed(DISABLED_CMD))
          else if st.slots[i].kind == DSAP && st.slots[i].family != row.pub.family then (st, Failed(DELEGATE_FAMILY))
          else
            (st.(rows := st.rows[index := row.(pub := row.pub.(count := st.families[k].count))]), Done)
  }
}
