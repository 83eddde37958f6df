/** Authorization sessions and saved contexts (tpm-emulator/tpm/tpm_authorization.c,
    tpm_context.c, tpm_eviction.c, tpm_handles.c and the clear branch of tpm_startup.c) as a
    transition system: each command is a function on the session state. */
module Sessions {
  import opened Wrappers
  import opened Handles
  import Delegation

  type Nonce = nat

  const MAX_SESSIONS: nat := 4
  const MAX_SESSION_LIST: nat := 16
  const MAX_SESSIONS_DAA: nat := 1

  const INVALID: nat := 0
  const OIAP: nat := 1
  const OSAP: nat := 2
  const TRANSPORT: nat := 4
  const DAA: nat := 8
  const DSAP: nat := 16

  const RT_AUTH: nat := 2
  const RT_TRANS: nat := 4
  const RT_CONTEXT: nat := 5
  const RT_DAA_TPM: nat := 8

  const INVALID_HANDLE: nat := 0xffff_ffff

  /** TPM_DELEGATIONS with the family: what a delegated session may do. */
  datatype Rights = Rights(kind: nat, per1: Delegation.bits, per2: Delegation.bits, family: Delegation.id32)

  /** TPM_SESSION_DATA; `transport` stands for the transport fields. */
  datatype Session = Session(kind: nat, even: Nonce, last: Nonce, secret: nat, handle: nat,
                             entity: nat, rights: Rights, transport: nat)

  /** The part of TPM_DAA_SESSION_DATA that this module looks at; `data` is everything else. */
  datatype DaaSession = DaaSession(kind: nat, handle: nat, data: nat)

  const NO_RIGHTS: Rights := Rights(0, 0, 0, 0)
  const EMPTY: Session := Session(INVALID, 0, 0, 0, 0, 0, NO_RIGHTS, 0)
  const EMPTY_DAA: DaaSession := DaaSession(INVALID, 0, 0)

  datatype Saved = OfSession(session: Session) | OfDaa(daa: DaaSession)

  /** A context blob with its sensitive part decrypted. */
  datatype Blob = Blob(resource: nat, handle: nat, name: nat, count: nat, iv: nat,
                       nonce: Nonce, saved: Saved)

  datatype State = State(sessions: seq<Session>, daa: seq<DaaSession>, list: seq<nat>, count: nat,
                         nonce: Nonce, current: nat)

  predicate Sized(st: State) {
    |st.sessions| == MAX_SESSIONS && |st.daa| == MAX_SESSIONS_DAA && |st.list| == MAX_SESSION_LIST
  }

  datatype Code = RESOURCES | INVALID_AUTHHANDLE | AUTHFAIL | DISABLED_CMD | INAPPROPRIATE_ENC
                | BAD_HANDLE | BAD_PARAMETER | REFUSED | INVALID_RESOURCE | TOOMANYCONTEXTS
                | NOCONTEXTSPACE | BADCONTEXT | RESOURCEMISSING | KEY_OWNER_CONTROL | FAIL

  datatype Reply = Done | Opened(handle: nat) | Authorized(even: Nonce) | Issued(blob: Blob)
                 | Loaded(handle: nat) | Failed(code: Code)

  // ---- handles and slots

  /** `tpm_get_auth`: the slot of a live OIAP, OSAP or DSAP session. */
  function AuthSlot(st: State, h: nat): Option<nat>
    requires Sized(st)
  {
    if h != INVALID_HANDLE && Resource(h) == RT_AUTH && Index(h) < MAX_SESSIONS
       && st.sessions[Index(h)].kind in {OIAP, OSAP, DSAP}
    then Some(Index(h)) else None
  }

  /** `tpm_get_transport`. */
  function TransportSlot(st: State, h: nat): Option<nat>
    requires Sized(st)
  {
    if h != INVALID_HANDLE && Resource(h) == RT_TRANS && Index(h) < MAX_SESSIONS
       && st.sessions[Index(h)].kind == TRANSPORT
    then Some(Index(h)) else None
  }

  /** `tpm_get_daa`. */
  function DaaSlot(st: State, h: nat): Option<nat>
    requires Sized(st)
  {
    if h != INVALID_HANDLE && Resource(h) == RT_DAA_TPM && Index(h) < MAX_SESSIONS_DAA
       && st.daa[Index(h)].kind == DAA
    then Some(Index(h)) else None
  }

  /** The key slots: whether the SRK is installed, which of the others are in use, and the handles
      of the keys under the owner's control. */
  datatype Keys = Keys(srk: bool, used: set<nat>, controlled: set<nat>)

  /** `tpm_get_key` finds a key. */
  predicate HasKey(k: Keys, h: nat) {
    Keyable(h) && if h == KH_SRK then k.srk else Index(h) in k.used
  }

  /** The first free session slot from `i` on, or the number of slots. */
  function FreeFrom(s: seq<Session>, i: nat): (k: nat)
    requires i <= |s|
    ensures i <= k <= |s| && (k < |s| ==> s[k].kind == INVALID)
    ensures forall j :: i <= j < k ==> s[j].kind != INVALID
    decreases |s| - i
  {
    if i == |s| || s[i].kind == INVALID then i else FreeFrom(s, i + 1)
  }

  function FreeDaaFrom(s: seq<DaaSession>, i: nat): (k: nat)
    requires i <= |s|
    ensures i <= k <= |s| && (k < |s| ==> s[k].kind == INVALID)
    decreases |s| - i
  {
    if i == |s| || s[i].kind == INVALID then i else FreeDaaFrom(s, i + 1)
  }

  /** The first entry of a context list from `i` on that equals `c`, or the length. */
  function FindFrom(list: seq<nat>, c: nat, i: nat): (k: nat)
    requires i <= |list|
    ensures i <= k <= |list| && (k < |list| ==> list[k] == c)
    ensures forall j :: i <= j < k ==> list[j] != c
    decreases |list| - i
  {
    if i == |list| || list[i] == c then i else FindFrom(list, c, i + 1)
  }

  function Put(st: State, i: nat, s: Session): (r: State)
    requires Sized(st) && i < MAX_SESSIONS
    ensures Sized(r)
  {
    st.(sessions := st.sessions[i := s])
  }

  // ---- opening sessions

  function Oiap(st: State, even: Nonce): (r: (State, Reply))
    requires Sized(st)
    ensures Sized(r.0)
  {
    var i := FreeFrom(st.sessions, 0);
    if i == MAX_SESSIONS then (st, Failed(RESOURCES))
    else (Put(st, i, st.sessions[i].(kind := OIAP, even := even)), Opened(HandleOf(RT_AUTH, i)))
  }

  /** What TPM_OSAP makes of its entity: an early return that leaves the slot as it is, or the
      handle of the entity. */
  datatype Target = Early(code: Code, left: Option<nat>) | Entity(handle: nat)

  function OsapTarget(entity: nat, value: nat): Target {
    if entity / 0x100 % 0x100 != 0 then Early(INAPPROPRIATE_ENC, None)
    else
      match entity % 0x100
      case 0x01 => if value == KH_OPERATOR then Early(BAD_HANDLE, Some(value)) else Entity(value)
      case 0x02 => Entity(KH_OWNER)
      case 0x0D => Entity(KH_OWNER)
      case 0x04 => Entity(KH_SRK)
      case 0x0A => Entity(value)
      case 0x0B => Entity(value)
      case _ => Early(BAD_PARAMETER, None)
  }

  /** The shared secret of a session, from the entity's secret and the two nonces. */
  type Sharing = (nat, Nonce, Nonce) -> nat

  /** `secret` is the entity's, if it has one. */
  function Osap(st: State, share: Sharing, entity: nat, value: nat, secret: Option<nat>, odd: Nonce,
                even: Nonce, evenOsap: Nonce): (r: (State, Reply))
    requires Sized(st)
    ensures Sized(r.0)
  {
    var i := FreeFrom(st.sessions, 0);
    if i == MAX_SESSIONS then (st, Failed(RESOURCES))
    else
      var s := st.sessions[i].(kind := OSAP);
      match OsapTarget(entity, value)
      case Early(code, None) => (Put(st, i, s), Failed(code))
      case Early(code, Some(h)) => (Put(st, i, s.(handle := h)), Failed(code))
      case Entity(h) =>
        if secret.None? then (Put(st, i, EMPTY), Failed(BAD_PARAMETER))
        else
          (Put(st, i, s.(handle := h, entity := entity, even := even,
                         secret := share(secret.value, evenOsap, odd))),
           Opened(HandleOf(RT_AUTH, i)))
  }

  /** The outcome of the checks of TPM_DSAP: refused with the slot kept, or accepted. */
  datatype Outcome = Refused | Accepted(handle: nat, rights: Rights, secret: nat)

  function Dsap(st: State, share: Sharing, entity: nat, d: Outcome, odd: Nonce, even: Nonce,
                evenDsap: Nonce): (r: (State, Reply))
    requires Sized(st)
    ensures Sized(r.0)
  {
    var i := FreeFrom(st.sessions, 0);
    if i == MAX_SESSIONS then (st, Failed(RESOURCES))
    else
      var s := st.sessions[i].(kind := DSAP);
      match d
      case Refused => (Put(st, i, s), Failed(REFUSED))
      case Accepted(h, rights, secret) =>
        (Put(st, i, s.(handle := h, rights := rights, entity := entity, even := even,
                       secret := share(secret, evenDsap, odd))),
         Opened(HandleOf(RT_AUTH, i)))
  }

  // ---- tpm_verify_auth

  /** The caller's side of an authorization, with the ordinal of the command. */
  datatype Auth = Auth(handle: nat, ordinal: nat, digest: nat, odd: Nonce, continued: bool, mac: nat)

  /** The keyed digest over the parameter digest, both nonces and the continue flag. */
  type Keyed = (nat, nat, Nonce, Nonce, bool) -> nat

  /** Whether rights of a known type allow a command. */
  type Permits = (Rights, nat) -> bool

  /** The tables of delegable commands. */
  function Tables(): Permits {
    (r: Rights, ordinal: nat) => Delegation.Permitted(r.kind, ordinal, r.per1)
  }

  /** What a delegated session objects to a command. */
  function Objection(permits: Permits, r: Rights, ordinal: nat): Option<Code> {
    if r.kind != Delegation.OWNER_BITS && r.kind != Delegation.KEY_BITS then Some(AUTHFAIL)
    else if !permits(r, ordinal) then Some(DISABLED_CMD)
    else None
  }

  /** With the tables of the source this is the rule that the delegation commands follow. */
  lemma TablesAgree(r: Rights, handle: nat, ordinal: nat)
    ensures var s := Delegation.Slot(Delegation.DSAP, handle, r.family, r.kind, r.per1, r.per2);
      Objection(Tables(), r, ordinal).None? <==> Delegation.Verify(s, true, handle, ordinal).None?
  {}

  function Verify(st: State, keyed: Keyed, permits: Permits, a: Auth, secret: nat, handle: nat, next: Nonce)
    : (r: (State, Reply))
    requires Sized(st)
    ensures Sized(r.0)
  {
    var slot := if AuthSlot(st, a.handle).Some? then AuthSlot(st, a.handle) else TransportSlot(st, a.handle);
    match slot
    case None => (st, Failed(INVALID_AUTHHANDLE))
    case Some(i) =>
      var s := st.sessions[i];
      if (s.kind == OSAP || s.kind == DSAP) && s.handle != handle then (st, Failed(AUTHFAIL))
      else if s.kind == DSAP && Objection(permits, s.rights, a.ordinal).Some? then
        (st, Failed(Objection(permits, s.rights, a.ordinal).value))
      else
        var t := if s.kind == OIAP then s.(secret := secret)
                 else if s.kind == TRANSPORT then s.(secret := s.transport) else s;
        if keyed(t.secret, a.digest, t.even, a.odd, a.continued) != a.mac then (Put(st, i, t), Failed(AUTHFAIL))
        else (Put(st, i, t.(last := t.even, even := next)), Authorized(t.even))
  }

  // ---- TPM_SaveContext

  /** The slot that a save names, with the data it saves. */
  function Source(st: State, h: nat, resource: nat): Option<Saved>
    requires Sized(st)
  {
    if resource == RT_AUTH then
      match AuthSlot(st, h) case None => None case Some(i) => Some(OfSession(st.sessions[i]))
    else if resource == RT_TRANS then
      match TransportSlot(st, h) case None => None case Some(i) => Some(OfSession(st.sessions[i]))
    else if resource == RT_DAA_TPM then
      match DaaSlot(st, h) case None => None case Some(i) => Some(OfDaa(st.daa[i]))
    else None
  }

  /** The resource leaves its slot: a session only loses its type, a DAA session everything. */
  function Evicted(st: State, h: nat, resource: nat): (r: State)
    requires Sized(st) && Source(st, h, resource).Some?
    ensures Sized(r)
  {
    if resource == RT_DAA_TPM then st.(daa := st.daa[Index(h) := EMPTY_DAA], current := 0)
    else Put(st, Index(h), st.sessions[Index(h)].(kind := INVALID))
  }

  function Save(st: State, h: nat, resource: nat, name: nat, iv: nat): (r: (State, Reply))
    requires Sized(st)
    ensures Sized(r.0)
  {
    match Source(st, h, resource)
    case None => (st, Failed(INVALID_RESOURCE))
    case Some(data) =>
      if st.count >= 0xffff_fffc then (st, Failed(TOOMANYCONTEXTS))
      else
        var i := FindFrom(st.list, 0, 0);
        if i == MAX_SESSION_LIST then (st.(count := st.count + 1), Failed(NOCONTEXTSPACE))
        else
          var count := st.count + 2;
          var blob := Blob(resource, h, name, count, iv, st.nonce, data);
          (Evicted(st, h, resource).(count := count, list := st.list[i := count]), Issued(blob))
  }

  // ---- TPM_LoadContext

  /** The fields that are not marshalled for the session's type come back as whatever was in
      memory. */
  function Reloaded(s: Session, residue: (Rights, nat)): Session {
    s.(rights := if s.kind == DSAP then s.rights else residue.0,
       transport := if s.kind == TRANSPORT then s.transport else residue.1)
  }

  function SessionHandle(kind: nat, i: nat): nat {
    HandleOf(if kind == TRANSPORT then RT_TRANS else RT_AUTH, i)
  }

  /** The slot for a reloaded session and its handle: the one asked for if it is free, else a
      free one unless the handle has to be kept. */
  function LoadSlot(st: State, h: nat, keep: bool, kind: nat): (r: (nat, nat, Code))
    requires Sized(st)
    ensures r.0 <= MAX_SESSIONS && (r.0 < MAX_SESSIONS ==> st.sessions[r.0].kind == INVALID)
  {
    if h != INVALID_HANDLE && Index(h) < MAX_SESSIONS && st.sessions[Index(h)].kind == INVALID then
      (Index(h), h, BAD_HANDLE)
    else if keep then (MAX_SESSIONS, 0, BAD_HANDLE)
    else (FreeFrom(st.sessions, 0), SessionHandle(kind, FreeFrom(st.sessions, 0)), RESOURCES)
  }

  function LoadDaaSlot(st: State, h: nat, keep: bool): (r: (nat, nat, Code))
    requires Sized(st)
    ensures r.0 <= MAX_SESSIONS_DAA && (r.0 < MAX_SESSIONS_DAA ==> st.daa[r.0].kind == INVALID)
  {
    if h != INVALID_HANDLE && Index(h) < MAX_SESSIONS_DAA && st.daa[Index(h)].kind == INVALID
       && Resource(h) == RT_DAA_TPM then (Index(h), h, BAD_HANDLE)
    else if keep then (MAX_SESSIONS_DAA, 0, BAD_HANDLE)
    else (FreeDaaFrom(st.daa, 0), HandleOf(RT_DAA_TPM, FreeDaaFrom(st.daa, 0)), RESOURCES)
  }

  /** The key of an OSAP session has to be there. */
  predicate KeyMissing(keys: Keys, b: Blob) {
    b.saved.OfSession? && b.saved.session.kind == OSAP && !HasKey(keys, b.saved.session.handle)
  }

  /** `genuine` is what the integrity digest says. */
  function Load(st: State, genuine: bool, h: nat, keep: bool, b: Blob, keys: Keys,
                residue: (Rights, nat)): (r: (State, Reply))
    requires Sized(st)
    ensures Sized(r.0)
  {
    if !genuine || b.nonce != st.nonce then (st, Failed(BADCONTEXT))
    else if KeyMissing(keys, b) then (st, Failed(RESOURCEMISSING))
    else
      var i := FindFrom(st.list, b.count, 0);
      if i == MAX_SESSION_LIST then (st, Failed(BADCONTEXT))
      else
        var t := st.(list := st.list[i := 0]);
        match b.saved
        case OfSession(s) =>
          var (k, handle, code) := LoadSlot(t, h, keep, s.kind);
          if k == MAX_SESSIONS then (t, Failed(code))
          else (Put(t, k, Reloaded(s, residue)), Loaded(handle))
        case OfDaa(d) =>
          var (k, handle, code) := LoadDaaSlot(t, h, keep);
          if k == MAX_SESSIONS_DAA then (t, Failed(code))
          else (t.(daa := t.daa[k := d], current := handle), Loaded(handle))
  }

  // ---- TPM_FlushSpecific, tpm_invalidate_sessions and TPM_Startup(TPM_ST_CLEAR)

  predicate BoundTo(s: Session, h: nat) {
    s.kind in {OSAP, DSAP, TRANSPORT} && s.handle == h
  }

  function Invalidated(s: seq<Session>, h: nat): (r: seq<Session>)
    ensures |r| == |s|
  {
    seq(|s|, i requires 0 <= i < |s| => if BoundTo(s[i], h) then EMPTY else s[i])
  }

  /** The key of a flush with RT_KEY is released outside this state; its sessions go with it. */
  function Flush(st: State, h: nat, resource: nat, keys: Keys): (r: (State, Reply))
    requires Sized(st)
    ensures Sized(r.0)
  {
    if resource == RT_KEY then
      if !HasKey(keys, h) then (st, Done)
      else if h in keys.controlled then (st, Failed(KEY_OWNER_CONTROL))
      else if h == KH_SRK then (st, Failed(FAIL))
      else (st.(sessions := Invalidated(st.sessions, h)), Done)
    else if resource == RT_CONTEXT then
      var i := FindFrom(st.list, h, 0);
      (if i < MAX_SESSION_LIST then st.(list := st.list[i := 0]) else st, Done)
    else if resource == RT_AUTH then
      match AuthSlot(st, h) case None => (st, Done) case Some(i) => (Put(st, i, EMPTY), Done)
    else if resource == RT_TRANS then
      match TransportSlot(st, h) case None => (st, Done) case Some(i) => (Put(st, i, EMPTY), Done)
    else if resource == RT_DAA_TPM then
      match DaaSlot(st, h)
      case None => (st, Done)
      case Some(i) =>
        (st.(daa := st.daa[i := EMPTY_DAA], current := if h == st.current then 0 else st.current,
             sessions := Invalidated(st.sessions, h)), Done)
    else (st, Failed(INVALID_RESOURCE))
  }

  function Cleared(nonce: Nonce): (st: State)
    ensures Sized(st)
  {
    State(seq(MAX_SESSIONS, _ => EMPTY), seq(MAX_SESSIONS_DAA, _ => EMPTY_DAA), seq(MAX_SESSION_LIST, _ => 0), 0,
          nonce, 0)
  }
}
