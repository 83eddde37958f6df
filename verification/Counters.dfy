/** Monotonic counters (tpm-emulator/tpm/tpm_counter.c), the guards of the mobile build
    (tpm-emulator/mtm/mtm_counter.c) and the bootstrap counter of
    tpm-emulator/mtm/mtm_verification.c. */
module Counters {
  import opened Wrappers

  const MAX_COUNTERS: nat := 4
  const RT_COUNTER: nat := 6
  const INVALID_HANDLE: nat := 0xffff_ffff
  const LIMIT: nat := 0xffff_ffff
  const BOOTSTRAP: nat := 1
  const RIMPROTECT: nat := 2
  const STORAGEPROTECT: nat := 3

  datatype Counter = Counter(valid: bool, value: nat, name: nat, secret: nat)

  const NO_COUNTER: Counter := Counter(false, 0, 0, 0)

  /** `selected` is the countID of the current boot cycle. */
  datatype State = State(counters: seq<Counter>, selected: nat)

  predicate Sized(st: State) {
    |st.counters| == MAX_COUNTERS
  }

  datatype Code = SIZE | AUTHFAIL | BAD_COUNTER | FAIL | OTHER

  datatype Reply = Done | Created(handle: nat, value: nat) | Counted(value: nat) | Failed(code: Code)

  function Index(h: nat): nat {
    h % 0x100_0000
  }

  function HandleOf(i: nat): nat {
    RT_COUNTER * 0x100_0000 + i
  }

  /** `tpm_get_counter`. */
  predicate Names(st: State, h: nat)
    requires Sized(st)
  {
    h != INVALID_HANDLE && h / 0x100_0000 == RT_COUNTER && Index(h) < MAX_COUNTERS && st.counters[Index(h)].valid
  }

  lemma OneHandle(st: State, h: nat, g: nat)
    requires Sized(st) && Names(st, h) && Names(st, g) && Index(h) == Index(g)
    ensures h == g
  {
    assert h == 0x100_0000 * (h / 0x100_0000) + Index(h) && g == 0x100_0000 * (g / 0x100_0000) + Index(g);
  }

  function FreeFrom(c: seq<Counter>, i: nat): (k: nat)
    requires i <= |c|
    ensures i <= k <= |c| && (k < |c| ==> !c[k].valid)
    decreases |c| - i
  {
    if i == |c| || !c[i].valid then i else FreeFrom(c, i + 1)
  }

  /** The largest value of a valid counter among the first `n`. */
  function MaxOf(c: seq<Counter>, n: nat): (m: nat)
    requires n <= |c|
    ensures forall i :: 0 <= i < n && c[i].valid ==> c[i].value <= m
    ensures m == 0 || exists i :: 0 <= i < n && c[i].valid && c[i].value == m
  {
    if n == 0 then 0
    else
      var m := MaxOf(c, n - 1);
      if c[n - 1].valid && c[n - 1].value > m then c[n - 1].value else m
  }

  /** `UINT32` increment. */
  function Next(v: nat): nat {
    (v + 1) % (LIMIT + 1)
  }

  function Set(st: State, i: nat, c: Counter): (r: State)
    requires Sized(st) && i < MAX_COUNTERS
    ensures Sized(r)
  {
    st.(counters := st.counters[i := c])
  }

  /** TPM_CreateCounter: the slot is taken before the authorization is checked, and kept. */
  function Create(st: State, name: nat, secret: nat, denied: Option<Code>): (r: (State, Reply))
    requires Sized(st)
    ensures Sized(r.0)
  {
    var i := FreeFrom(st.counters, 0);
    if i == MAX_COUNTERS then (st, Failed(SIZE))
    else
      var t := Set(st, i, st.counters[i].(valid := true));
      if denied.Some? then (t, Failed(denied.value))
      else
        var v := Next(MaxOf(t.counters, MAX_COUNTERS));
        (Set(t, i, Counter(true, v, name, secret)), Created(HandleOf(i), v))
  }

  function Increment(st: State, h: nat, denied: Option<Code>): (r: (State, Reply))
    requires Sized(st)
    ensures Sized(r.0)
  {
    if !Names(st, h) then (st, Failed(BAD_COUNTER))
    else if denied.Some? then (st, Failed(denied.value))
    else if Names(st, st.selected) && st.selected != h then (st, Failed(BAD_COUNTER))
    else
      var c := st.counters[Index(h)];
      (Set(st, Index(h), c.(value := Next(c.value))).(selected := h), Counted(Next(c.value)))
  }

  /** TPM_ReleaseCounter and TPM_ReleaseCounterOwner differ in the authorization only. */
  function Release(st: State, h: nat, denied: Option<Code>): (r: (State, Reply))
    requires Sized(st)
    ensures Sized(r.0)
  {
    if !Names(st, h) then (st, Failed(BAD_COUNTER))
    else if denied.Some? then (st, Failed(denied.value))
    else
      (Set(st, Index(h), NO_COUNTER).(selected := if st.selected == h then INVALID_HANDLE else st.selected), Done)
  }

  /** MTM_ReleaseCounter and MTM_ReleaseCounterOwner. */
  function MobileRelease(st: State, h: nat, denied: Option<Code>): (r: (State, Reply))
    requires Sized(st)
    ensures Sized(r.0)
  {
    if Index(h) in {BOOTSTRAP, RIMPROTECT, STORAGEPROTECT} then (st, Failed(FAIL)) else Release(st, h, denied)
  }

  /** The last step of MTM_IncrementBootstrapCounter, once the certificate is verified. */
  function RaiseBootstrap(st: State, selection: nat, value: nat): (r: (State, Reply))
    requires Sized(st)
    ensures Sized(r.0)
  {
    if selection > STORAGEPROTECT then (st, Failed(BAD_COUNTER))
    else if selection != BOOTSTRAP then (st, Done)
    else if value < st.counters[BOOTSTRAP].value then (st, Failed(BAD_COUNTER))
    else (Set(st, BOOTSTRAP, st.counters[BOOTSTRAP].(value := value)), Done)
  }

  // ---- runs

  datatype Event =
    | CreateCounter(name: nat, secret: nat, denied: Option<Code>)
    | IncrementCounter(handle: nat, denied: Option<Code>)
    | ReleaseCounter(handle: nat, denied: Option<Code>)
    | MobileReleaseCounter(handle: nat, denied: Option<Code>)
    | IncrementBootstrap(selection: nat, value: nat)
    | StartupClear

  function Act(st: State, e: Event): (r: (State, Reply))
    requires Sized(st)
    ensures Sized(r.0)
  {
    match e
    case CreateCounter(name, secret, denied) => Create(st, name, secret, denied)
    case IncrementCounter(h, denied) => Increment(st, h, denied)
    case ReleaseCounter(h, denied) => Release(st, h, denied)
    case MobileReleaseCounter(h, denied) => MobileRelease(st, h, denied)
    case IncrementBootstrap(selection, value) => RaiseBootstrap(st, selection, value)
    case StartupClear => (st.(selected := INVALID_HANDLE), Done)
  }

  function Run(st: State, events: seq<Event>): (r: State)
    requires Sized(st)
    ensures Sized(r)
  {
    if events == [] then st else Act(Run(st, events[..|events| - 1]), events[|events| - 1]).0
  }

  /** Every counter can still be incremented. */
  ghost predicate BelowLimit(st: State) {
    Sized(st) && forall i :: 0 <= i < MAX_COUNTERS ==> st.counters[i].value < LIMIT
  }

  ghost predicate AllBelow(st: State, events: seq<Event>)
    requires Sized(st)
  {
    forall n :: 0 <= n < |events| ==> BelowLimit(Run(st, events[..n]))
  }

  /** The command releases the counter in slot `i`. */
  predicate Frees(st: State, e: Event, i: nat)
    requires Sized(st)
  {
    && (e.ReleaseCounter? || e.MobileReleaseCounter?) && Index(e.handle) == i
    && Act(st, e).1 == Done
  }

  /** A counter that is not released stays valid and never goes down. */
  lemma StepGrows(st: State, e: Event, i: nat)
    requires BelowLimit(st) && i < MAX_COUNTERS && st.counters[i].valid && !Frees(st, e, i)
    ensures var c := Act(st, e).0.counters[i]; c.valid && c.value >= st.counters[i].value
  {}

  ghost predicate NeverFrees(st: State, events: seq<Event>, i: nat)
    requires Sized(st)
  {
    forall n :: 0 <= n < |events| ==> !Frees(Run(st, events[..n]), events[n], i)
  }

  lemma RunPrefix(st: State, events: seq<Event>)
    requires Sized(st) && events != []
    ensures var m := |events| - 1; var before := events[..m];
      Run(st, events) == Act(Run(st, before), events[m]).0 && events[..m] == before
      && forall n :: 0 <= n <= m ==> before[..n] == events[..n]
  {}

  /** Over every run: valid at the start and not released means valid at the end, and no lower. */
  lemma {:induction false} NeverDecreases(st: State, events: seq<Event>, i: nat)
    requires Sized(st) && i < MAX_COUNTERS && st.counters[i].valid
    requires AllBelow(st, events) && NeverFrees(st, events, i)
    ensures var c := Run(st, events).counters[i]; c.valid && c.value >= st.counters[i].value
  {
    if events != [] {
      var m := |events| - 1;
      RunPrefix(st, events);
      assert events[..m][..m] == events[..m];
      NeverDecreases(st, events[..m], i);
      StepGrows(Run(st, events[..m]), events[m], i);
    }
  }

  /** A created counter exceeds every valid one exactly when their maximum, together with what
      the slot still holds, is below the limit. */
  lemma CreatedExceeds(st: State, name: nat, secret: nat)
    requires Sized(st) && (forall i :: 0 <= i < MAX_COUNTERS ==> st.counters[i].value <= LIMIT)
    requires Create(st, name, secret, None).1.Created?
    ensures var k := FreeFrom(st.counters, 0); var r := Create(st, name, secret, None).0;
      (forall i :: 0 <= i < MAX_COUNTERS && st.counters[i].valid ==> st.counters[i].value < r.counters[k].value)
        && st.counters[k].value < r.counters[k].value
      <==> (forall i :: 0 <= i < MAX_COUNTERS && (st.counters[i].valid || i == k) ==> st.counters[i].value < LIMIT)
  {
    var k := FreeFrom(st.counters, 0);
    var t := Set(st, k, st.counters[k].(valid := true));
    var m := MaxOf(t.counters, MAX_COUNTERS);
    assert forall i :: 0 <= i < MAX_COUNTERS && i != k ==> t.counters[i] == st.counters[i];
    assert t.counters[k].value == st.counters[k].value;
    assert m <= LIMIT;
  }

  // ---- one counter per boot cycle

  /** Once incremented, a counter stays selected until it is released or the TPM restarts. */
  ghost predicate Pinned(st: State, h: nat) {
    Sized(st) && st.selected == h && Names(st, h)
  }

  lemma IncrementPins(st: State, h: nat, denied: Option<Code>)
    requires Sized(st) && Increment(st, h, denied).1.Counted?
    ensures Pinned(Increment(st, h, denied).0, h)
  {}

  lemma StepPinned(st: State, e: Event, h: nat)
    requires Pinned(st, h) && !e.StartupClear? && !Frees(st, e, Index(h))
    ensures Pinned(Act(st, e).0, h)
    ensures e.IncrementCounter? && Act(st, e).1.Counted? ==> e.handle == h
  {
    if e.ReleaseCounter? || e.MobileReleaseCounter? {
      if Names(st, e.handle) && Index(e.handle) == Index(h) { OneHandle(st, e.handle, h); }
    }
  }

  predicate Increments(st: State, e: Event, h: nat)
    requires Sized(st)
  {
    e.IncrementCounter? && e.handle == h && Act(st, e).1.Counted?
  }

  /** Event `n` neither restarts the TPM nor releases counter `h`. */
  predicate Quiet(st: State, events: seq<Event>, n: int, h: nat)
    requires Sized(st)
  {
    0 <= n < |events| && !events[n].StartupClear? && !Frees(Run(st, events[..n]), events[n], Index(h))
  }

  lemma {:induction false} StaysPinned(st: State, events: seq<Event>, a: nat, b: nat, h: nat)
    requires Sized(st) && a < b <= |events| && Increments(Run(st, events[..a]), events[a], h)
    requires forall n :: a < n < b ==> Quiet(st, events, n, h)
    ensures Pinned(Run(st, events[..b]), h)
    decreases b
  {
    if b == a + 1 {
      RunMore(st, events, a);
      IncrementPins(Run(st, events[..a]), h, events[a].denied);
    } else {
      assert Quiet(st, events, b - 1, h);
      StaysPinned(st, events, a, b - 1, h);
      RunMore(st, events, b - 1);
      StepPinned(Run(st, events[..b - 1]), events[b - 1], h);
    }
  }

  lemma RunMore(st: State, events: seq<Event>, n: nat)
    requires Sized(st) && n < |events|
    ensures Run(st, events[..n + 1]) == Act(Run(st, events[..n]), events[n]).0
  {
    assert events[..n + 1][..n] == events[..n];
  }

  /** Two increments of different counters in one boot cycle have a release of the first between
      them. */
  lemma ReleaseBetween(st: State, events: seq<Event>, a: nat, b: nat, g: nat, h: nat)
    requires Sized(st) && a < b < |events| && g != h
    requires Increments(Run(st, events[..a]), events[a], g) && Increments(Run(st, events[..b]), events[b], h)
    requires forall n :: a < n < b ==> !events[n].StartupClear?
    ensures exists n :: a < n < b && Frees(Run(st, events[..n]), events[n], Index(g))
  {
    if forall n :: a < n < b ==> Quiet(st, events, n, g) {
      StaysPinned(st, events, a, b, g);
      StepPinned(Run(st, events[..b]), events[b], g);
      assert false;
    } else {
      var n :| a < n < b && !Quiet(st, events, n, g);
      assert Frees(Run(st, events[..n]), events[n], Index(g));
    }
  }

  // ---- the bootstrap counter of the mobile build

  /** In the mobile build only the guarded releases exist. */
  ghost predicate Mobile(events: seq<Event>) {
    forall n :: 0 <= n < |events| ==> !events[n].ReleaseCounter?
  }

  lemma BootstrapStep(st: State, e: Event)
    requires BelowLimit(st) && !e.ReleaseCounter?
    ensures Act(st, e).0.counters[BOOTSTRAP].value >= st.counters[BOOTSTRAP].value
    ensures st.counters[BOOTSTRAP].valid ==> Act(st, e).0.counters[BOOTSTRAP].valid
    ensures !Frees(st, e, BOOTSTRAP)
  {
    if e.CreateCounter? { CreateKeepsValue(st, e.name, e.secret, e.denied, BOOTSTRAP); }
  }

  /** Creating a counter lowers no slot, not even the one it takes. */
  lemma CreateKeepsValue(st: State, name: nat, secret: nat, denied: Option<Code>, i: nat)
    requires BelowLimit(st) && i < MAX_COUNTERS
    ensures Create(st, name, secret, denied).0.counters[i].value >= st.counters[i].value
  {
    var k := FreeFrom(st.counters, 0);
    if k < MAX_COUNTERS {
      var t := Set(st, k, st.counters[k].(valid := true));
      MaxBetween(t.counters, |t.counters|, k);
    }
  }

  lemma MaxBetween(c: seq<Counter>, n: nat, k: nat)
    requires k < n <= |c| && c[k].valid && forall i :: 0 <= i < n ==> c[i].value < LIMIT
    ensures c[k].value <= MaxOf(c, n) < LIMIT
  {}

  /** Over every run of the mobile build the bootstrap counter is never released or lowered,
      whether or not it was created. */
  lemma {:induction false} BootstrapNeverLowered(st: State, events: seq<Event>)
    requires Sized(st) && AllBelow(st, events) && Mobile(events)
    ensures Run(st, events).counters[BOOTSTRAP].value >= st.counters[BOOTSTRAP].value
    ensures st.counters[BOOTSTRAP].valid ==> Run(st, events).counters[BOOTSTRAP].valid
  {
    if events != [] {
      var m := |events| - 1;
      RunPrefix(st, events);
      assert events[..m][..m] == events[..m];
      BootstrapNeverLowered(st, events[..m]);
      BootstrapStep(Run(st, events[..m]), events[m]);
    }
  }

  /** At the limit an increment starts again from zero. */
  lemma IncrementWraps(st: State, h: nat)
    requires Sized(st) && Names(st, h) && (!Names(st, st.selected) || st.selected == h)
    requires st.counters[Index(h)].value <= LIMIT
    ensures Increment(st, h, None).0.counters[Index(h)].value > st.counters[Index(h)].value
       <==> st.counters[Index(h)].value < LIMIT
  {}

  // ---- the commands in place

  class Tpm {
    const counters: array<Counter>
    var selected: nat

    /** The counters incremented since the last startup and not released since. */
    ghost var cycle: set<nat>

    ghost predicate Shape()
      reads this
    {
      counters.Length == MAX_COUNTERS
    }

    function Value(): State
      reads this, counters
    {
      State(counters[..], selected)
    }

    /** A counter that was incremented stays the selected one. */
    ghost predicate Valid()
      reads this, counters
    {
      Shape() && forall h :: h in cycle ==> Pinned(Value(), h)
    }

    constructor ()
      ensures Valid() && selected == INVALID_HANDLE && cycle == {}
      ensures forall i :: 0 <= i < MAX_COUNTERS ==> counters[i] == NO_COUNTER
    {
      counters := new Counter[MAX_COUNTERS](_ => NO_COUNTER);
      selected := INVALID_HANDLE;
      cycle := {};
    }

    /** The clear branch of TPM_Startup: a new boot cycle begins. */
    method StartupClear()
      requires Valid()
      modifies this
      ensures Valid() && cycle == {} && Value() == Act(old(Value()), Event.StartupClear).0
    {
      selected := INVALID_HANDLE;
      cycle := {};
    }

    /** `get_max_counter_value`. */
    method Largest() returns (max: nat)
      requires Shape()
      ensures max == MaxOf(counters[..], MAX_COUNTERS)
    {
      max := 0;
      var i := 0;
      while i < MAX_COUNTERS
        invariant 0 <= i <= MAX_COUNTERS && max == MaxOf(counters[..], i)
      {
        if counters[i].valid && counters[i].value > max { max := counters[i].value; }
        i := i + 1;
      }
    }

    /** `get_free_counter`. */
    method Take() returns (i: nat)
      requires Shape()
      modifies counters
      ensures i == FreeFrom(old(counters[..]), 0)
      ensures i == MAX_COUNTERS ==> counters[..] == old(counters[..])
      ensures i < MAX_COUNTERS ==> counters[..] == old(counters[..])[i := old(counters[i]).(valid := true)]
    {
      i := 0;
      while i < MAX_COUNTERS && counters[i].valid
        invariant 0 <= i <= MAX_COUNTERS && FreeFrom(counters[..], 0) == FreeFrom(counters[..], i)
        invariant counters[..] == old(counters[..])
      {
        i := i + 1;
      }
      if i < MAX_COUNTERS { counters[i] := counters[i].(valid := true); }
    }

    /** A new counter exceeds every valid one as long as none is at the limit; no other counter
        changes. A failed authorization keeps the slot. */
    method CreateCounter(name: nat, secret: nat, denied: Option<Code>) returns (r: Reply)
      requires Valid()
      modifies counters
      ensures Valid() && (Value(), r) == Create(old(Value()), name, secret, denied)
      ensures r.Created? && BelowLimit(old(Value())) ==>
        forall i :: 0 <= i < MAX_COUNTERS && old(counters[i].valid) ==> old(counters[i].value) < r.value
      ensures forall i :: 0 <= i < MAX_COUNTERS && old(counters[i].valid) ==> counters[i] == old(counters[i])
    {
      if BelowLimit(Value()) && Create(Value(), name, secret, denied).1.Created? {
        CreatedExceeds(Value(), name, secret);
      }
      r := Make(name, secret, denied);
    }

    method Make(name: nat, secret: nat, denied: Option<Code>) returns (r: Reply)
      requires Shape()
      modifies counters
      ensures (Value(), r) == Create(old(Value()), name, secret, denied)
    {
      var i := Take();
      if i == MAX_COUNTERS { return Failed(SIZE); }
      if denied.Some? { return Failed(denied.value); }
      ghost var taken := counters[..];
      var max := Largest();
      counters[i] := counters[i].(name := name, secret := secret);
      counters[i] := counters[i].(value := Next(max));
      assert counters[..] == taken[i := Counter(true, Next(max), name, secret)];
      r := Created(HandleOf(i), Next(max));
    }

    /** An increment succeeds only if no other counter was incremented in this boot cycle and is
        still there; it adds one below the limit, and no other counter moves. */
    method IncrementCounter(h: nat, denied: Option<Code>) returns (r: Reply)
      requires Valid()
      modifies this, counters
      ensures Valid() && cycle == if r.Counted? then {h} else old(cycle)
      ensures r.Counted? ==>
        && old(cycle) <= {h} && Names(old(Value()), h) && selected == h
        && counters[..] == old(counters[..])[Index(h) := old(counters[..])[Index(h)].(value := r.value)]
        && (old(counters[..])[Index(h)].value < LIMIT ==> r.value == old(counters[..])[Index(h)].value + 1)
        && (old(counters[..])[Index(h)].value == LIMIT ==> r.value == 0)
      ensures r.Counted? <==>
        Names(old(Value()), h) && denied.None? && (old(selected) == h || !Names(old(Value()), old(selected)))
      ensures !r.Counted? ==> Value() == old(Value())
      ensures (Value(), r) == Increment(old(Value()), h, denied)
    {
      if !Names(Value(), h) { return Failed(BAD_COUNTER); }
      if denied.Some? { return Failed(denied.value); }
      if Names(Value(), selected) && selected != h { return Failed(BAD_COUNTER); }
      selected := h;
      counters[Index(h)] := counters[Index(h)].(value := Next(counters[Index(h)].value));
      r := Counted(counters[Index(h)].value);
      cycle := {h};
    }

    /** An authorized release of an existing counter, and nothing else, removes it, makes room in
        the boot cycle if it was the incremented one, and touches no other counter. */
    method ReleaseCounter(h: nat, denied: Option<Code>) returns (r: Reply)
      requires Valid()
      modifies this, counters
      ensures Valid() && cycle == if r == Done then old(cycle) - {h} else old(cycle)
      ensures r == Done <==> Names(old(Value()), h) && denied.None?
      ensures r == Done ==>
        && !Names(Value(), h) && counters[..] == old(counters[..])[Index(h) := NO_COUNTER]
        && selected == if old(selected) == h then INVALID_HANDLE else old(selected)
      ensures r != Done ==> Value() == old(Value())
      ensures (Value(), r) == Release(old(Value()), h, denied)
    {
      if !Names(Value(), h) { return Failed(BAD_COUNTER); }
      if denied.Some? { return Failed(denied.value); }
      forall g | g in cycle && g != h ensures Index(g) != Index(h) {
        if Index(g) == Index(h) { OneHandle(Value(), g, h); }
      }
      counters[Index(h)] := NO_COUNTER;
      if selected == h { selected := INVALID_HANDLE; }
      cycle := cycle - {h};
      r := Done;
    }

    /** In the mobile build the reserved counters survive every release, and all others are
        released as usual. */
    method MobileReleaseCounter(h: nat, denied: Option<Code>) returns (r: Reply)
      requires Valid()
      modifies this, counters
      ensures Valid() && cycle <= old(cycle)
      ensures forall i :: i in {BOOTSTRAP, RIMPROTECT, STORAGEPROTECT} ==> counters[i] == old(counters[..])[i]
      ensures r == Done <==>
        Names(old(Value()), h) && denied.None? && Index(h) !in {BOOTSTRAP, RIMPROTECT, STORAGEPROTECT}
      ensures r != Done ==> Value() == old(Value())
      ensures (Value(), r) == MobileRelease(old(Value()), h, denied)
    {
      var i := Index(h);
      if i == BOOTSTRAP || i == RIMPROTECT || i == STORAGEPROTECT { return Failed(FAIL); }
      r := ReleaseCounter(h, denied);
    }

    /** The bootstrap counter is never lowered: it takes the new value if that is not smaller, and
        no other counter changes. */
    method IncrementBootstrapCounter(selection: nat, value: nat) returns (r: Reply)
      requires Valid()
      modifies counters
      ensures Valid() && counters[BOOTSTRAP].value >= old(counters[BOOTSTRAP].value)
      ensures counters[..] == old(counters[..])[BOOTSTRAP := counters[BOOTSTRAP]]
      ensures counters[BOOTSTRAP] == old(counters[BOOTSTRAP]).(value := counters[BOOTSTRAP].value)
      ensures r == Done && selection == BOOTSTRAP ==> counters[BOOTSTRAP].value == value
      ensures selection == BOOTSTRAP ==> (r == Done <==> value >= old(counters[BOOTSTRAP].value))
      ensures (Value(), r) == RaiseBootstrap(old(Value()), selection, value)
    {
      if selection > STORAGEPROTECT { return Failed(BAD_COUNTER); }
      if selection == BOOTSTRAP {
        if value < counters[BOOTSTRAP].value { return Failed(BAD_COUNTER); }
        counters[BOOTSTRAP] := counters[BOOTSTRAP].(value := value);
      }
      r := Done;
    }
  }
}
