/** What each counter command does, told by the fields of the counters
    (tpm-emulator/tpm/tpm_counter.c, tpm-emulator/mtm/mtm_counter.c). */
module CounterLaws {
  import opened Wrappers
  import opened Counters

  /** The handle of counter `i`, which is there. */
  predicate Holds(st: State, h: nat, i: nat)
    requires Sized(st)
  {
    i < 4 && h == 0x0600_0000 + i && st.counters[i].valid
  }

  lemma NamedCounters(st: State, h: nat)
    requires Sized(st)
    ensures Names(st, h) <==> Holds(st, h, h % 0x100_0000)
    ensures forall i: nat :: Holds(st, h, i) ==> i == h % 0x100_0000
  {
    assert h == 0x100_0000 * (h / 0x100_0000) + h % 0x100_0000;
  }

  /** A counter that would be created in slot `i` has to exceed the value `v`, and some counter or
      the slot itself has it, or it is zero. */
  predicate Tops(st: State, i: nat, v: nat)
    requires Sized(st) && i < 4
  {
    && (forall j :: 0 <= j < 4 && (st.counters[j].valid || j == i) ==> st.counters[j].value <= v)
    && (v == 0 || exists j :: 0 <= j < 4 && (st.counters[j].valid || j == i) && st.counters[j].value == v)
  }

  /** TPM_CreateCounter takes the first free slot. It keeps it in use even if the authorization
      fails; else the counter gets name, secret and the value after the largest. */
  lemma CreatesExactly(st: State, name: nat, secret: nat, denied: Option<Code>, i: nat, v: nat)
    requires Sized(st)
    ensures var (now, r) := Create(st, name, secret, denied);
      && ((forall j :: 0 <= j < 4 ==> st.counters[j].valid) ==> now == st && r == Failed(SIZE))
      && (i < 4 && !st.counters[i].valid && (forall j :: 0 <= j < i ==> st.counters[j].valid) ==>
            && (denied.Some? ==>
                  && r == Failed(denied.value)
                  && now == st.(counters := st.counters[i := st.counters[i].(valid := true)]))
            && (denied.None? && Tops(st, i, v) ==>
                  && r == Created(0x0600_0000 + i, (v + 1) % 0x1_0000_0000)
                  && now == st.(counters :=
                       st.counters[i := Counter(true, (v + 1) % 0x1_0000_0000, name, secret)])))
  {
    var k := FreeFrom(st.counters, 0);
    FreeIsFirst(st.counters, 0);
    if k < 4 && i < 4 && !st.counters[i].valid && forall j :: 0 <= j < i ==> st.counters[j].valid {
      assert i == k;
      if Tops(st, i, v) { LargestIs(st, i, v); }
    }
  }

  lemma {:induction false} FreeIsFirst(c: seq<Counter>, i: nat)
    requires i <= |c| && forall j :: 0 <= j < i ==> c[j].valid
    ensures forall j :: 0 <= j < FreeFrom(c, i) ==> c[j].valid
    decreases |c| - i
  {
    if i < |c| && c[i].valid { FreeIsFirst(c, i + 1); }
  }

  lemma LargestIs(st: State, i: nat, v: nat)
    requires Sized(st) && i < 4 && Tops(st, i, v)
    ensures var t := Set(st, i, st.counters[i].(valid := true)); MaxOf(t.counters, 4) == v
  {
    var c := Set(st, i, st.counters[i].(valid := true)).counters;
    var m := MaxOf(c, 4);
    assert forall j :: 0 <= j < 4 ==> c[j].value == st.counters[j].value;
    assert forall j :: 0 <= j < 4 ==> (c[j].valid <==> st.counters[j].valid || j == i);
  }

  /** TPM_IncrementCounter: only the counter selected in this boot cycle moves, by one. */
  lemma IncrementsExactly(st: State, h: nat, denied: Option<Code>, i: nat)
    requires Sized(st)
    ensures var (now, r) := Increment(st, h, denied);
      var blocked := Holds(st, st.selected, st.selected % 0x100_0000) && st.selected != h;
      && (!Holds(st, h, h % 0x100_0000) ==> now == st && r == Failed(BAD_COUNTER))
      && (Holds(st, h, i) && denied.Some? ==> now == st && r == Failed(denied.value))
      && (Holds(st, h, i) && denied.None? && blocked ==> now == st && r == Failed(BAD_COUNTER))
      && (Holds(st, h, i) && denied.None? && !blocked ==>
            var v := (st.counters[i].value + 1) % 0x1_0000_0000;
            && r == Counted(v)
            && now == st.(counters := st.counters[i := st.counters[i].(value := v)], selected := h))
  {
    NamedCounters(st, h);
    NamedCounters(st, st.selected);
  }

  /** TPM_ReleaseCounter, and in the mobile build the guard before it. */
  lemma ReleasesExactly(st: State, h: nat, denied: Option<Code>, i: nat)
    requires Sized(st)
    ensures var (now, r) := Release(st, h, denied);
      && (!Holds(st, h, h % 0x100_0000) ==> now == st && r == Failed(BAD_COUNTER))
      && (Holds(st, h, i) && denied.Some? ==> now == st && r == Failed(denied.value))
      && (Holds(st, h, i) && denied.None? ==>
            && r == Done && now.counters == st.counters[i := Counter(false, 0, 0, 0)]
            && now.selected == if st.selected == h then 0xffff_ffff else st.selected)
    ensures MobileRelease(st, h, denied) ==
      if h % 0x100_0000 in {1, 2, 3} then (st, Failed(FAIL)) else Release(st, h, denied)
  {
    NamedCounters(st, h);
  }

  /** MTM_IncrementBootstrapCounter, once the certificate is verified. */
  lemma RaisesExactly(st: State, selection: nat, value: nat)
    requires Sized(st)
    ensures var (now, r) := RaiseBootstrap(st, selection, value);
      && (selection > 3 || (selection == 1 && value < st.counters[1].value) ==> now == st && r == Failed(BAD_COUNTER))
      && (selection in {0, 2, 3} ==> now == st && r == Done)
      && (selection == 1 && value >= st.counters[1].value ==>
            r == Done && now == st.(counters := st.counters[1 := st.counters[1].(value := value)]))
  {}

  /** A startup keeps the counters and lets any of them be incremented next. */
  lemma StartupFrees(st: State)
    requires Sized(st)
    ensures Act(st, StartupClear) == (st.(selected := 0xffff_ffff), Done)
  {}

  // ---- counting

  /** How often the run incremented counter `i`. */
  function Counting(st: State, events: seq<Event>, i: nat): (n: nat)
    requires Sized(st) && i < 4
  {
    if events == [] then 0
    else
      var before, e := events[..|events| - 1], events[|events| - 1];
      Counting(st, before, i)
      + if e.IncrementCounter? && e.handle == 0x0600_0000 + i && Act(Run(st, before), e).1.Counted? then 1 else 0
  }

  /** The command leaves counter `i` alone or increments it. */
  predicate OnlyCounts(e: Event, i: nat) {
    match e
    case ReleaseCounter(h, _) => h % 0x100_0000 != i
    case MobileReleaseCounter(h, _) => h % 0x100_0000 != i
    case IncrementBootstrap(_, _) => i != 1
    case _ => true
  }

  /** Over every run without a release of it: a counter has moved by exactly the number of its
      successful increments, modulo 2^32, and keeps its name and secret. */
  lemma {:induction false} CountsIncrements(st: State, events: seq<Event>, i: nat)
    requires Sized(st) && i < 4 && st.counters[i].valid && st.counters[i].value < 0x1_0000_0000
    requires forall n :: 0 <= n < |events| ==> OnlyCounts(events[n], i)
    ensures Run(st, events).counters[i] ==
      st.counters[i].(value := (st.counters[i].value + Counting(st, events, i)) % 0x1_0000_0000)
  {
    if events != [] {
      var m := |events| - 1;
      RunPrefix(st, events);
      CountsIncrements(st, events[..m], i);
      CountStep(Run(st, events[..m]), events[m], i);
      NextMod(st.counters[i].value + Counting(st, events[..m], i));
    }
  }

  lemma NextMod(v: nat)
    ensures (v % 0x1_0000_0000 + 1) % 0x1_0000_0000 == (v + 1) % 0x1_0000_0000
  {}

  lemma CountStep(st: State, e: Event, i: nat)
    requires Sized(st) && i < 4 && st.counters[i].valid && OnlyCounts(e, i)
    ensures var c := Act(st, e).0.counters[i];
      c == if e.IncrementCounter? && e.handle == 0x0600_0000 + i && Act(st, e).1.Counted?
           then st.counters[i].(value := (st.counters[i].value + 1) % 0x1_0000_0000) else st.counters[i]
  {
    if e.IncrementCounter? { NamedCounters(st, e.handle); }
  }
}
