/** Platform configuration registers (tpm-emulator/tpm/tpm_integrity.c and the clear branch of
    tpm_startup.c): extend, reset and composite digest, and what they say about the log of
    extended digests. */
module Pcr {
  import opened Bytes
  import opened NumberTheory

  const NUM_PCR: nat := 24
  const DIGEST: nat := 20

  type Hash = seq<byte> -> seq<byte>

  function Ones(): (s: seq<byte>)
    ensures |s| == DIGEST
  {
    seq(DIGEST, _ => 0xff)
  }

  /** Bit `k` of a byte. */
  predicate Bit(b: byte, k: nat) {
    match k
    case 0 => b & 1 != 0
    case 1 => b & 2 != 0
    case 2 => b & 4 != 0
    case 3 => b & 8 != 0
    case 4 => b & 16 != 0
    case 5 => b & 32 != 0
    case 6 => b & 64 != 0
    case 7 => b & 128 != 0
    case _ => false
  }

  /** TPM_PCR_ATTRIBUTES. */
  datatype Attributes = Attributes(resettable: bool, resetLocal: byte, extendLocal: byte)

  datatype Code = BADINDEX | BAD_LOCALITY | INVALID_PCR_INFO | NOTRESETABLE | NOTLOCAL

  datatype Reply = Done | Failed(code: Code)

  /** A selection is the bytes that sizeOfSelect covers. */
  predicate Selected(select: seq<byte>, i: int) {
    0 <= i < 8 * |select| && Bit(select[i / 8], i % 8)
  }

  // ---- the commands on values

  function Extended(H: Hash, old20: seq<byte>, digest: seq<byte>): seq<byte> {
    H(old20 + digest)
  }

  function Extend(H: Hash, pcrs: seq<seq<byte>>, attributes: seq<Attributes>, i: nat, digest: seq<byte>, locality: nat):
    (r: (seq<seq<byte>>, Reply))
    requires |pcrs| == |attributes| == NUM_PCR
    ensures |r.0| == NUM_PCR
  {
    if i >= NUM_PCR then (pcrs, Failed(BADINDEX))
    else if !Bit(attributes[i].extendLocal, locality) then (pcrs, Failed(BAD_LOCALITY))
    else (pcrs[i := Extended(H, pcrs[i], digest)], Done)
  }

  /** What stops a reset at register `i`, if anything. */
  predicate Resists(attributes: seq<Attributes>, select: seq<byte>, locality: nat, i: nat)
    requires i < |attributes|
  {
    Selected(select, i) && (!attributes[i].resettable || !Bit(attributes[i].resetLocal, locality))
  }

  /** The first selected register from `i` on that cannot be reset. */
  function FirstResisting(attributes: seq<Attributes>, select: seq<byte>, locality: nat, i: nat): (k: nat)
    requires i <= 8 * |select| <= |attributes|
    ensures i <= k <= 8 * |select| && (k < 8 * |select| ==> Resists(attributes, select, locality, k))
    ensures forall j :: i <= j < k ==> !Resists(attributes, select, locality, j)
    decreases 8 * |select| - i
  {
    if i == 8 * |select| || Resists(attributes, select, locality, i) then i
    else FirstResisting(attributes, select, locality, i + 1)
  }

  function Zeroed(pcrs: seq<seq<byte>>, select: seq<byte>): (r: seq<seq<byte>>)
    ensures |r| == |pcrs|
  {
    seq(|pcrs|, i requires 0 <= i < |pcrs| => if Selected(select, i) then Zeros(DIGEST) else pcrs[i])
  }

  function Reset(pcrs: seq<seq<byte>>, attributes: seq<Attributes>, select: seq<byte>, locality: nat):
    (r: (seq<seq<byte>>, Reply))
    requires |pcrs| == |attributes| == NUM_PCR
    ensures |r.0| == NUM_PCR
  {
    if 8 * |select| > NUM_PCR then (pcrs, Failed(INVALID_PCR_INFO))
    else
      var k := FirstResisting(attributes, select, locality, 0);
      if k < 8 * |select| then (pcrs, Failed(if attributes[k].resettable then NOTLOCAL else NOTRESETABLE))
      else (Zeroed(pcrs, select), Done)
  }

  /** The reset is atomic: it clears every selected register and no other, or nothing, and it
      succeeds exactly when every selected register may be reset. */
  lemma ResetAtomic(pcrs: seq<seq<byte>>, attributes: seq<Attributes>, select: seq<byte>, locality: nat)
    requires |pcrs| == |attributes| == NUM_PCR
    ensures var (r, reply) := Reset(pcrs, attributes, select, locality);
      && (reply.Failed? ==> r == pcrs)
      && (reply.Done? ==>
            forall i :: 0 <= i < NUM_PCR ==> r[i] == if Selected(select, i) then Zeros(DIGEST) else pcrs[i])
      && (reply.Done? <==> 8 * |select| <= NUM_PCR && forall i :: 0 <= i < 8 * |select| && Selected(select, i) ==>
            attributes[i].resettable && Bit(attributes[i].resetLocal, locality))
  {
    if 8 * |select| <= NUM_PCR {
      var k := FirstResisting(attributes, select, locality, 0);
      if k < 8 * |select| {
        assert Resists(attributes, select, locality, k);
      } else {
        forall i | 0 <= i < 8 * |select| && Selected(select, i)
          ensures attributes[i].resettable && Bit(attributes[i].resetLocal, locality)
        {
          assert !Resists(attributes, select, locality, i);
        }
      }
    }
  }

  function Restarted(attributes: seq<Attributes>): (r: seq<seq<byte>>)
    ensures |r| == |attributes|
  {
    seq(|attributes|, i requires 0 <= i < |attributes| => if attributes[i].resettable then Ones() else Zeros(DIGEST))
  }

  // ---- runs and logs

  datatype Event =
    | ExtendPcr(index: nat, digest: seq<byte>, extendLocality: nat)
    | ResetPcrs(select: seq<byte>, resetLocality: nat)
    | StartupClear

  /** A register's value at its last reset, and the digests extended since. */
  datatype Log = Log(start: seq<byte>, digests: seq<seq<byte>>)

  datatype World = World(pcrs: seq<seq<byte>>, logs: seq<Log>)

  function Fold(H: Hash, start: seq<byte>, digests: seq<seq<byte>>): seq<byte> {
    if digests == [] then start
    else Extended(H, Fold(H, start, digests[..|digests| - 1]), digests[|digests| - 1])
  }

  function Restart(logs: seq<Log>, select: seq<byte>): (r: seq<Log>)
    ensures |r| == |logs|
  {
    seq(|logs|, i requires 0 <= i < |logs| => if Selected(select, i) then Log(Zeros(DIGEST), []) else logs[i])
  }

  function FreshLogs(attributes: seq<Attributes>): (r: seq<Log>)
    ensures |r| == |attributes|
  {
    seq(|attributes|, i requires 0 <= i < |attributes| =>
      Log(if attributes[i].resettable then Ones() else Zeros(DIGEST), []))
  }

  function Step(H: Hash, attributes: seq<Attributes>, w: World, e: Event): (r: World)
    requires |attributes| == |w.pcrs| == |w.logs| == NUM_PCR
    ensures |r.pcrs| == |r.logs| == NUM_PCR
  {
    match e
    case ExtendPcr(i, digest, locality) =>
      var (pcrs, reply) := Extend(H, w.pcrs, attributes, i, digest, locality);
      var logs := if reply == Done && i < NUM_PCR
                  then w.logs[i := Log(w.logs[i].start, w.logs[i].digests + [digest])] else w.logs;
      World(pcrs, logs)
    case ResetPcrs(select, locality) =>
      var (pcrs, reply) := Reset(w.pcrs, attributes, select, locality);
      World(pcrs, if reply == Done then Restart(w.logs, select) else w.logs)
    case StartupClear => World(Restarted(attributes), FreshLogs(attributes))
  }

  function Run(H: Hash, attributes: seq<Attributes>, events: seq<Event>): (w: World)
    requires |attributes| == NUM_PCR
    ensures |w.pcrs| == |w.logs| == NUM_PCR
  {
    if events == [] then World(Restarted(attributes), FreshLogs(attributes))
    else Step(H, attributes, Run(H, attributes, events[..|events| - 1]), events[|events| - 1])
  }

  /** Every register is the fold of its log. */
  ghost predicate Logged(H: Hash, w: World) {
    |w.pcrs| == |w.logs| == NUM_PCR &&
    forall i :: 0 <= i < NUM_PCR ==> w.pcrs[i] == Fold(H, w.logs[i].start, w.logs[i].digests)
  }

  lemma FoldMore(H: Hash, start: seq<byte>, digests: seq<seq<byte>>, d: seq<byte>)
    ensures Fold(H, start, digests + [d]) == Extended(H, Fold(H, start, digests), d)
  {
    assert (digests + [d])[..|digests|] == digests;
  }

  lemma {:induction false} RunLogged(H: Hash, attributes: seq<Attributes>, events: seq<Event>)
    requires |attributes| == NUM_PCR
    ensures Logged(H, Run(H, attributes, events))
  {
    if events != [] {
      var before, e := events[..|events| - 1], events[|events| - 1];
      RunLogged(H, attributes, before);
      StepLogged(H, attributes, Run(H, attributes, before), e);
    }
  }

  lemma ExtendLogged(H: Hash, w: World, i: nat, d: seq<byte>)
    requires Logged(H, w) && i < NUM_PCR
    ensures Logged(H, World(w.pcrs[i := Extended(H, w.pcrs[i], d)],
                            w.logs[i := Log(w.logs[i].start, w.logs[i].digests + [d])]))
  {
    FoldMore(H, w.logs[i].start, w.logs[i].digests, d);
  }

  lemma ResetLogged(H: Hash, w: World, select: seq<byte>)
    requires Logged(H, w)
    ensures Logged(H, World(Zeroed(w.pcrs, select), Restart(w.logs, select)))
  {}

  lemma StepLogged(H: Hash, attributes: seq<Attributes>, w: World, e: Event)
    requires |attributes| == NUM_PCR && Logged(H, w)
    ensures Logged(H, Step(H, attributes, w, e))
  {
    match e
    case ExtendPcr(i, d, _) => if i < NUM_PCR { ExtendLogged(H, w, i, d); }
    case ResetPcrs(select, _) => ResetLogged(H, w, select);
    case StartupClear =>
  }

  // ---- equal registers mean equal logs

  /** The strings hashed while folding. */
  function Inputs(H: Hash, start: seq<byte>, digests: seq<seq<byte>>): set<seq<byte>> {
    if digests == [] then {}
    else
      var before := digests[..|digests| - 1];
      Inputs(H, start, before) + {Fold(H, start, before) + digests[|digests| - 1]}
  }

  /** No string of the set hashes to the value. */
  ghost predicate Misses(H: Hash, s: set<seq<byte>>, value: seq<byte>) {
    forall x :: x in s ==> H(x) != value
  }

  ghost predicate Digests(digests: seq<seq<byte>>) {
    forall i :: 0 <= i < |digests| ==> |digests[i]| == DIGEST
  }

  lemma SplitEqual(a: seq<byte>, b: seq<byte>, c: seq<byte>, d: seq<byte>)
    requires a + b == c + d && |b| == |d|
    ensures a == c && b == d
  {
    assert |a| == |c|;
    assert a == (a + b)[..|a|] && c == (c + d)[..|a|];
    assert b == (a + b)[|a|..] && d == (c + d)[|a|..];
  }

  /** With the same start, no collision and no way back to the start, the register determines
      the whole log. */
  lemma {:induction false} LogsEqual(H: Hash, start: seq<byte>, a: seq<seq<byte>>, b: seq<seq<byte>>)
    requires Fold(H, start, a) == Fold(H, start, b) && Digests(a) && Digests(b)
    requires CollisionFree(H, Inputs(H, start, a) + Inputs(H, start, b))
    requires Misses(H, Inputs(H, start, a) + Inputs(H, start, b), start)
    ensures a == b
    decreases |a|
  {
    if a != [] && b != [] {
      var x, y := a[..|a| - 1], b[..|b| - 1];
      var s, t := Fold(H, start, x) + a[|a| - 1], Fold(H, start, y) + b[|b| - 1];
      assert s in Inputs(H, start, a) && t in Inputs(H, start, b);
      SplitEqual(Fold(H, start, x), a[|a| - 1], Fold(H, start, y), b[|b| - 1]);
      assert Inputs(H, start, x) + Inputs(H, start, y) <= Inputs(H, start, a) + Inputs(H, start, b);
      LogsEqual(H, start, x, y);
      assert a == x + [a[|a| - 1]] && b == y + [b[|b| - 1]];
    }
  }

  // ---- the composite digest

  /** The values of the selected registers below `n`, in order. */
  function Values(pcrs: seq<seq<byte>>, select: seq<byte>, n: nat): (v: seq<seq<byte>>)
    requires n <= |pcrs|
    ensures |v| <= n
  {
    if n == 0 then []
    else Values(pcrs, select, n - 1) + if Selected(select, n - 1) then [pcrs[n - 1]] else []
  }

  function Concat(v: seq<seq<byte>>): seq<byte> {
    if v == [] then [] else Concat(v[..|v| - 1]) + v[|v| - 1]
  }

  /** TPM_PCR_COMPOSITE on the wire. */
  function CompositeBytes(select: seq<byte>, v: seq<seq<byte>>): seq<byte> {
    Be(|select|, 2) + select + (Be(20 * |v|, 4) + Concat(v))
  }

  predicate ValidSelection(select: seq<byte>) {
    0 < |select| && 8 * |select| <= NUM_PCR
  }

  /** `tpm_compute_pcr_digest`. */
  function Composite(H: Hash, pcrs: seq<seq<byte>>, select: seq<byte>): seq<byte>
    requires |pcrs| == NUM_PCR && ValidSelection(select)
  {
    var v := Values(pcrs, select, 8 * |select|);
    if v == [] then Zeros(DIGEST) else H(CompositeBytes(select, v))
  }

  function CompositeInput(pcrs: seq<seq<byte>>, select: seq<byte>): seq<byte>
    requires |pcrs| == NUM_PCR && ValidSelection(select)
  {
    CompositeBytes(select, Values(pcrs, select, 8 * |select|))
  }

  ghost predicate Registers(pcrs: seq<seq<byte>>) {
    |pcrs| == NUM_PCR && forall i :: 0 <= i < NUM_PCR ==> |pcrs[i]| == DIGEST
  }

  lemma {:induction false} SameLength(p: seq<seq<byte>>, q: seq<seq<byte>>, select: seq<byte>, n: nat)
    requires n <= |p| && n <= |q|
    ensures |Values(p, select, n)| == |Values(q, select, n)|
  {
    if n > 0 { SameLength(p, q, select, n - 1); }
  }

  /** The lists of values agree exactly when the selected registers do. */
  lemma {:induction false} SameValues(p: seq<seq<byte>>, q: seq<seq<byte>>, select: seq<byte>, n: nat)
    requires n <= |p| && n <= |q|
    ensures Values(p, select, n) == Values(q, select, n) <==>
            forall i :: 0 <= i < n && Selected(select, i) ==> p[i] == q[i]
  {
    if n > 0 {
      SameValues(p, q, select, n - 1);
      SameLength(p, q, select, n - 1);
      var a, b := Values(p, select, n - 1), Values(q, select, n - 1);
      if Selected(select, n - 1) {
        assert (a + [p[n - 1]])[..|a|] == a && (b + [q[n - 1]])[..|b|] == b;
        assert (a + [p[n - 1]])[|a|] == p[n - 1] && (b + [q[n - 1]])[|b|] == q[n - 1];
      } else {
        assert a + [] == a && b + [] == b;
      }
    }
  }

  lemma {:induction false} ValuesAreDigests(pcrs: seq<seq<byte>>, select: seq<byte>, n: nat)
    requires Registers(pcrs) && n <= NUM_PCR
    ensures Digests(Values(pcrs, select, n))
  {
    if n > 0 { ValuesAreDigests(pcrs, select, n - 1); }
  }

  lemma {:induction false} ConcatInjective(a: seq<seq<byte>>, b: seq<seq<byte>>)
    requires |a| == |b| && Digests(a) && Digests(b) && Concat(a) == Concat(b)
    ensures a == b
  {
    if a != [] {
      SplitEqual(Concat(a[..|a| - 1]), a[|a| - 1], Concat(b[..|b| - 1]), b[|b| - 1]);
      ConcatInjective(a[..|a| - 1], b[..|b| - 1]);
      assert a == a[..|a| - 1] + [a[|a| - 1]] && b == b[..|b| - 1] + [b[|b| - 1]];
    }
  }

  lemma Head(a: seq<byte>, b: seq<byte>, c: seq<byte>, d: seq<byte>)
    requires |a| == |c| && a + b == c + d
    ensures a == c && b == d
  {
    assert a == (a + b)[..|a|] && c == (c + d)[..|a|];
    assert b == (a + b)[|a|..] && d == (c + d)[|a|..];
  }

  lemma SelectionBound(s: seq<byte>, t: seq<byte>, v: seq<seq<byte>>, u: seq<seq<byte>>)
    requires |s| < 0x1_0000 && |t| < 0x1_0000 && CompositeBytes(s, v) == CompositeBytes(t, u)
    ensures s == t && Be(20 * |v|, 4) + Concat(v) == Be(20 * |u|, 4) + Concat(u)
  {
    SmallPowers();
    OfBe(|s|, 2);
    OfBe(|t|, 2);
    assert Be(|s|, 2) == Be(|t|, 2) ==> |s| == |t|;
    LengthFirst(Be(|s|, 2), s, Be(20 * |v|, 4) + Concat(v), Be(|t|, 2), t, Be(20 * |u|, 4) + Concat(u));
  }

  lemma LengthFirst(x: seq<byte>, s: seq<byte>, a: seq<byte>, y: seq<byte>, t: seq<byte>, b: seq<byte>)
    requires |x| == |y| && x + s + a == y + t + b && (x == y ==> |s| == |t|)
    ensures s == t && a == b
  {
    assert x + s + a == x + (s + a) && y + t + b == y + (t + b);
    Head(x, s + a, y, t + b);
    Head(s, a, t, b);
  }

  predicate SelectsNothing(select: seq<byte>) {
    forall i :: 0 <= i < 8 * |select| ==> !Selected(select, i)
  }

  lemma {:induction false} NothingSelected(pcrs: seq<seq<byte>>, select: seq<byte>, n: nat)
    requires n <= |pcrs|
    ensures Values(pcrs, select, n) == [] <==> forall i :: 0 <= i < n ==> !Selected(select, i)
  {
    if n > 0 { NothingSelected(pcrs, select, n - 1); }
  }

  /** Without a collision, two composite digests agree exactly when both selections are empty,
      or the selections agree and so do all selected registers. */
  lemma CompositeBinds(H: Hash, p: seq<seq<byte>>, s: seq<byte>, q: seq<seq<byte>>, t: seq<byte>)
    requires Registers(p) && Registers(q) && ValidSelection(s) && ValidSelection(t)
    requires CollisionFree(H, {CompositeInput(p, s), CompositeInput(q, t)})
    requires Misses(H, {CompositeInput(p, s), CompositeInput(q, t)}, Zeros(DIGEST))
    ensures Composite(H, p, s) == Composite(H, q, t) <==>
      (SelectsNothing(s) && SelectsNothing(t)) ||
      (s == t && !SelectsNothing(s) && forall i :: 0 <= i < 8 * |s| && Selected(s, i) ==> p[i] == q[i])
  {
    var v, u := Values(p, s, 8 * |s|), Values(q, t, 8 * |t|);
    NothingSelected(p, s, 8 * |s|);
    NothingSelected(q, t, 8 * |t|);
    if v != [] && u != [] {
      if Composite(H, p, s) == Composite(H, q, t) {
        SelectionBound(s, t, v, u);
        SameLength(p, q, s, 8 * |s|);
        Head(Be(20 * |v|, 4), Concat(v), Be(20 * |u|, 4), Concat(u));
        ValuesAreDigests(p, s, 8 * |s|);
        ValuesAreDigests(q, t, 8 * |t|);
        ConcatInjective(v, u);
      }
      if s == t { SameValues(p, q, s, 8 * |s|); }
    }
  }

  ghost predicate Hashes(H: Hash) {
    forall x :: |H(x)| == DIGEST
  }

  /** What is extended is a digest. */
  ghost predicate DigestsOnly(events: seq<Event>) {
    forall i :: 0 <= i < |events| && events[i].ExtendPcr? ==> |events[i].digest| == DIGEST
  }

  ghost predicate Formed(w: World) {
    Registers(w.pcrs) && |w.logs| == NUM_PCR && forall i :: 0 <= i < NUM_PCR ==> Digests(w.logs[i].digests)
  }

  lemma {:induction false} RunFormed(H: Hash, attributes: seq<Attributes>, events: seq<Event>)
    requires |attributes| == NUM_PCR && Hashes(H) && DigestsOnly(events)
    ensures Formed(Run(H, attributes, events))
  {
    if events != [] {
      var m := |events| - 1;
      assert forall i :: 0 <= i < m ==> events[..m][i] == events[i];
      RunFormed(H, attributes, events[..m]);
      StepFormed(H, attributes, Run(H, attributes, events[..m]), events[m]);
    }
  }

  lemma StepFormed(H: Hash, attributes: seq<Attributes>, w: World, e: Event)
    requires |attributes| == NUM_PCR && Hashes(H) && Formed(w) && (e.ExtendPcr? ==> |e.digest| == DIGEST)
    ensures Formed(Step(H, attributes, w, e))
  {}

  /** So two quotes over the same digest tell of the same logs: in any two runs, for every
      selected register with the same start. */
  lemma QuotesBindLogs(H: Hash, attributes: seq<Attributes>, one: seq<Event>, two: seq<Event>, s: seq<byte>,
                       t: seq<byte>, i: nat)
    requires |attributes| == NUM_PCR && Hashes(H) && DigestsOnly(one) && DigestsOnly(two)
    requires ValidSelection(s) && ValidSelection(t) && Selected(s, i)
    requires var v, w := Run(H, attributes, one).pcrs, Run(H, attributes, two).pcrs;
      Composite(H, v, s) == Composite(H, w, t) &&
      CollisionFree(H, {CompositeInput(v, s), CompositeInput(w, t)}) &&
      Misses(H, {CompositeInput(v, s), CompositeInput(w, t)}, Zeros(DIGEST))
    requires i < NUM_PCR
    requires var a, b := Run(H, attributes, one).logs[i], Run(H, attributes, two).logs[i];
      a.start == b.start &&
      CollisionFree(H, Inputs(H, a.start, a.digests) + Inputs(H, a.start, b.digests)) &&
      Misses(H, Inputs(H, a.start, a.digests) + Inputs(H, a.start, b.digests), a.start)
    ensures s == t && Run(H, attributes, one).logs[i].digests == Run(H, attributes, two).logs[i].digests
  {
    var v, w := Run(H, attributes, one), Run(H, attributes, two);
    RunFormed(H, attributes, one);
    RunFormed(H, attributes, two);
    CompositeBinds(H, v.pcrs, s, w.pcrs, t);
    RunLogged(H, attributes, one);
    RunLogged(H, attributes, two);
    LogsEqual(H, v.logs[i].start, v.logs[i].digests, w.logs[i].digests);
  }

  // ---- the commands in place

  class Tpm {
    const pcrs: array<seq<byte>>
    const attributes: array<Attributes>
    var disabled: bool

    ghost predicate Shape()
      reads this
    {
      pcrs.Length == NUM_PCR && attributes.Length == NUM_PCR
    }

    constructor (initial: seq<Attributes>)
      requires |initial| == NUM_PCR
      ensures Shape() && attributes[..] == initial && pcrs[..] == Restarted(initial) && attributes as object != pcrs
    {
      pcrs := new seq<byte>[NUM_PCR](i requires 0 <= i < NUM_PCR => Restarted(initial)[i]);
      attributes := new Attributes[NUM_PCR](i requires 0 <= i < NUM_PCR => initial[i]);
      disabled := false;
    }

    /** `TPM_Extend`. A disabled TPM clears only the first byte of the output digest. */
    method ExtendPcr(H: Hash, i: nat, digest: seq<byte>, locality: nat, out: array<byte>) returns (r: Reply)
      requires Shape() && out.Length == DIGEST && (forall x :: |H(x)| == DIGEST) && pcrs as object != out
      requires attributes as object != out && attributes as object != pcrs
      modifies pcrs, out
      ensures (pcrs[..], r) == Extend(H, old(pcrs[..]), attributes[..], i, digest, locality)
      ensures r.Failed? ==> out[..] == old(out[..])
      ensures r.Done? ==> out[..] == if disabled then old(out[..])[0 := 0] else pcrs[i]
    {
      if i >= NUM_PCR { return Failed(BADINDEX); }
      if !Bit(attributes[i].extendLocal, locality) { return Failed(BAD_LOCALITY); }
      pcrs[i] := H(pcrs[i] + digest);
      if disabled {
        out[0] := 0;
      } else {
        Write(out, 0, pcrs[i]);
      }
      r := Done;
    }

    /** The first pass of `TPM_PCR_Reset`. */
    method CheckReset(select: seq<byte>, locality: nat) returns (k: nat)
      requires Shape() && 8 * |select| <= NUM_PCR
      ensures k == FirstResisting(attributes[..], select, locality, 0)
    {
      k := 0;
      while k < 8 * |select|
        invariant 0 <= k <= 8 * |select|
        invariant FirstResisting(attributes[..], select, locality, 0)
               == FirstResisting(attributes[..], select, locality, k)
      {
        if Selected(select, k) {
          if !attributes[k].resettable { return; }
          if !Bit(attributes[k].resetLocal, locality) { return; }
        }
        k := k + 1;
      }
    }

    /** `TPM_PCR_Reset`: a pass that checks, then a pass that clears. */
    method ResetPcrs(select: seq<byte>, locality: nat) returns (r: Reply)
      requires Shape() && attributes as object != pcrs
      modifies pcrs
      ensures (pcrs[..], r) == Reset(old(pcrs[..]), attributes[..], select, locality)
    {
      if 8 * |select| > NUM_PCR { return Failed(INVALID_PCR_INFO); }
      var k := CheckReset(select, locality);
      if k < 8 * |select| { return Failed(if attributes[k].resettable then NOTLOCAL else NOTRESETABLE); }
      ClearSelected(select);
      r := Done;
    }

    method ClearSelected(select: seq<byte>)
      requires Shape() && 8 * |select| <= NUM_PCR
      modifies pcrs
      ensures pcrs[..] == Zeroed(old(pcrs[..]), select)
    {
      ghost var before := pcrs[..];
      var i := 0;
      while i < 8 * |select|
        invariant 0 <= i <= 8 * |select|
        invariant forall j :: 0 <= j < i ==> pcrs[j] == Zeroed(before, select)[j]
        invariant forall j :: i <= j < NUM_PCR ==> pcrs[j] == before[j]
      {
        if Selected(select, i) { pcrs[i] := Zeros(DIGEST); }
        i := i + 1;
      }
    }

    /** The register part of `TPM_Startup(TPM_ST_CLEAR)`. */
    method StartupClear()
      requires Shape() && attributes as object != pcrs
      modifies pcrs
      ensures pcrs[..] == Restarted(attributes[..])
    {
      var i := 0;
      while i < NUM_PCR
        invariant 0 <= i <= NUM_PCR
        invariant forall j :: 0 <= j < i ==> pcrs[j] == Restarted(attributes[..])[j]
      {
        pcrs[i] := if attributes[i].resettable then Ones() else Zeros(DIGEST);
        i := i + 1;
      }
    }

    /** The loop that fills the composite with the selected values. */
    method Collect(select: seq<byte>) returns (values: seq<seq<byte>>)
      requires Shape() && 8 * |select| <= NUM_PCR
      ensures values == Values(pcrs[..], select, 8 * |select|)
    {
      var i := 0;
      values := [];
      while i < 8 * |select|
        invariant 0 <= i <= 8 * |select| && values == Values(pcrs[..], select, i)
      {
        if Selected(select, i) { values := values + [pcrs[i]]; }
        i := i + 1;
      }
    }

    /** `tpm_compute_pcr_digest`. */
    method ComputeDigest(H: Hash, select: seq<byte>) returns (ok: bool, digest: seq<byte>)
      requires Shape()
      ensures ok == ValidSelection(select)
      ensures ok ==> digest == Composite(H, pcrs[..], select)
    {
      if 8 * |select| > NUM_PCR || |select| == 0 { return false, []; }
      var values := Collect(select);
      ok := true;
      digest := if |values| > 0 then H(CompositeBytes(select, values)) else Zeros(DIGEST);
    }
  }
}
