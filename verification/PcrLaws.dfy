/** The registers told by the commands alone: which extensions and resets count, and what the
    composite digest is taken over (tpm-emulator/tpm/tpm_integrity.c). */
module PcrLaws {
  import opened Bytes
  import opened Pcr

  /** Bit `k` of a byte, by shifting. */
  predicate BitAt(b: byte, k: nat) {
    k < 8 && (b >> k) & 1 == 1
  }

  lemma BitIs(b: byte, k: nat)
    ensures Bit(b, k) <==> BitAt(b, k)
  {
    if k < 8 { BitShifted(b, k); }
  }

  lemma BitShifted(b: byte, k: nat)
    requires k < 8
    ensures Bit(b, k) <==> (b >> k) & 1 == 1
  {
    if k == 0 { assert (b >> 0) & 1 == b & 1; }
    if k == 1 { assert b & 2 != 0 <==> (b >> 1) & 1 == 1; }
    if k == 2 { assert b & 4 != 0 <==> (b >> 2) & 1 == 1; }
    if k == 3 { assert b & 8 != 0 <==> (b >> 3) & 1 == 1; }
    if k == 4 { assert b & 16 != 0 <==> (b >> 4) & 1 == 1; }
    if k == 5 { assert b & 32 != 0 <==> (b >> 5) & 1 == 1; }
    if k == 6 { assert b & 64 != 0 <==> (b >> 6) & 1 == 1; }
    if k == 7 { assert b & 128 != 0 <==> (b >> 7) & 1 == 1; }
  }

  /** Register `i` is in the selection. */
  predicate Chosen(select: seq<byte>, i: nat) {
    i / 8 < |select| && BitAt(select[i / 8], i % 8)
  }

  lemma ChosenIs(select: seq<byte>, i: nat)
    ensures Selected(select, i) <==> Chosen(select, i)
  {
    if i / 8 < |select| { BitIs(select[i / 8], i % 8); }
  }

  // ---- runs

  /** All registers of the selection exist, can be reset, and can be reset at this locality. */
  ghost predicate MayReset(attributes: seq<Attributes>, select: seq<byte>, locality: nat)
    requires |attributes| == 24
  {
    |select| <= 3 && forall i: nat :: i < 24 && Chosen(select, i) ==>
      attributes[i].resettable && BitAt(attributes[i].resetLocal, locality)
  }

  /** The value of a register after a startup. */
  function Initial(a: Attributes): seq<byte> {
    if a.resettable then seq(20, _ => 0xff) else seq(20, _ => 0)
  }

  /** The log of register `i`, from the commands of the run: the last startup or permitted reset that
      concerns it, and the digests of the permitted extensions since. */
  ghost function Since(attributes: seq<Attributes>, events: seq<Event>, i: nat): Log
    requires |attributes| == 24 && i < 24
  {
    if events == [] then Log(Initial(attributes[i]), [])
    else
      var before := Since(attributes, events[..|events| - 1], i);
      match events[|events| - 1]
      case StartupClear => Log(Initial(attributes[i]), [])
      case ExtendPcr(j, d, locality) =>
        if j == i && BitAt(attributes[i].extendLocal, locality) then Log(before.start, before.digests + [d])
        else before
      case ResetPcrs(select, locality) =>
        if MayReset(attributes, select, locality) && Chosen(select, i) then Log(seq(20, _ => 0), []) else before
  }

  lemma ResetSucceeds(pcrs: seq<seq<byte>>, attributes: seq<Attributes>, select: seq<byte>, locality: nat)
    requires |pcrs| == |attributes| == 24
    ensures Reset(pcrs, attributes, select, locality).1.Done? <==> MayReset(attributes, select, locality)
  {
    ResetAtomic(pcrs, attributes, select, locality);
    forall i: nat ensures Selected(select, i) <==> Chosen(select, i) { ChosenIs(select, i); }
    forall i: nat | i < 24
      ensures Bit(attributes[i].resetLocal, locality) <==> BitAt(attributes[i].resetLocal, locality)
    {
      BitIs(attributes[i].resetLocal, locality);
    }
  }

  lemma StepSince(H: Hash, attributes: seq<Attributes>, w: World, e: Event, i: nat, before: Log)
    requires |attributes| == |w.pcrs| == |w.logs| == 24 && i < 24 && w.logs[i] == before
    ensures Step(H, attributes, w, e).logs[i] ==
      match e
      case StartupClear => Log(Initial(attributes[i]), [])
      case ExtendPcr(j, d, locality) =>
        if j == i && BitAt(attributes[i].extendLocal, locality) then Log(before.start, before.digests + [d])
        else before
      case ResetPcrs(select, locality) =>
        if MayReset(attributes, select, locality) && Chosen(select, i) then Log(seq(20, _ => 0), []) else before
  {
    match e {
      case ExtendPcr(j, d, locality) => BitIs(attributes[i].extendLocal, locality);
      case ResetPcrs(select, locality) =>
        ResetSucceeds(w.pcrs, attributes, select, locality);
        ChosenIs(select, i);
        assert Zeros(20) == seq(20, _ => 0);
      case StartupClear => assert Zeros(20) == seq(20, _ => 0) && Ones() == seq(20, _ => 0xff);
    }
  }

  /** Over every run: register `i` holds what folding the digests of the permitted extensions gives,
      from its last startup or permitted reset on. */
  lemma {:induction false} RegisterIs(H: Hash, attributes: seq<Attributes>, events: seq<Event>, i: nat)
    requires |attributes| == 24 && i < 24
    ensures var log := Since(attributes, events, i);
      Run(H, attributes, events).logs[i] == log && Run(H, attributes, events).pcrs[i] == Fold(H, log.start, log.digests)
  {
    RunLogged(H, attributes, events);
    if events == [] {
      assert Zeros(20) == seq(20, _ => 0) && Ones() == seq(20, _ => 0xff);
    } else {
      var before, e := events[..|events| - 1], events[|events| - 1];
      RegisterIs(H, attributes, before, i);
      StepSince(H, attributes, Run(H, attributes, before), e, i, Since(attributes, before, i));
    }
  }

  /** One extension: the order of the hashed strings. */
  lemma FoldOnce(H: Hash, start: seq<byte>, digests: seq<seq<byte>>, d: seq<byte>)
    ensures Fold(H, start, digests + [d]) == H(Fold(H, start, digests) + d) && Fold(H, start, []) == start
  {
    assert (digests + [d])[..|digests|] == digests;
  }

  /** Which commands are refused, and why. */
  lemma ExtendRefuses(H: Hash, pcrs: seq<seq<byte>>, attributes: seq<Attributes>, i: nat, digest: seq<byte>,
                      locality: nat)
    requires |pcrs| == |attributes| == 24
    ensures var (now, r) := Extend(H, pcrs, attributes, i, digest, locality);
      && (r == Failed(BADINDEX) <==> i >= 24)
      && (r == Failed(BAD_LOCALITY) <==> i < 24 && !BitAt(attributes[i].extendLocal, locality))
      && (r == Done <==> i < 24 && BitAt(attributes[i].extendLocal, locality))
      && (r == Done ==> now == pcrs[i := H(pcrs[i] + digest)]) && (r != Done ==> now == pcrs)
  {
    if i < 24 { BitIs(attributes[i].extendLocal, locality); }
  }

  lemma ResetRefuses(pcrs: seq<seq<byte>>, attributes: seq<Attributes>, select: seq<byte>, locality: nat, i: nat)
    requires |pcrs| == |attributes| == 24 && i < 24 && |select| <= 3 && Chosen(select, i)
    requires !attributes[i].resettable || !BitAt(attributes[i].resetLocal, locality)
    requires forall j: nat :: j < i && Chosen(select, j) ==>
      attributes[j].resettable && BitAt(attributes[j].resetLocal, locality)
    ensures Reset(pcrs, attributes, select, locality) ==
            (pcrs, Failed(if attributes[i].resettable then NOTLOCAL else NOTRESETABLE))
  {
    forall j: nat | j < 24 ensures Resists(attributes, select, locality, j) <==>
      Chosen(select, j) && !(attributes[j].resettable && BitAt(attributes[j].resetLocal, locality))
    {
      ChosenIs(select, j);
      BitIs(attributes[j].resetLocal, locality);
    }
    var k := FirstResisting(attributes, select, locality, 0);
    assert Resists(attributes, select, locality, i);
  }

  // ---- the composite

  /** The registers of a selection. */
  function Picks(select: seq<byte>): nat -> bool {
    (i: nat) => Chosen(select, i)
  }

  /** How many numbers below `i` are picked. */
  function Below(picks: nat -> bool, i: nat): (n: nat)
    ensures n <= i
  {
    if i == 0 then 0 else Below(picks, i - 1) + if picks(i - 1) then 1 else 0
  }

  /** The registers picked below `n`, in order. */
  function Picked(pcrs: seq<seq<byte>>, picks: nat -> bool, n: nat): seq<seq<byte>>
    requires n <= |pcrs|
  {
    if n == 0 then [] else Picked(pcrs, picks, n - 1) + if picks(n - 1) then [pcrs[n - 1]] else []
  }

  lemma {:induction false} PickedInOrder(pcrs: seq<seq<byte>>, picks: nat -> bool, n: nat, i: nat)
    requires n <= |pcrs|
    ensures |Picked(pcrs, picks, n)| == Below(picks, n)
    ensures i < n && picks(i) ==> Below(picks, i) < Below(picks, n) && Picked(pcrs, picks, n)[Below(picks, i)] == pcrs[i]
  {
    if n > 0 {
      PickedInOrder(pcrs, picks, n - 1, i);
      Appended(Picked(pcrs, picks, n - 1), pcrs[n - 1], Below(picks, i));
    }
  }

  lemma Appended(v: seq<seq<byte>>, x: seq<byte>, k: nat)
    ensures (v + [x])[|v|] == x && v + [] == v && (k < |v| ==> (v + [x])[k] == v[k])
  {}

  lemma {:induction false} ValuesPicked(pcrs: seq<seq<byte>>, select: seq<byte>, picks: nat -> bool, n: nat)
    requires n <= |pcrs| && picks == ((i: nat) => Selected(select, i))
    ensures Values(pcrs, select, n) == Picked(pcrs, picks, n)
  {
    if n > 0 {
      ValuesPicked(pcrs, select, picks, n - 1);
      assert picks(n - 1) == Selected(select, n - 1);
    }
  }

  lemma {:induction false} SamePicks(pcrs: seq<seq<byte>>, picks: nat -> bool, other: nat -> bool, n: nat)
    requires n <= |pcrs| && forall i :: 0 <= i < n ==> picks(i) == other(i)
    ensures Picked(pcrs, picks, n) == Picked(pcrs, other, n)
  {
    if n > 0 { SamePicks(pcrs, picks, other, n - 1); }
  }

  lemma PicksAre(select: seq<byte>, picks: nat -> bool, n: nat)
    requires picks == ((i: nat) => Selected(select, i))
    ensures forall i :: 0 <= i < n ==> picks(i) == Picks(select)(i)
  {
    forall i | 0 <= i < n ensures picks(i) == Picks(select)(i) { ChosenIs(select, i); }
  }

  /** How many registers below `i` are in the selection. */
  function Rank(select: seq<byte>, i: nat): nat {
    Below(Picks(select), i)
  }

  /** Each selected register stands in the composite at its rank. */
  lemma ValuesInOrder(pcrs: seq<seq<byte>>, select: seq<byte>, n: nat, i: nat)
    requires n <= |pcrs|
    ensures |Values(pcrs, select, n)| == Rank(select, n)
    ensures i < n && Chosen(select, i) ==>
      Rank(select, i) < Rank(select, n) && Values(pcrs, select, n)[Rank(select, i)] == pcrs[i]
  {
    var picks := (i: nat) => Selected(select, i);
    ValuesPicked(pcrs, select, picks, n);
    PicksAre(select, picks, n);
    SamePicks(pcrs, picks, Picks(select), n);
    PickedInOrder(pcrs, Picks(select), n, i);
    assert Picks(select)(i) == Chosen(select, i);
  }

  lemma {:induction false} ConcatAt(v: seq<seq<byte>>, j: nat)
    requires Digests(v) && j < |v|
    ensures |Concat(v)| == 20 * |v| && Concat(v)[20 * j..20 * j + 20] == v[j]
  {
    var m := |v| - 1;
    if j < m {
      ConcatAt(v[..m], j);
      assert Concat(v)[20 * j..20 * j + 20] == Concat(v[..m])[20 * j..20 * j + 20];
    } else {
      if m > 0 { ConcatAt(v[..m], 0); }
      assert Concat(v)[20 * j..20 * j + 20] == v[j];
    }
  }

  /** The layout of a composite of `r` registers, one of which stands at rank `k`. */
  predicate LaidOut(b: seq<byte>, select: seq<byte>, r: nat, k: nat, register: seq<byte>) {
    var n, at := |select|, 6 + |select| + 20 * k;
    && |b| == 6 + n + 20 * r && b[0..2] == Be(n, 2) && b[2..2 + n] == select && b[2 + n..6 + n] == Be(20 * r, 4)
    && k < r && b[at..at + 20] == register
  }

  /** The string behind a composite digest: the size of the selection, the selection, the size of the
      values, and the value of each selected register at its rank. */
  lemma CompositeLayout(H: Hash, pcrs: seq<seq<byte>>, select: seq<byte>, i: nat)
    requires Registers(pcrs) && 1 <= |select| <= 3 && i < 8 * |select| && Chosen(select, i)
    ensures Composite(H, pcrs, select) == H(CompositeInput(pcrs, select))
    ensures LaidOut(CompositeInput(pcrs, select), select, Rank(select, 8 * |select|), Rank(select, i), pcrs[i])
  {
    var v := Values(pcrs, select, 8 * |select|);
    ValuesInOrder(pcrs, select, 8 * |select|, i);
    ValuesAreDigests(pcrs, select, 8 * |select|);
    BytesLayout(select, v, Rank(select, i));
  }

  lemma BytesLayout(select: seq<byte>, v: seq<seq<byte>>, k: nat)
    requires Digests(v) && k < |v|
    ensures LaidOut(CompositeBytes(select, v), select, |v|, k, v[k])
  {
    ConcatAt(v, k);
    LayoutHead(Be(|select|, 2), select, Be(20 * |v|, 4), Concat(v));
    LayoutTail(Be(|select|, 2) + select, Be(20 * |v|, 4), Concat(v), 20 * k);
  }

  lemma LayoutHead(a: seq<byte>, s: seq<byte>, c: seq<byte>, v: seq<byte>)
    requires |a| == 2 && |c| == 4
    ensures var b, n := a + s + (c + v), |s|;
      |b| == 6 + n + |v| && b[0..2] == a && b[2..2 + n] == s && b[2 + n..6 + n] == c
  {}

  lemma LayoutTail(head: seq<byte>, c: seq<byte>, v: seq<byte>, k: nat)
    requires |c| == 4 && k + 20 <= |v|
    ensures (head + (c + v))[|head| + 4 + k..|head| + 4 + k + 20] == v[k..k + 20]
  {}

  /** Nothing selected gives the zero digest, a selection of no or too many bytes none at all. */
  lemma CompositeOfNothing(H: Hash, pcrs: seq<seq<byte>>, select: seq<byte>)
    requires |pcrs| == 24
    ensures ValidSelection(select) <==> 1 <= |select| <= 3
    ensures ValidSelection(select) && (forall i: nat :: i < 24 ==> !Chosen(select, i)) ==>
      Composite(H, pcrs, select) == seq(20, _ => 0)
  {
    if ValidSelection(select) && forall i: nat :: i < 24 ==> !Chosen(select, i) {
      forall i: nat | i < 24 ensures !Selected(select, i) { ChosenIs(select, i); }
      NothingSelected(pcrs, select, 8 * |select|);
      assert Zeros(20) == seq(20, _ => 0);
    }
  }
}
