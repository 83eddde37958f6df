/** What acceptance of a RIM certificate means, field by field, and the protection against rolled
    back certificates over runs of the mobile build (tpm-emulator/mtm/mtm_verification.c). */
module RimLaws {
  import opened Wrappers
  import opened Bytes
  import opened Rim
  import Counters

  /** A certificate with a parent key is accepted exactly when the named key is its parent and may
      sign certificates, the parent's signature holds, and the certificate is not older than the
      counter that it refers to. */
  lemma SignedAccepted(w: Wire, mac: Mac, c: Cert, named: Option<Key>, parent: Option<Key>, bootstrap: nat,
                       rimProtect: nat)
    requires Formed(c) && c.parent != 0xffff_fffe
    ensures Verify(w, mac, c, named, parent, bootstrap, rimProtect) == Accepted <==>
      && c.tag == 0x0302 && c.parent != 0xffff_ffff && c.selectSize <= 3
      && named.Some? && named.value.signs && named.value.id == c.parent
      && parent.Some? && parent.value.rsa && parent.value.signed
      && c.selection <= 3 && (c.selection == 1 ==> c.counter >= bootstrap)
      && (c.selection == 2 ==> c.counter >= rimProtect)
  {}

  /** An internal certificate is accepted exactly when its check begins with the keyed digest of its
      bytes, the check left out; neither keys nor counters matter. */
  lemma InternalAccepted(w: Wire, mac: Mac, c: Cert, named: Option<Key>, parent: Option<Key>, bootstrap: nat,
                         rimProtect: nat)
    requires Formed(c) && c.parent == 0xffff_fffe
    ensures Verify(w, mac, c, named, parent, bootstrap, rimProtect) == Accepted <==>
      && c.tag == 0x0302 && c.selectSize <= 3 && |c.check| >= 20
      && c.check[..20] == mac(Encode(w, c.(checkSize := 0)))
  {}

  /** The key of the given handle is the parent, and may sign certificates. */
  predicate Entitled(c: Cert, named: Option<Key>) {
    c.tag == 0x0302 && c.parent < 0xffff_fffe && named.Some? && named.value.signs && named.value.id == c.parent
  }

  /** Which refusal it is: the first failing test decides. */
  lemma RefusedBecause(w: Wire, mac: Mac, c: Cert, named: Option<Key>, parent: Option<Key>, bootstrap: nat,
                       rimProtect: nat)
    requires Formed(c)
    ensures var r := Verify(w, mac, c, named, parent, bootstrap, rimProtect);
      var external, entitled := c.tag == 0x0302 && c.parent < 0xffff_fffe, Entitled(c, named);
      var internal := c.tag == 0x0302 && c.parent == 0xffff_fffe;
      && (r == Refused(BAD_PARAMETER) <==> c.tag != 0x0302)
      && (r == Refused(KEYNOTFOUND) <==> (external && named.None?) || (entitled && parent.None?))
      && (r == Refused(INVALID_KEYUSAGE) <==> external && named.Some? && !named.value.signs)
      && (r == Refused(FAIL) <==> c.selectSize > 3 && (internal || (entitled && parent.Some?)))
      && (r == Refused(BAD_SCHEME) <==> c.selectSize <= 3 && entitled && parent.Some? && !parent.value.rsa)
      && (r == Refused(BAD_COUNTER) <==>
            && c.selectSize <= 3 && entitled && parent.Some? && parent.value.rsa && parent.value.signed
            && (c.selection > 3 || (c.selection == 1 && c.counter < bootstrap)
                || (c.selection == 2 && c.counter < rimProtect)))
      && (r == Refused(AUTHFAIL) <==>
            || (c.tag == 0x0302 && c.parent == 0xffff_ffff)
            || (external && named.Some? && named.value.signs && named.value.id != c.parent)
            || (c.selectSize <= 3 && entitled && parent.Some? && parent.value.rsa && !parent.value.signed)
            || (c.selectSize <= 3 && internal &&
                  (|c.check| < 20 || c.check[..20] != mac(Encode(w, c.(checkSize := 0))))))
  {}

  /** What is issued: every field by name, under the check of the new certificate. */
  lemma InstalledFields(w: Wire, mac: Mac, c: Cert, rimProtect: nat)
    requires Formed(c)
    ensures var r := Install(w, mac, c, rimProtect);
      && (r.Issued? <==> c.tag == 0x0302 && c.selectSize <= 3)
      && (r.Rejected? ==> r.code == if c.tag == 0x0302 then FAIL else BAD_PARAMETER)
      && (r.Issued? ==>
            var d := r.cert;
            && d.tag == 0x0302 && d.name == c.name && d.version == c.version && d.selectSize == c.selectSize
            && d.select == c.select && d.locality == c.locality && d.release == c.release && d.index == c.index
            && d.value == c.value && d.extension == c.extension && d.parent == 0xffff_fffe && d.checkSize == 20
            && d.selection == (if c.selection == 0 then 0 else 2)
            && d.counter == (if c.selection == 0 then 0 else (rimProtect + 1) % 0x1_0000_0000)
            && d.check == mac(Encode(w, d.(checkSize := 0, check := []))))
  {
    if c.tag == TAG && c.selectSize <= SELECT_BYTES {
      var d := Install(w, mac, c, rimProtect).cert;
      CoveredAgree(w, d.(checkSize := 0, check := []), Internalized(c, rimProtect).(check := Zeros(DIGEST)));
    }
  }

  /** Where each field is on the wire. */
  lemma WireOffsets(w: Wire, c: Cert)
    requires Sound(w) && Encodable(c)
    ensures |Encode(w, c)| == 75 + c.selectSize + |c.extension| + c.checkSize
    ensures var b := Encode(w, c); var n := c.selectSize;
      && b[0..2] == w.be(c.tag, 2) && b[2..10] == c.name && b[10..14] == w.be(c.version, 4)
      && b[14..15] == w.be(c.selection, 1) && b[15..19] == w.be(c.counter, 4) && b[19..21] == w.be(n, 2)
      && b[21..21 + n] == c.select[..n] && b[21 + n..22 + n] == w.be(c.locality, 1)
      && b[22 + n..42 + n] == c.release && b[42 + n..46 + n] == w.be(c.index, 4)
      && b[46 + n..66 + n] == c.value && b[66 + n..70 + n] == w.be(c.parent, 4)
    ensures var b := Encode(w, c); var n, m, k := c.selectSize, |c.extension|, c.checkSize;
      && b[70 + n..71 + n] == w.be(m, 1) && b[71 + n..71 + n + m] == c.extension
      && b[71 + n + m..75 + n + m] == w.be(k, 4) && b[75 + n + m..75 + n + m + k] == c.check[..k]
  {
    var b, n, m, k := Encode(w, c), c.selectSize, |c.extension|, c.checkSize;
    EncodeSize(w, c);
    EncodeHolds(w, c, []);
    assert b + [] == b;
    HeadSlices(w, c, b);
    SplitSlice(b, 19, 21 + n, w.be(n, 2), c.select[..n]);
    MiddleSlices(w, c, b, 21 + n);
    SplitSlice(b, 70 + n, 71 + n + m, w.be(m, 1), c.extension);
    SplitSlice(b, 71 + n + m, 75 + n + m + k, w.be(k, 4), c.check[..k]);
  }

  lemma HeadSlices(w: Wire, c: Cert, b: seq<byte>)
    requires Sound(w) && Formed(c) && |b| >= 19 && b[..19] == HeadBytes(w, c)
    ensures b[0..2] == w.be(c.tag, 2) && b[2..10] == c.name && b[10..14] == w.be(c.version, 4)
    ensures b[14..15] == w.be(c.selection, 1) && b[15..19] == w.be(c.counter, 4)
  {
    HeadParts(w.be(c.tag, 2), c.name, w.be(c.version, 4), w.be(c.selection, 1), w.be(c.counter, 4), []);
    assert HeadBytes(w, c) + [] == HeadBytes(w, c);
    SlicePrefix(b, 19, 0, 2);
    SlicePrefix(b, 19, 2, 10);
    SlicePrefix(b, 19, 10, 14);
    SlicePrefix(b, 19, 14, 15);
    SlicePrefix(b, 19, 15, 19);
  }

  lemma MiddleSlices(w: Wire, c: Cert, b: seq<byte>, s: nat)
    requires Sound(w) && Formed(c) && s + 49 <= |b| && b[s..s + 49] == MiddleBytes(w, c)
    ensures b[s..s + 1] == w.be(c.locality, 1) && b[s + 1..s + 21] == c.release
    ensures b[s + 21..s + 25] == w.be(c.index, 4) && b[s + 25..s + 45] == c.value
    ensures b[s + 45..s + 49] == w.be(c.parent, 4)
  {
    MiddleParts(w.be(c.locality, 1), c.release, w.be(c.index, 4), c.value, w.be(c.parent, 4), []);
    assert MiddleBytes(w, c) + [] == MiddleBytes(w, c);
    SliceInside(b, s, s + 49, 0, 1);
    SliceInside(b, s, s + 49, 1, 21);
    SliceInside(b, s, s + 49, 21, 25);
    SliceInside(b, s, s + 49, 25, 45);
    SliceInside(b, s, s + 49, 45, 49);
  }

  /** The buffer holds the declared sizes and what they declare. */
  predicate Complete(w: Wire, b: seq<byte>) {
    |b| >= 21 && var n := w.of(b[19..21]);
    n <= 3 && |b| >= 71 + n && var m := w.of(b[70 + n..71 + n]);
    |b| >= 75 + n + m && |b| >= 75 + n + m + w.of(b[71 + n + m..75 + n + m])
  }

  /** Exactly the complete buffers are decoded, each field from its place. */
  lemma DecodesExactly(w: Wire, b: seq<byte>, residue: seq<byte>)
    requires |residue| == 3
    ensures Decode(w, b, residue).Some? <==> Complete(w, b)
    ensures Complete(w, b) ==>
      var c, n := Decode(w, b, residue).value, w.of(b[19..21]); var m := w.of(b[70 + n..71 + n]);
      && c.tag == w.of(b[0..2]) && c.name == b[2..10] && c.version == w.of(b[10..14])
      && c.selection == w.of(b[14..15]) && c.counter == w.of(b[15..19]) && c.selectSize == n
      && c.select == b[21..21 + n] + residue[n..] && c.locality == w.of(b[21 + n..22 + n])
      && c.release == b[22 + n..42 + n] && c.index == w.of(b[42 + n..46 + n]) && c.value == b[46 + n..66 + n]
      && c.parent == w.of(b[66 + n..70 + n]) && c.extension == b[71 + n..71 + n + m]
      && c.checkSize == w.of(b[71 + n + m..75 + n + m]) && c.check == b[75 + n + m..75 + n + m + c.checkSize]
  {
    if Complete(w, b) {
      var n := w.of(b[19..21]);
      var m := w.of(b[70 + n..71 + n]);
      EndsAre(w, b, n, m, w.of(b[71 + n + m..75 + n + m]));
    }
    if CheckEnd(w, b).Some? { FoundComplete(w, b); }
  }

  lemma FoundComplete(w: Wire, b: seq<byte>)
    requires CheckEnd(w, b).Some?
    ensures Complete(w, b)
  {
    var s, x := SelectEnd(w, b).value, ExtensionEnd(w, b).value;
    var n, m := s - 21, x - (s + 50);
    assert b[s + 49..s + 50] == b[70 + n..71 + n];
    assert b[x..x + 4] == b[71 + n + m..75 + n + m];
  }

  // ---- rolled back certificates

  /** Every counter value is a 32-bit number. */
  predicate Words(st: Counters.State)
    requires Counters.Sized(st)
  {
    forall i :: 0 <= i < 4 ==> st.counters[i].value <= 0xffff_ffff
  }

  /** A value that a counter created in slot `i` has to exceed. */
  predicate Exceeded(st: Counters.State, i: nat, j: nat)
    requires Counters.Sized(st) && i < 4 && j < 4
  {
    st.counters[j].valid || j == i
  }

  /** The command succeeds in incrementing counter `i` at the limit, or in creating it when a value
      that it has to exceed is at the limit. */
  predicate Wraps(st: Counters.State, e: Counters.Event, i: nat)
    requires Counters.Sized(st) && i < 4
  {
    match e
    case IncrementCounter(h, denied) =>
      && h == 0x0600_0000 + i && st.counters[i].valid && denied.None? && st.counters[i].value == 0xffff_ffff
      && (st.selected == h || !Counters.Names(st, st.selected))
    case CreateCounter(_, _, denied) =>
      && !st.counters[i].valid && (forall j :: 0 <= j < i ==> st.counters[j].valid) && denied.None?
      && st.counters[i].value > 0
      && exists j :: 0 <= j < 4 && Exceeded(st, i, j) && st.counters[j].value == 0xffff_ffff
    case _ => false
  }

  /** One command of the mobile build lowers a reserved counter exactly when it wraps. */
  lemma LoweredExactly(st: Counters.State, e: Counters.Event, i: nat)
    requires Counters.Sized(st) && Words(st) && 1 <= i <= 3 && !e.ReleaseCounter?
    ensures Counters.Act(st, e).0.counters[i].value < st.counters[i].value <==> Wraps(st, e, i)
  {
    if e.CreateCounter? { CreateLowers(st, e.name, e.secret, e.denied, i); }
  }

  lemma CreateLowers(st: Counters.State, name: nat, secret: nat, denied: Option<Counters.Code>, i: nat)
    requires Counters.Sized(st) && Words(st) && i < 4
    ensures Counters.Create(st, name, secret, denied).0.counters[i].value < st.counters[i].value <==>
      Wraps(st, Counters.CreateCounter(name, secret, denied), i)
  {
    var k := Counters.FreeFrom(st.counters, 0);
    FirstFree(st.counters, 0);
    if k < 4 {
      var t := Counters.Set(st, k, st.counters[k].(valid := true));
      var m := Counters.MaxOf(t.counters, 4);
      assert forall j :: 0 <= j < 4 && j != k ==> t.counters[j] == st.counters[j];
      assert t.counters[k].value == st.counters[k].value;
      if m == 0xffff_ffff {
        var j :| 0 <= j < 4 && t.counters[j].valid && t.counters[j].value == m;
        assert Exceeded(st, k, j);
      }
    }
  }

  lemma {:induction false} FirstFree(c: seq<Counters.Counter>, i: nat)
    requires i <= |c|
    ensures forall j :: i <= j < Counters.FreeFrom(c, i) ==> c[j].valid
    decreases |c| - i
  {
    if i < |c| && c[i].valid { FirstFree(c, i + 1); }
  }

  /** No command of the run wraps counter `i`. */
  ghost predicate NeverWraps(st: Counters.State, events: seq<Counters.Event>, i: nat)
    requires Counters.Sized(st) && i < 4
  {
    forall n :: 0 <= n < |events| ==> !Wraps(Counters.Run(st, events[..n]), events[n], i)
  }

  /** Over every run of the mobile build a reserved counter that does not wrap is never lower. */
  lemma {:induction false} ReservedNeverLowered(st: Counters.State, events: seq<Counters.Event>, i: nat)
    requires Counters.Sized(st) && Words(st) && 1 <= i <= 3 && Counters.Mobile(events) && NeverWraps(st, events, i)
    requires forall n :: 0 <= n < |events| && events[n].IncrementBootstrap? ==> events[n].value <= 0xffff_ffff
    ensures var now := Counters.Run(st, events); Words(now) && now.counters[i].value >= st.counters[i].value
  {
    if events != [] {
      var m := |events| - 1;
      Counters.RunPrefix(st, events);
      assert events[..m][..m] == events[..m];
      ReservedNeverLowered(st, events[..m], i);
      var before := Counters.Run(st, events[..m]);
      LoweredExactly(before, events[m], i);
      WordsKept(before, events[m]);
    }
  }

  lemma WordsKept(st: Counters.State, e: Counters.Event)
    requires Counters.Sized(st) && Words(st) && (e.IncrementBootstrap? ==> e.value <= 0xffff_ffff)
    ensures Words(Counters.Act(st, e).0)
  {}

  /** The certificate refers to a counter that has passed it. */
  predicate RolledBack(c: Cert, st: Counters.State)
    requires Counters.Sized(st)
  {
    (c.selection == 1 && c.counter < st.counters[1].value) || (c.selection == 2 && c.counter < st.counters[2].value)
  }

  /** A certificate below its counter is refused by every later call, whatever keys are loaded by
      then, as long as that counter does not wrap. */
  lemma RolledBackRefused(w: Wire, mac: Mac, c: Cert, named: Option<Key>, parent: Option<Key>,
                          st: Counters.State, events: seq<Counters.Event>)
    requires Formed(c) && c.parent != 0xffff_fffe && Counters.Sized(st) && Words(st) && RolledBack(c, st)
    requires Counters.Mobile(events) && NeverWraps(st, events, if c.selection == 1 then 1 else 2)
    requires forall n :: 0 <= n < |events| && events[n].IncrementBootstrap? ==> events[n].value <= 0xffff_ffff
    ensures var now := Counters.Run(st, events).counters;
      var r := Verify(w, mac, c, named, parent, now[1].value, now[2].value);
      && r.Refused?
      && (Entitled(c, named) && c.selectSize <= 3 && parent.Some? && parent.value.rsa && parent.value.signed ==>
            r == Refused(BAD_COUNTER))
  {
    ReservedNeverLowered(st, events, if c.selection == 1 then 1 else 2);
    var now := Counters.Run(st, events).counters;
    SignedAccepted(w, mac, c, named, parent, now[1].value, now[2].value);
    RefusedBecause(w, mac, c, named, parent, now[1].value, now[2].value);
  }

  /** The condition is needed: a command that wraps the counter to which a rolled back certificate
      refers can let it in again. */
  lemma WrappedAccepted(w: Wire, mac: Mac, c: Cert, key: Key, st: Counters.State)
    requires Formed(c) && c.tag == 0x0302 && c.parent < 0xffff_fffe && c.selectSize <= 3
    requires c.selection == 2 && c.counter < 0xffff_ffff && key.signs && key.rsa && key.signed && key.id == c.parent
    requires Counters.Sized(st) && st.counters[2].valid && st.counters[2].value == 0xffff_ffff
    requires st.selected == Counters.INVALID_HANDLE
    ensures RolledBack(c, st)
    ensures var now := Counters.Run(st, [Counters.IncrementCounter(0x0600_0002, None)]).counters;
      Verify(w, mac, c, Some(key), Some(key), now[1].value, now[2].value) == Accepted
  {
    var e := Counters.IncrementCounter(0x0600_0002, None);
    Counters.RunMore(st, [e], 0);
    assert [e][..1] == [e] && [e][..0] == [];
    SignedAccepted(w, mac, c, Some(key), Some(key), Counters.Run(st, [e]).counters[1].value, 0);
  }
}
