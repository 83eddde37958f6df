/** The stream cipher of tpm-emulator/crypto/rc4.c on its in-place state, and the two context
    functions of tpm-emulator/tpm/tpm_context.c that use it. */
module Rc4 {
  import opened Bytes
  import opened NumberTheory

  /** Marks the step that a quantified fact is wanted for. */
  predicate Now(t: int) {
    true
  }

  /** The value of a `tpm_rc4_ctx_t`: a table of 256 bytes and the two indices. */
  datatype State = State(table: seq<int>, x: int, y: int)

  predicate Sized(s: State) {
    |s.table| == 256 && 0 <= s.x < 256 && 0 <= s.y < 256
  }

  /** Addition of `uint8_t` values. */
  function Plus(a: int, b: int): (r: int)
    ensures 0 <= r < 256
  {
    (a + b) % 256
  }

  function Swap(t: seq<int>, i: int, j: int): (u: seq<int>)
    requires |t| == 256 && 0 <= i < 256 && 0 <= j < 256
    ensures |u| == 256
  {
    t[i := t[j]][j := t[i]]
  }

  // ---- the key stream, one byte at a time

  function Mixed(t: seq<int>, x: int, y: int): (r: State)
    requires |t| == 256 && 0 <= x < 256 && 0 <= y < 256
    ensures Sized(r)
  {
    State(Swap(t, x, y), x, y)
  }

  function NextState(s: State): (r: State)
    requires Sized(s)
    ensures Sized(r)
  {
    var x := Plus(s.x, 1);
    Mixed(s.table, x, Plus(s.y, s.table[x]))
  }

  /** The key byte that the step into state `s` has produced. */
  function KeyByte(s: State): int
    requires Sized(s)
  {
    s.table[Plus(s.table[s.y], s.table[s.x])]
  }

  /** `n` applications of a function. */
  function Iterate(f: State -> State, s: State, n: nat): State {
    if n == 0 then s else f(Iterate(f, s, n - 1))
  }

  lemma {:induction false} IterateAdd(f: State -> State, s: State, m: nat, n: nat)
    ensures Iterate(f, Iterate(f, s, m), n) == Iterate(f, s, m + n)
    decreases n
  {
    if n > 0 { IterateAdd(f, s, m, n - 1); }
  }

  function Next(): State -> State {
    (s: State) => if Sized(s) then NextState(s) else s
  }

  function After(s: State, n: nat): (r: State)
    requires Sized(s)
    ensures Sized(r)
  {
    AfterSized(s, n);
    Iterate(Next(), s, n)
  }

  lemma {:induction false} AfterSized(s: State, n: nat)
    requires Sized(s)
    ensures Sized(Iterate(Next(), s, n))
  {
    if n > 0 { AfterSized(s, n - 1); }
  }

  lemma AfterStep(s: State, n: nat)
    requires Sized(s)
    ensures After(s, n + 1) == NextState(After(s, n))
  {}

  function Cover(b: byte, key: int): byte {
    b ^ LowByte(key % 256)
  }

  lemma CoverTwice(b: byte, key: int)
    ensures Cover(Cover(b, key), key) == b
  {
    Octets.XorTwice(b, LowByte(key % 256));
  }

  /** The key stream from state `s`. */
  function Stream(s: State, n: nat): (r: seq<int>)
    requires Sized(s)
    ensures |r| == n
    ensures forall i :: 0 <= i < n ==> r[i] == KeyByte(After(s, i + 1))
  {
    seq(n, i requires 0 <= i < n => KeyByte(After(s, i + 1)))
  }

  function CoverAll(text: seq<byte>, key: seq<int>): (r: seq<byte>)
    requires |key| == |text|
    ensures |r| == |text|
    ensures forall i :: 0 <= i < |text| ==> r[i] == Cover(text[i], key[i])
  {
    seq(|text|, i requires 0 <= i < |text| => Cover(text[i], key[i]))
  }

  /** What encrypting `text` from state `s` gives. */
  function Crypted(s: State, text: seq<byte>): (r: seq<byte>)
    requires Sized(s)
    ensures |r| == |text|
  {
    CoverAll(text, Stream(s, |text|))
  }

  lemma AfterAfter(s: State, m: nat, n: nat)
    requires Sized(s)
    ensures After(After(s, m), n) == After(s, m + n)
  {
    IterateAdd(Next(), s, m, n);
  }

  lemma StreamSplit(s: State, m: nat, n: nat)
    requires Sized(s)
    ensures Stream(s, m + n) == Stream(s, m) + Stream(After(s, m), n)
  {
    var late := Stream(After(s, m), n);
    forall i | 0 <= i < n
      ensures late[i] == Stream(s, m + n)[m + i]
    {
      AfterAfter(s, m, i + 1);
      assert m + (i + 1) == (m + i) + 1;
    }
  }

  /** Encrypting a concatenation is encrypting the pieces in turn. */
  lemma CryptedConcat(s: State, t: seq<byte>, u: seq<byte>)
    requires Sized(s)
    ensures Crypted(s, t + u) == Crypted(s, t) + Crypted(After(s, |t|), u)
  {
    StreamSplit(s, |t|, |u|);
    CoverAllConcat(t, u, Stream(s, |t|), Stream(After(s, |t|), |u|));
  }

  lemma CoverAllConcat(t: seq<byte>, u: seq<byte>, k: seq<int>, l: seq<int>)
    requires |k| == |t| && |l| == |u|
    ensures CoverAll(t + u, k + l) == CoverAll(t, k) + CoverAll(u, l)
  {}

  /** Two contexts in the same state undo each other. */
  lemma CryptedTwice(s: State, t: seq<byte>)
    requires Sized(s)
    ensures Crypted(s, Crypted(s, t)) == t
  {
    CoverAllTwice(t, Stream(s, |t|));
  }

  lemma CoverAllTwice(t: seq<byte>, key: seq<int>)
    requires |key| == |t|
    ensures CoverAll(CoverAll(t, key), key) == t
  {
    forall i | 0 <= i < |t|
      ensures CoverAll(CoverAll(t, key), key)[i] == t[i]
    {
      CoverTwice(t[i], key[i]);
    }
  }

  // ---- the key schedule

  /** The table and index after the first `i` swaps under `key`, which is used cyclically. */
  function Scheduled(key: seq<byte>, i: nat): (r: (seq<int>, int))
    requires key != [] && i <= 256
    ensures |r.0| == 256 && 0 <= r.1 < 256
  {
    if i == 0 then (Identity(), 0)
    else Scramble(Scheduled(key, i - 1), i - 1, KeyAt(key, (i - 1) % |key|))
  }

  function KeyAt(key: seq<byte>, k: nat): int
    requires k < |key|
  {
    key[k] as int
  }

  function Scramble(before: (seq<int>, int), i: nat, k: int): (r: (seq<int>, int))
    requires |before.0| == 256 && i < 256
    ensures |r.0| == 256 && 0 <= r.1 < 256
  {
    var j := Plus(before.1, Plus(before.0[i], k));
    (Swap(before.0, i, j), j)
  }

  function Identity(): (t: seq<int>)
    ensures |t| == 256 && forall i :: 0 <= i < 256 ==> t[i] == i
  {
    seq(256, i => i)
  }

  /** The state after `tpm_rc4_init`: the schedule, then 256 key bytes dropped. */
  function Keyed(key: seq<byte>): (s: State)
    requires key != []
    ensures Sized(s)
  {
    After(State(Scheduled(key, 256).0, 0, 0), 256)
  }

  // ---- the table remains a permutation

  ghost predicate Permutation(t: seq<int>) {
    && |t| == 256
    && (forall i, j :: 0 <= i < j < 256 ==> t[i] != t[j])
    && (forall v :: 0 <= v < 256 <==> v in t)
  }

  lemma SwapPermutes(t: seq<int>, i: int, j: int)
    requires Permutation(t) && 0 <= i < 256 && 0 <= j < 256
    ensures Permutation(Swap(t, i, j))
  {
    var u := Swap(t, i, j);
    forall v
      ensures v in t <==> v in u
    {
      if v in t {
        var k :| 0 <= k < |t| && t[k] == v;
        assert u[if k == i then j else if k == j then i else k] == v;
      }
    }
  }

  lemma {:induction false} AfterPermutes(s: State, n: nat)
    requires Sized(s) && Permutation(s.table)
    ensures Permutation(After(s, n).table)
  {
    if n > 0 {
      AfterPermutes(s, n - 1);
      AfterStep(s, n - 1);
      SwapPermutes(After(s, n - 1).table, After(s, n).x, After(s, n).y);
    }
  }

  lemma {:induction false} ScheduledPermutes(key: seq<byte>, i: nat)
    requires key != [] && i <= 256
    ensures Permutation(Scheduled(key, i).0)
  {
    if i == 0 {
      var t := Identity();
      forall v | 0 <= v < 256
        ensures v in t
      {
        assert t[v] == v;
      }
    } else {
      ScheduledPermutes(key, i - 1);
      SwapPermutes(Scheduled(key, i - 1).0, i - 1, Scheduled(key, i).1);
    }
  }

  /** After the key schedule and any number of encrypted bytes, every byte is still in the
      table exactly once. */
  lemma KeyedPermutes(key: seq<byte>, n: nat)
    requires key != []
    ensures Permutation(After(Keyed(key), n).table)
  {
    ScheduledPermutes(key, 256);
    AfterPermutes(State(Scheduled(key, 256).0, 0, 0), 256);
    AfterPermutes(Keyed(key), n);
  }

  /** `tpm_rc4_ctx_t`. */
  class Context {
    const state: array<int>
    var x: int
    var y: int

    constructor ()
      ensures Shape() && fresh(state)
    {
      state := new int[256];
      x, y := 0, 0;
    }

    ghost predicate Shape()
      reads this
    {
      state.Length == 256 && 0 <= x < 256 && 0 <= y < 256
    }

    /** The buffers are not the context's own table. */
    predicate Apart(text: array<byte>, out: array<byte>)
      reads this
    {
      state as object != text && state as object != out
    }

    ghost function Value(): (s: State)
      requires Shape()
      reads this, state
      ensures Sized(s)
    {
      State(state[..], x, y)
    }

    /** One turn of the loop of `tpm_rc4_crypt`, up to the key byte. */
    method Step() returns (key: int)
      requires Shape()
      modifies this, state
      ensures Shape() && Value() == NextState(old(Value())) && key == KeyByte(Value())
    {
      ghost var table := state[..];
      x := Plus(x, 1);
      y := Plus(y, state[x]);
      var a := state[x];
      state[x] := state[y];
      state[y] := a;
      assert state[..] == Swap(table, x, y);
      a := Plus(a, state[x]);
      key := state[a];
    }

    /** One turn of the loop. */
    method Turn(text: array<byte>, out: array<byte>, i: nat)
      requires Shape() && Apart(text, out) && i < text.Length == out.Length
      modifies this, state, out
      ensures Shape() && Value() == NextState(old(Value()))
      ensures out[i] == Cover(old(text[i]), KeyByte(Value()))
      ensures forall j :: 0 <= j < out.Length && j != i ==> out[j] == old(out[j])
    {
      var b := text[i];
      var k := Step();
      out[i] := Cover(b, k);
    }

    method Loop(text: array<byte>, out: array<byte>, ghost run: int -> State, ghost covered: int -> byte)
      requires Shape() && Apart(text, out) && text.Length == out.Length && Value() == run(0)
      requires forall t {:trigger Now(t)} :: Now(t) && 0 <= t < text.Length ==>
        Sized(run(t)) && run(t + 1) == NextState(run(t)) && covered(t) == Cover(text[t], KeyByte(run(t + 1)))
      modifies this, state, out
      ensures Shape() && Value() == run(text.Length)
      ensures forall j :: 0 <= j < text.Length ==> out[j] == covered(j)
    {
      var i := 0;
      while i < text.Length
        invariant 0 <= i <= text.Length && Shape() && Value() == run(i)
        invariant forall j :: 0 <= j < i ==> out[j] == covered(j)
        invariant forall j :: i <= j < text.Length ==> text[j] == old(text[j])
      {
        assert Now(i);
        Turn(text, out, i);
        i := i + 1;
      }
    }

    /** `tpm_rc4_crypt`; `text` and `out` may be the same buffer. */
    method Crypt(text: array<byte>, out: array<byte>)
      requires Shape() && Apart(text, out) && text.Length == out.Length
      modifies this, state, out
      ensures Shape() && Value() == After(old(Value()), text.Length)
      ensures out[..] == Crypted(old(Value()), old(text[..]))
    {
      ghost var start, result := Value(), Crypted(Value(), text[..]);
      ghost var run := (t: int) => if t < 0 then start else After(start, t);
      ghost var covered := (t: int) => if 0 <= t < |result| then result[t] else 0;
      forall t {:trigger Now(t)} | Now(t) && 0 <= t < text.Length
        ensures Sized(run(t)) && run(t + 1) == NextState(run(t))
        ensures covered(t) == Cover(text[t], KeyByte(run(t + 1)))
      {
        AfterStep(start, t);
      }
      Loop(text, out, run, covered);
      assert out[..] == result;
    }

    /** The key-schedule loop of `tpm_rc4_init`; `k` walks the key and restarts at its end. */
    method ScheduleLoop(key: seq<byte>, ghost run: int -> (seq<int>, int), ghost keys: int -> int)
      requires Shape() && key != [] && (state[..], 0) == run(0)
      requires forall t {:trigger Now(t)} :: Now(t) && 0 <= t < 256 ==>
        |run(t).0| == 256 && run(t + 1) == Scramble(run(t), t, keys(t)) && keys(t) == KeyAt(key, t % |key|)
      modifies state
      ensures state[..] == run(256).0
    {
      var i, j, k := 0, 0, 0;
      while i < 256
        invariant 0 <= i <= 256 && (state[..], j) == run(i)
        invariant 0 <= k < |key| && (i < 256 ==> k == i % |key|)
      {
        assert Now(i);
        j := Mingle(i, j, KeyAt(key, k));
        k := Advance(k, |key|, i);
        i := i + 1;
      }
    }

    method Schedule(key: seq<byte>)
      requires Shape() && key != [] && state[..] == Identity()
      modifies state
      ensures state[..] == Scheduled(key, 256).0
    {
      ghost var run := (t: int) => if 0 <= t <= 256 then Scheduled(key, t) else ([], 0);
      ghost var keys := (t: int) => if 0 <= t < 256 then KeyAt(key, t % |key|) else 0;
      ScheduleLoop(key, run, keys);
    }

    /** One turn of that loop: `j += a + key[k]` and the swap. */
    method Mingle(i: nat, j0: int, k: int) returns (j: int)
      requires Shape() && i < 256
      modifies state
      ensures state[..] == Scramble((old(state[..]), j0), i, k).0
      ensures j == Scramble((old(state[..]), j0), i, k).1
    {
      ghost var before := state[..];
      var a := state[i];
      j := Plus(j0, Plus(a, k));
      state[i] := state[j];
      state[j] := a;
      assert state[..] == Swap(before, i, j);
    }

    /** `tpm_rc4_init`. */
    method Init(key: seq<byte>)
      requires Shape() && key != []
      modifies this, state
      ensures Shape() && Value() == Keyed(key)
    {
      x, y := 0, 0;
      var i := 0;
      while i < 256
        invariant 0 <= i <= 256
        invariant x == y == 0 && forall j :: 0 <= j < i ==> state[j] == j
      {
        state[i] := i;
        i := i + 1;
      }
      assert state[..] == Identity();
      Schedule(key);
      Discard();
    }

    /** Sixteen throw-away encryptions of sixteen bytes. */
    method Discard()
      requires Shape()
      modifies this, state
      ensures Shape() && Value() == After(old(Value()), 256)
    {
      ghost var start := Value();
      var i := 0;
      while i < 16
        invariant 0 <= i <= 16 && Shape() && Value() == After(start, 16 * i)
      {
        AfterAfter(start, 16 * i, 16);
        Skip();
        i := i + 1;
      }
    }

    method Skip()
      requires Shape()
      modifies this, state
      ensures Shape() && Value() == After(old(Value()), 16)
    {
      var buf := new byte[16];
      Crypt(buf, buf);
    }
  }

  /** `k++`, and back to the start of the key at its end. */
  method Advance(k0: nat, n: nat, ghost i: nat) returns (k: nat)
    requires k0 < n && i < 256 && k0 == i % n
    ensures k < n && (i + 1 < 256 ==> k == (i + 1) % n)
  {
    k := Plus(k0, 1);
    if k >= n { k := 0; }
    if i < 255 { NextKeyIndex(i, n); }
  }

  lemma NextKeyIndex(i: nat, n: nat)
    requires n > 0 && i < 255
    ensures i % n < 255 && (i + 1) % n == if i % n + 1 < n then i % n + 1 else 0
  {
    var q, r := DivMod(i, n);
    MulNonNegative(q, n);
    if r + 1 < n {
      Quotient(i + 1, q, r + 1, n);
    } else {
      assert (q + 1) * n == q * n + n;
      Quotient(i + 1, q + 1, 0, n);
    }
  }

  // ---- encrypt_context and decrypt_context

  const SYM_KEY_SIZE: nat := 32

  /** The encryption part of `encrypt_context`, in place on the marshalled context. The key is
      the context key followed by the fresh bytes kept in the blob. */
  method EncryptContext(contextKey: seq<byte>, iv: seq<byte>, enc: array<byte>)
    requires |contextKey| == SYM_KEY_SIZE
    modifies enc
    ensures enc[..] == Crypted(Keyed(contextKey + iv), old(enc[..]))
  {
    var rc4 := new Context();
    rc4.Init(contextKey + iv);
    rc4.Crypt(enc, enc);
  }

  /** The decryption part of `decrypt_context`: it recovers whatever text was encrypted under
      the same context key and fresh bytes. */
  method DecryptContext(contextKey: seq<byte>, iv: seq<byte>, enc: array<byte>, ghost text: seq<byte>)
    returns (buf: array<byte>)
    requires |contextKey| == SYM_KEY_SIZE
    requires enc[..] == Crypted(Keyed(contextKey + iv), text)
    ensures fresh(buf) && buf[..] == text
  {
    buf := new byte[enc.Length];
    var rc4 := new Context();
    rc4.Init(contextKey + iv);
    rc4.Crypt(enc, buf);
    CryptedTwice(Keyed(contextKey + iv), text);
  }

  /** `decrypt_context` of what `encrypt_context` hid. */
  method EncryptThenDecrypt(contextKey: seq<byte>, iv: seq<byte>, marshalled: seq<byte>)
    returns (buf: array<byte>)
    requires |contextKey| == SYM_KEY_SIZE
    ensures buf[..] == marshalled
  {
    var enc := new byte[|marshalled|](i requires 0 <= i < |marshalled| => marshalled[i]);
    assert enc[..] == marshalled;
    EncryptContext(contextKey, iv, enc);
    buf := DecryptContext(contextKey, iv, enc, marshalled);
  }
}
