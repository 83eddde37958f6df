/** Byte strings and their big-number readings: the import and export operations of the
    GMP back end (tpm-emulator/crypto/bn_gmp.c), in both byte orders. */
module Bytes {
  import opened NumberTheory
  import Octets

  type byte = bv8

  /** No two of the strings share a digest. */
  ghost predicate CollisionFree(H: seq<byte> -> seq<byte>, s: set<seq<byte>>) {
    forall x, y :: x in s && y in s && H(x) == H(y) ==> x == y
  }

  function Zeros(k: nat): (z: seq<byte>)
    ensures |z| == k && forall i :: 0 <= i < k ==> z[i] == 0
  {
    seq(k, _ => 0)
  }

  /** `tpm_bn_import` with order 1: the most significant byte comes first. */
  function OfBytes(s: seq<byte>): nat {
    if s == [] then 0 else 256 * OfBytes(s[..|s| - 1]) + s[|s| - 1] as nat
  }

  function LowByte(n: nat): (b: byte)
    ensures b as nat == n % 256
  {
    Octets.Low(n)
  }

  /** `tpm_bn_export` with order 1: no leading zero byte, and nothing at all for zero. */
  function ToBytes(n: nat): seq<byte> {
    if n == 0 then [] else ToBytes(n / 256) + [LowByte(n)]
  }

  /** The number written into exactly `k` bytes, zero-padded on the left. */
  function Fixed(n: nat, k: nat): (s: seq<byte>)
    requires |ToBytes(n)| <= k
    ensures |s| == k
  {
    Zeros(k - |ToBytes(n)|) + ToBytes(n)
  }

  /** `tpm_bn_export` with order -1 into a zeroed field of `k` bytes: the least significant byte
      comes first. */
  function Le(n: nat, k: nat): (s: seq<byte>)
    ensures |s| == k
  {
    if k == 0 then [] else [LowByte(n)] + Le(n / 256, k - 1)
  }

  /** `tpm_bn_import` with order -1. */
  function OfLe(s: seq<byte>): nat {
    if s == [] then 0 else s[0] as nat + 256 * OfLe(s[1..])
  }

  lemma {:induction false} OfLeLe(n: nat, k: nat)
    requires n < Pow(256, k)
    ensures OfLe(Le(n, k)) == n
  {
    if k > 0 {
      DivLess(n, Pow(256, k - 1));
      OfLeLe(n / 256, k - 1);
      assert Le(n, k)[1..] == Le(n / 256, k - 1);
    }
  }

  /** The low `k` bytes of a number, most significant first: `UINT16` and `UINT32` on the wire. */
  function Be(n: nat, k: nat): (s: seq<byte>)
    ensures |s| == k
  {
    if k == 0 then [] else Be(n / 256, k - 1) + [LowByte(n)]
  }

  lemma {:induction false} OfBe(n: nat, k: nat)
    requires n < Pow(256, k)
    ensures OfBytes(Be(n, k)) == n
  {
    if k > 0 {
      DivLess(n, Pow(256, k - 1));
      OfBe(n / 256, k - 1);
      OfBytesAppend(Be(n / 256, k - 1), LowByte(n));
    }
  }

  lemma {:induction false} BeOf(s: seq<byte>)
    ensures Be(OfBytes(s), |s|) == s
  {
    if s != [] {
      var u, b := s[..|s| - 1], s[|s| - 1];
      BeOf(u);
      SameDigits(OfBytes(s) / 256, OfBytes(s) % 256, OfBytes(u), b as nat);
      assert LowByte(OfBytes(s)) == b by { assert (b as nat) as byte == b; }
      assert s == u + [b];
    }
  }

  lemma OfBytesAppend(s: seq<byte>, b: byte)
    ensures OfBytes(s + [b]) == 256 * OfBytes(s) + b as nat
  {
    assert (s + [b])[..|s|] == s;
  }

  lemma {:induction false} OfToBytes(n: nat)
    ensures OfBytes(ToBytes(n)) == n
  {
    if n != 0 {
      OfToBytes(n / 256);
      OfBytesAppend(ToBytes(n / 256), LowByte(n));
    }
  }

  lemma {:induction false} OfBytesBound(s: seq<byte>)
    ensures OfBytes(s) < Pow(256, |s|)
  {
    if s != [] {
      OfBytesBound(s[..|s| - 1]);
    }
  }

  lemma {:induction false} ToBytesLength(n: nat, k: nat)
    ensures |ToBytes(n)| <= k <==> n < Pow(256, k)
    decreases k
  {
    if k == 0 {
      if n != 0 { assert |ToBytes(n)| > 0; }
    } else if n != 0 {
      ToBytesLength(n / 256, k - 1);
      PowPositive(256, k - 1);
      DivLess(n, Pow(256, k - 1));
    } else {
      PowPositive(256, k);
    }
  }

  lemma DivLess(n: nat, m: nat)
    ensures n < 256 * m <==> n / 256 < m
  {}

  lemma {:induction false} OfBytesPadded(k: nat, s: seq<byte>)
    ensures OfBytes(Zeros(k) + s) == OfBytes(s)
    decreases |s|, k
  {
    var z := Zeros(k) + s;
    if s != [] {
      OfBytesPadded(k, s[..|s| - 1]);
      assert z[..|z| - 1] == Zeros(k) + s[..|s| - 1];
    } else if k > 0 {
      OfBytesPadded(k - 1, []);
      assert z[..|z| - 1] == Zeros(k - 1) + [];
    }
  }

  lemma OfBytesInjective(s: seq<byte>, t: seq<byte>)
    requires |s| == |t| && OfBytes(s) == OfBytes(t)
    ensures s == t
  {
    BeOf(s);
    BeOf(t);
  }

  lemma SameDigits(x: nat, a: nat, y: nat, b: nat)
    requires a < 256 && b < 256 && 256 * x + a == 256 * y + b
    ensures x == y && a == b
  {}

  /** Writing a number into `k` bytes and reading it back. */
  lemma FixedRoundTrip(n: nat, k: nat)
    requires n < Pow(256, k)
    ensures |ToBytes(n)| <= k && OfBytes(Fixed(n, k)) == n
  {
    ToBytesLength(n, k);
    OfBytesPadded(k - |ToBytes(n)|, ToBytes(n));
    OfToBytes(n);
  }

  /** Reading a byte string and writing it back to its own length. */
  lemma FixedOfBytes(s: seq<byte>)
    ensures |ToBytes(OfBytes(s))| <= |s| && Fixed(OfBytes(s), |s|) == s
  {
    OfBytesBound(s);
    FixedRoundTrip(OfBytes(s), |s|);
    OfBytesInjective(Fixed(OfBytes(s), |s|), s);
  }

  /** `memcpy(&out[off], s, |s|)`, and `memset` when s is a run of equal bytes. */
  method Write(out: array<byte>, off: nat, s: seq<byte>)
    requires off + |s| <= out.Length
    modifies out
    ensures out[..] == old(out[..off]) + s + old(out[off + |s|..])
  {
    var i := 0;
    while i < |s|
      invariant 0 <= i <= |s|
      invariant forall j :: 0 <= j < out.Length ==>
        out[j] == if off <= j < off + i then s[j - off] else old(out[j])
    {
      out[off + i] := s[i];
      i := i + 1;
    }
  }
}
