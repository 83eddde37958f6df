/** The RSA primitives of tpm-emulator/crypto/rsa.c: public operation, private operation by
    the Chinese remainder shortcut, key import with its self test, and the byte buffers
    these operations fill. */
module Rsa {
  import opened NumberTheory
  import opened Fermat
  import opened Bytes
  import opened Wrappers

  datatype PrivateKey = PrivateKey(n: nat, e: nat, d: nat, p: nat, q: nat, u: nat, size: nat)

  /** What key generation and import establish: p and q are distinct odd primes, p the smaller,
      and d and u are the inverses that `tpm_bn_invert` computes. */
  ghost predicate ValidKey(k: PrivateKey) {
    && ValidPrimes(k.n, k.p, k.q)
    && Cong(k.e * k.d, 1, (k.p - 1) * (k.q - 1))
    && Cong(k.u * k.p, 1, k.q)
  }

  ghost predicate ValidPrimes(n: nat, p: nat, q: nat) {
    Prime(p) && Prime(q) && 2 < p < q && n == p * q
  }

  function PowMod(b: int, e: nat, m: nat): (r: nat)
    requires m > 0
    ensures r < m
  {
    Pow(b, e) % m
  }

  lemma PowModCong(b: int, e: nat, m: nat)
    requires m > 0
    ensures Cong(PowMod(b, e, m), Pow(b, e), m)
  {
    CongMod(Pow(b, e), m);
  }

  // ---- the secret exponent modulo p - 1 and q - 1

  /** Since e * d = 1 modulo (p-1)(q-1), d is not a multiple of p - 1 or q - 1. */
  lemma ExponentNotMultiple(e: nat, d: nat, a: nat, b: nat, q: nat, r: nat)
    requires 1 < a && Cong(e * d, 1, a * b) && d == q * a + r && r < a
    ensures r > 0
  {
    if r == 0 {
      var k :| Differ(e * d, 1, k, a * b);
      assert e * (q * a) == (e * q) * a;
      assert k * (a * b) == (k * b) * a;
      assert (e * q - k * b) * a == 1;
      SmallMultiple(e * q - k * b, a);
    }
  }

  lemma HalfExponent(x: int, e: nat, d: nat, p: nat, b: nat)
    requires Prime(p) && 2 < p && Cong(e * d, 1, (p - 1) * b)
    ensures Cong(PowMod(x, d % (p - 1), p), Pow(x, d), p)
  {
    var q, r := DivMod(d, p - 1);
    ExponentNotMultiple(e, d, p - 1, b, q, r);
    ReduceExponent(x, d, p, q, r);
    PowModCong(x, r, p);
    CongTrans(PowMod(x, r, p), Pow(x, r), Pow(x, d), p);
  }

  // ---- recombination

  lemma Recombine(m1: nat, m2: nat, diff: nat, u: nat, p: nat, q: nat, h: nat)
    requires q > 0 && Cong(diff, m2 - m1, q) && Cong(u * p, 1, q) && Cong(h, u * diff, q)
    ensures Cong(m1 + h * p, m1, p) && Cong(m1 + h * p, m2, q)
  {
    CongShift(m1, h, p);
    CongRefl(p, q);
    CongMul(h, u * diff, p, p, q);
    assert (u * diff) * p == (u * p) * diff;
    CongMul(u * p, 1, diff, m2 - m1, q);
    CongTrans(h * p, (u * p) * diff, 1 * (m2 - m1), q);
    CongRefl(m1, q);
    CongAdd(m1, m1, h * p, m2 - m1, q);
  }

  lemma RecombinedBound(m1: nat, h: nat, p: nat, q: nat)
    requires m1 < p && h < q
    ensures m1 + h * p < p * q
  {
    MulMono(h, q - 1, p);
    assert (q - 1) * p == p * q - p;
  }

  /** `rsa_private`, lines 60-78: m1 and m2 modulo the primes, then c = m1 + h * p. The result is
      the plain exponentiation modulo n, for every x. */
  method PrivateCrt(k: PrivateKey, x: nat) returns (c: nat)
    requires ValidKey(k)
    ensures c == PowMod(x, k.d, k.n)
  {
    var h: int := k.p - 1;
    h := k.d % h;
    var m1 := PowMod(x, h, k.p);
    h := k.q - 1;
    h := k.d % h;
    var m2 := PowMod(x, h, k.q);
    h := m2 - m1;
    CongRefl(h, k.q);
    if h < 0 {
      h := h + k.q;
      CongShift(m2 - m1, 1, k.q);
    }
    ghost var diff := h;
    h := k.u * h;
    h := h % k.q;
    CongMod(k.u * diff, k.q);
    Recombine(m1, m2, diff, k.u, k.p, k.q, h);
    RecombinedBound(m1, h, k.p, k.q);
    h := h * k.p;
    c := m1 + h;
    CrtIsPower(k, x, c, m1, m2);
  }

  lemma CrtIsPower(k: PrivateKey, x: nat, c: nat, m1: nat, m2: nat)
    requires ValidKey(k) && c < k.n && Cong(c, m1, k.p) && Cong(c, m2, k.q)
    requires m1 == PowMod(x, k.d % (k.p - 1), k.p) && m2 == PowMod(x, k.d % (k.q - 1), k.q)
    ensures c == PowMod(x, k.d, k.n)
  {
    HalfExponent(x, k.e, k.d, k.p, k.q - 1);
    assert (k.p - 1) * (k.q - 1) == (k.q - 1) * (k.p - 1);
    HalfExponent(x, k.e, k.d, k.q, k.p - 1);
    CongTrans(c, m1, Pow(x, k.d), k.p);
    CongTrans(c, m2, Pow(x, k.d), k.q);
    Remainders(c, Pow(x, k.d), k.p, k.q);
    PowModCong(x, k.d, k.n);
    CongSym(PowMod(x, k.d, k.n), Pow(x, k.d), k.n);
    CongTrans(c, Pow(x, k.d), PowMod(x, k.d, k.n), k.n);
    CongUnique(c, PowMod(x, k.d, k.n), k.n);
  }

  // ---- the two operations undo each other

  lemma PrimeRoundTrip(x: int, e: nat, d: nat, p: nat, b: nat)
    requires Prime(p) && 2 < p && Cong(e * d, 1, (p - 1) * b)
    ensures 0 <= e * d && Cong(Pow(x, e * d), x, p)
  {
    MulNonNegative(e, d);
    var k :| Differ(e * d, 1, k, (p - 1) * b);
    assert k * ((p - 1) * b) == (k * b) * (p - 1);
    if k * b < 0 { MulMono(k * b, -1, p - 1); }
    ReduceExponent(x, e * d, p, k * b, 1);
    assert Pow(x, 1) == x;
    CongSym(x, Pow(x, e * d), p);
  }

  /** x^(e*d) = x modulo n for every x, including the multiples of p or q. */
  lemma ExponentsCancel(k: PrivateKey, x: int)
    requires ValidKey(k)
    ensures 0 <= k.e * k.d && Cong(Pow(x, k.e * k.d), x, k.n)
  {
    PrimeRoundTrip(x, k.e, k.d, k.p, k.q - 1);
    assert (k.p - 1) * (k.q - 1) == (k.q - 1) * (k.p - 1);
    PrimeRoundTrip(x, k.e, k.d, k.q, k.p - 1);
    Remainders(Pow(x, k.e * k.d), x, k.p, k.q);
  }

  lemma PowModTwice(x: nat, a: nat, b: nat, n: nat)
    requires n > 0 && x < n && 0 <= a * b && Cong(Pow(x, a * b), x, n)
    ensures PowMod(PowMod(x, a, n), b, n) == x
  {
    var y := PowMod(x, a, n);
    PowModCong(x, a, n);
    CongPow(y, Pow(x, a), b, n);
    PowMul(x, a, b);
    PowModCong(y, b, n);
    CongTrans(PowMod(y, b, n), Pow(y, b), Pow(x, a * b), n);
    CongTrans(PowMod(y, b, n), Pow(x, a * b), x, n);
    CongUnique(PowMod(y, b, n), x, n);
  }

  /** The private operation inverts the public one and the public one inverts the private one. */
  lemma OperationsInverse(k: PrivateKey, x: nat)
    requires ValidKey(k) && x < k.n
    ensures PowMod(PowMod(x, k.e, k.n), k.d, k.n) == x
    ensures PowMod(PowMod(x, k.d, k.n), k.e, k.n) == x
  {
    ExponentsCancel(k, x);
    PowModTwice(x, k.e, k.d, k.n);
    assert k.e * k.d == k.d * k.e;
    PowModTwice(x, k.d, k.e, k.n);
  }

  // ---- key import

  const TEST_VALUE: nat := 0xdeadbeef

  /** The two exponents cancel on the test value. */
  predicate CancelsOnTest(k: PrivateKey)
    requires k.n > 0
  {
    && PowMod(PowMod(TEST_VALUE, k.e, k.n), k.d, k.n) == TEST_VALUE
    && PowMod(PowMod(TEST_VALUE, k.d, k.n), k.e, k.n) == TEST_VALUE
  }

  /** `rsa_test_key`: raise a fixed value to e and d, in both orders. */
  method TestKey(k: PrivateKey) returns (ok: bool)
    requires k.n > 0
    ensures ok <==> CancelsOnTest(k)
    ensures ValidKey(k) ==> (ok <==> TEST_VALUE < k.n)
  {
    var t := TEST_VALUE;
    ok := true;
    var a := PowMod(t, k.e, k.n);
    var b := PowMod(a, k.d, k.n);
    if t != b { ok := false; }
    a := PowMod(t, k.d, k.n);
    b := PowMod(a, k.e, k.n);
    if t != b { ok := false; }
    if ValidKey(k) && t < k.n { OperationsInverse(k, t); }
  }

  function Totient(p: nat, q: nat): nat
    requires p > 0 && q > 0
  {
    var a: nat, b: nat := p - 1, q - 1;
    a * b
  }

  /** The inverses that `tpm_bn_invert` returns, where they exist. */
  ghost predicate Inverts(inv: (nat, nat) -> nat, e: nat, p: nat, q: nat)
    requires p > 0 && q > 0
  {
    var phi := Totient(p, q);
    Cong(e * inv(e, phi), 1, phi) && Cong(p * inv(p, q), 1, q)
  }

  /** The caller names one or both of the primes p < q of n, in either order. */
  ghost predicate Names(n: nat, p0: Option<nat>, q0: Option<nat>, p: nat, q: nat) {
    && ValidPrimes(n, p, q)
    && (p0.Some? || q0.Some?)
    && (p0.Some? ==> p0.value == p || p0.value == q)
    && (q0.Some? ==> q0.value == p || q0.value == q)
    && (p0.Some? && q0.Some? ==> p0.value != q0.value)
  }

  lemma PrimesDivide(n: nat, p: nat, q: nat)
    requires ValidPrimes(n, p, q)
    ensures n / p == q && n / q == p
  {
    assert n == q * p + 0;
    Quotient(n, q, 0, p);
    Quotient(n, p, 0, q);
  }

  /** The missing prime is found by division, and the smaller one becomes p. */
  method FindPrimes(n: nat, p0: Option<nat>, q0: Option<nat>, ghost p: nat, ghost q: nat)
    returns (a: nat, b: nat)
    requires (p0.Some? ==> p0.value > 0) && (q0.Some? ==> q0.value > 0)
    ensures Names(n, p0, q0, p, q) ==> a == p && b == q
    ensures a <= b && (p0.Some? ==> p0.value in {a, b}) && (q0.Some? ==> q0.value in {a, b})
    ensures p0.None? && q0.Some? ==> n / q0.value in {a, b}
    ensures p0.Some? && q0.None? ==> n / p0.value in {a, b}
  {
    if Names(n, p0, q0, p, q) { PrimesDivide(n, p, q); }
    a, b := 1, 1;
    if p0.Some? { a := p0.value; }
    if q0.Some? { b := q0.value; }
    if p0.None? { a := n / b; }
    if q0.None? && a > 0 { b := n / a; }
    if a > b { a, b := b, a; }
  }

  function KeyFrom(n: nat, e: nat, p: nat, q: nat, inv: (nat, nat) -> nat, size: nat): PrivateKey
    requires p > 0 && q > 0
  {
    PrivateKey(n, e, inv(e, Totient(p, q)), p, q, inv(p, q), size)
  }

  lemma KeyFromValid(n: nat, e: nat, p: nat, q: nat, inv: (nat, nat) -> nat, size: nat)
    requires ValidPrimes(n, p, q) && Inverts(inv, e, p, q)
    ensures ValidKey(KeyFrom(n, e, p, q, inv, size))
  {
    var u := inv(p, q);
    assert p * u == u * p;
  }

  /** `tpm_rsa_import_key`. When the caller names the two primes of n, and e and p have inverses,
      the import succeeds exactly for the moduli above the test value, and the imported key is
      valid. The ghost arguments are the primes p < q. */
  method ImportKey(n: nat, e: nat, p0: Option<nat>, q0: Option<nat>, nLen: nat,
                   inv: (nat, nat) -> nat, ghost p: nat, ghost q: nat)
    returns (key: Option<PrivateKey>)
    requires n > 0 && (p0.Some? ==> p0.value > 0) && (q0.Some? ==> q0.value > 0)
    ensures nLen == 0 || (p0.None? && q0.None?) ==> key.None?
    ensures key.Some? ==>
      && key.value.n == n && key.value.e == e && key.value.size == 8 * nLen && CancelsOnTest(key.value)
      && key.value.p <= key.value.q
      && (p0.Some? ==> p0.value in {key.value.p, key.value.q})
      && (q0.Some? ==> q0.value in {key.value.p, key.value.q})
    ensures
      nLen > 0 && Names(n, p0, q0, p, q) && Inverts(inv, e, p, q) ==>
      && (key.Some? <==> TEST_VALUE < n)
      && (key.Some? ==> ValidKey(key.value) && key.value.n == n && key.value.e == e
                        && key.value.p == p && key.value.q == q && key.value.size == 8 * nLen)
  {
    if nLen == 0 || (p0.None? && q0.None?) { return None; }
    var a, b := FindPrimes(n, p0, q0, p, q);
    key := None;
    if a > 0 && b > 0 {
      var k := KeyFrom(n, e, a, b, inv, 8 * nLen);
      if Names(n, p0, q0, p, q) && Inverts(inv, e, p, q) { KeyFromValid(n, e, p, q, inv, 8 * nLen); }
      var ok := TestKey(k);
      if ok { key := Some(k); }
    }
  }

  // ---- byte buffers

  /** `tpm_bn_bitsize`: GMP counts one digit for zero. */
  function BitSize(n: nat): nat {
    if n < 2 then 1 else 1 + BitSize(n / 2)
  }

  lemma BitSizeOfBytes(n: nat)
    requires n >= 256
    ensures BitSize(n) == 8 + BitSize(n / 256)
  {
    Halve4(n);
    Halve4(n / 16);
    assert n / 16 / 16 == n / 256;
  }

  lemma Halve4(n: nat)
    requires n >= 16
    ensures BitSize(n) == 4 + BitSize(n / 16)
  {
    assert n / 2 / 2 == n / 4;
    assert n / 4 / 2 == n / 8;
    assert n / 8 / 2 == n / 16;
    assert BitSize(n) == 1 + BitSize(n / 2);
    assert BitSize(n / 2) == 1 + BitSize(n / 4);
    assert BitSize(n / 4) == 1 + BitSize(n / 8);
    assert BitSize(n / 8) == 1 + BitSize(n / 16);
  }

  lemma BitSizeOfByte(n: nat)
    requires n < 256
    ensures 1 <= BitSize(n) <= 8
  {
    if n >= 16 { Halve4(n); }
    var m := if n >= 16 then n / 16 else n;
    assert m < 2 || BitSize(m) == 1 + BitSize(m / 2);
    assert m < 4 || BitSize(m / 2) == 1 + BitSize(m / 2 / 2);
  }

  /** The number of exported bytes, from the number of bits. */
  lemma {:induction false} ExportLength(n: nat)
    requires n > 0
    ensures 8 * |ToBytes(n)| - 7 <= BitSize(n) <= 8 * |ToBytes(n)|
  {
    if n >= 256 {
      ExportLength(n / 256);
      BitSizeOfBytes(n);
    } else {
      assert ToBytes(n / 256) == [];
      BitSizeOfByte(n);
    }
  }

  /** The buffer after `memset(out, 0, t); tpm_bn_export(&out[t], ..., c)`. */
  function Exported(c: nat, size: nat, before: seq<byte>): seq<byte>
    requires BitSize(c) <= size && size == 8 * |before|
    requires (size - BitSize(c)) / 8 + |ToBytes(c)| <= |before|
  {
    var t := (size - BitSize(c)) / 8;
    Zeros(t) + ToBytes(c) + before[t + |ToBytes(c)|..]
  }

  /** The buffer holds the fixed-length encoding of c, except that the last byte keeps what
      it held when c is zero. */
  lemma ExportedIsFixed(c: nat, k: nat, before: seq<byte>)
    requires c < Pow(256, k) && k == |before| > 0
    ensures BitSize(c) <= 8 * k && |ToBytes(c)| <= k
    ensures (8 * k - BitSize(c)) / 8 + |ToBytes(c)| <= k
    ensures Exported(c, 8 * k, before) == Fixed(c, k)
            <==> c > 0 || before[k - 1] == 0
    ensures c == 0 ==> Exported(c, 8 * k, before) == Zeros(k - 1) + [before[k - 1]]
  {
    ToBytesLength(c, k);
    if c > 0 {
      ExportLength(c);
      assert (8 * k - BitSize(c)) / 8 == k - |ToBytes(c)|;
      assert Exported(c, 8 * k, before) == Fixed(c, k);
    } else {
      assert BitSize(0) == 1;
      assert Exported(c, 8 * k, before) == Zeros(k - 1) + [before[k - 1]];
      assert Fixed(0, k)[k - 1] == 0;
      assert Exported(c, 8 * k, before)[k - 1] == before[k - 1];
    }
  }

  /** The common tail of `rsa_public` and `rsa_private`. */
  method ExportResult(c: nat, size: nat, out: array<byte>) returns (ok: bool)
    requires size == 8 * out.Length && out.Length > 0
    modifies out
    ensures ok <==> BitSize(c) <= size
    ensures ok <==> c < Pow(256, out.Length)
    ensures !ok ==> out[..] == old(out[..])
    ensures ok ==> (size - BitSize(c)) / 8 + |ToBytes(c)| <= out.Length
    ensures ok ==> out[..] == Exported(c, size, old(out[..]))
  {
    ghost var before := out[..];
    var t := BitSize(c);
    FitsIffBits(c, out.Length);
    if t > size { return false; }
    ExportedIsFixed(c, out.Length, before);
    t := (size - t) / 8;
    PadAndWrite(out, t, ToBytes(c));
    ok := true;
  }

  /** `memset(out, 0, t)`, then the number behind it. */
  method PadAndWrite(out: array<byte>, t: nat, s: seq<byte>)
    requires t + |s| <= out.Length
    modifies out
    ensures out[..] == Zeros(t) + s + old(out[t + |s|..])
  {
    Write(out, 0, Zeros(t));
    Write(out, t, s);
  }

  lemma FitsIffBits(c: nat, k: nat)
    requires k > 0
    ensures BitSize(c) <= 8 * k <==> c < Pow(256, k)
  {
    ToBytesLength(c, k);
    if c > 0 { ExportLength(c); } else { PowPositive(256, k); }
  }

  /** What the buffer holds after c was exported over it: the fixed-length encoding of c, but
      for c = 0 the last byte is the old one. */
  function Held(c: nat, before: seq<byte>): (now: seq<byte>)
    requires |before| > 0 && |ToBytes(c)| <= |before|
    ensures |now| == |before|
    ensures now == Fixed(c, |before|) <==> c > 0 || before[|before| - 1] == 0
  {
    if c > 0 then Fixed(c, |before|)
    else
      var now := Zeros(|before| - 1) + [before[|before| - 1]];
      assert now[|before| - 1] == before[|before| - 1] && Fixed(0, |before|)[|before| - 1] == 0;
      now
  }

  /** `rsa_public`. The input may be the output buffer itself: it is imported first. */
  method PublicOp(n: nat, e: nat, size: nat, input: seq<byte>, out: array<byte>) returns (ok: bool)
    requires n > 0 && size == 8 * out.Length && out.Length > 0
    modifies out
    ensures ok <==> |ToBytes(PowMod(OfBytes(input), e, n))| <= out.Length
    ensures !ok ==> out[..] == old(out[..])
    ensures ok ==> out[..] == Held(PowMod(OfBytes(input), e, n), old(out[..]))
  {
    var p := OfBytes(input);
    var c := PowMod(p, e, n);
    ghost var before := out[..];
    ToBytesLength(c, out.Length);
    ok := ExportResult(c, size, out);
    if ok { ExportedIsFixed(c, out.Length, before); }
  }

  /** `rsa_private`. */
  method PrivateOp(k: PrivateKey, input: seq<byte>, out: array<byte>) returns (ok: bool)
    requires ValidKey(k) && k.size == 8 * out.Length && out.Length > 0
    modifies out
    ensures ok <==> |ToBytes(PowMod(OfBytes(input), k.d, k.n))| <= out.Length
    ensures !ok ==> out[..] == old(out[..])
    ensures ok ==> out[..] == Held(PowMod(OfBytes(input), k.d, k.n), old(out[..]))
  {
    var p := OfBytes(input);
    var c := PrivateCrt(k, p);
    ghost var before := out[..];
    ToBytesLength(c, out.Length);
    ok := ExportResult(c, k.size, out);
    if ok { ExportedIsFixed(c, out.Length, before); }
  }
}
