/** Euclid's lemma and Fermat's little theorem, from the definition of a prime. */
module Fermat {
  import opened NumberTheory

  ghost predicate Prime(p: nat) {
    2 <= p && forall d: nat :: 2 <= d < p ==> !Cong(p, 0, d)
  }

  lemma {:induction false} EuclidSmall(p: nat, a: nat, b: int)
    requires Prime(p) && 0 < a < p && Cong(a * b, 0, p)
    ensures Cong(b, 0, p)
    decreases a
  {
    if a > 1 {
      var q, r := DivMod(p, a);
      if r == 0 {
        assert Differ(p, 0, q, a);
        assert Cong(p, 0, a);
        assert false;
      }
      RemainderMultiple(p, a, b, q, r);
      EuclidSmall(p, r, b);
    }
  }

  lemma RemainderMultiple(p: nat, a: nat, b: int, q: int, r: int)
    requires p == q * a + r && Cong(a * b, 0, p)
    ensures Cong(r * b, 0, p)
  {
    var k :| Differ(a * b, 0, k, p);
    calc {
      r * b;
      (p - q * a) * b;
      p * b - (q * a) * b;
      { assert (q * a) * b == q * (a * b); }
      p * b - q * (k * p);
      { assert q * (k * p) == (q * k) * p; }
      (b - q * k) * p;
    }
    assert Differ(r * b, 0, b - q * k, p);
  }

  /** A prime that divides a product divides one of the factors. */
  lemma Euclid(p: nat, a: int, b: int)
    requires Prime(p) && Cong(a * b, 0, p) && !Cong(a, 0, p)
    ensures Cong(b, 0, p)
  {
    CongMod(a, p);
    var r := a % p;
    assert r != 0;
    CongRefl(b, p);
    CongMul(r, a, b, b, p);
    CongTrans(r * b, a * b, 0, p);
    EuclidSmall(p, r, b);
  }

  lemma Cancel(p: nat, a: int, x: int, y: int)
    requires Prime(p) && !Cong(a, 0, p) && Cong(a * x, a * y, p)
    ensures Cong(x, y, p)
  {
    var k :| Differ(a * x, a * y, k, p);
    assert a * (x - y) == a * x - a * y;
    assert Differ(a * (x - y), 0, k, p);
    Euclid(p, a, x - y);
    var l :| Differ(x - y, 0, l, p);
    assert Differ(x, y, l, p);
  }

  // ---- products of sequences, and what a permutation leaves unchanged

  function Product(s: seq<int>): int {
    if s == [] then 1 else Product(s[..|s| - 1]) * s[|s| - 1]
  }

  function Factorial(n: nat): int {
    if n == 0 then 1 else Factorial(n - 1) * n
  }

  predicate Injective(s: seq<int>) {
    forall i, j :: 0 <= i < j < |s| ==> s[i] != s[j]
  }

  predicate Within(s: seq<int>, n: nat) {
    forall i :: 0 <= i < |s| ==> 1 <= s[i] <= n
  }

  lemma {:induction false} ProductRemove(s: seq<int>, k: nat)
    requires k < |s|
    ensures Product(s) == Product(s[..k] + s[k + 1..]) * s[k]
  {
    var t := s[..k] + s[k + 1..];
    if k == |s| - 1 {
      assert t == s[..k];
    } else {
      var u := s[..|s| - 1];
      ProductRemove(u, k);
      assert t[..|t| - 1] == u[..k] + u[k + 1..];
      assert t[|t| - 1] == s[|s| - 1];
    }
  }

  /** An injective sequence over 1..n of length n + 1 does not exist. */
  lemma {:induction false} TooLong(s: seq<int>, n: nat)
    requires Injective(s) && Within(s, n)
    ensures |s| <= n
  {
    assert |s| == 0 || 1 <= s[0] <= n;
    if n == 0 {
    } else if k :| 0 <= k < |s| && s[k] == n {
      var t := s[..k] + s[k + 1..];
      assert Injective(t) && Within(t, n - 1);
      TooLong(t, n - 1);
    } else {
      TooLong(s, n - 1);
    }
  }

  /** Any arrangement of 1..n multiplies to n factorial. */
  lemma {:induction false} ProductOfArrangement(s: seq<int>, n: nat)
    requires |s| == n && Injective(s) && Within(s, n)
    ensures Product(s) == Factorial(n)
  {
    if n > 0 {
      if k :| 0 <= k < |s| && s[k] == n {
        var t := s[..k] + s[k + 1..];
        assert Injective(t) && Within(t, n - 1);
        ProductOfArrangement(t, n - 1);
        ProductRemove(s, k);
      } else {
        TooLong(s, n - 1);
      }
    }
  }

  // ---- Fermat's little theorem

  function Residue(a: int, i: int, p: nat): int
    requires p > 0
  {
    (a * i) % p
  }

  /** The residues of a, 2a, ..., na modulo p. */
  function Residues(a: int, n: nat, p: nat): (s: seq<int>)
    requires p > 0
    ensures |s| == n && forall i :: 0 <= i < n ==> s[i] == Residue(a, i + 1, p)
  {
    seq(n, i => Residue(a, i + 1, p))
  }

  lemma {:induction false} ProductOfResidues(a: int, n: nat, p: nat)
    requires p > 0
    ensures Cong(Product(Residues(a, n, p)), Pow(a, n) * Factorial(n), p)
  {
    if n == 0 {
      CongRefl(1, p);
    } else {
      var s, t := Residues(a, n, p), Residues(a, n - 1, p);
      assert s[..n - 1] == t;
      ProductOfResidues(a, n - 1, p);
      CongMod(a * n, p);
      CongMul(Product(t), Pow(a, n - 1) * Factorial(n - 1), s[n - 1], a * n, p);
      MulSwap(Pow(a, n - 1), Factorial(n - 1), a, n);
      assert Pow(a, n - 1) * a == Pow(a, n);
    }
  }

  lemma SmallNotMultiple(x: nat, p: nat)
    requires 0 < x < p
    ensures !Cong(x, 0, p)
  {
    if Cong(x, 0, p) { CongUnique(x, 0, p); }
  }

  lemma ResiduesWithin(a: int, p: nat, s: seq<int>)
    requires Prime(p) && !Cong(a, 0, p) && s == Residues(a, p - 1, p)
    ensures Within(s, p - 1)
  {
    forall i | 0 <= i < |s| ensures 1 <= s[i] <= p - 1 {
      ResidueInRange(a, i + 1, p);
    }
  }

  lemma ResiduesInjective(a: int, p: nat, s: seq<int>)
    requires Prime(p) && !Cong(a, 0, p) && s == Residues(a, p - 1, p)
    ensures Injective(s)
  {
    forall i, j | 0 <= i < j < |s| ensures s[i] != s[j] {
      ResiduesDiffer(a, i + 1, j + 1, p);
    }
  }

  lemma ResidueInRange(a: int, i: nat, p: nat)
    requires Prime(p) && !Cong(a, 0, p) && 0 < i < p
    ensures 1 <= Residue(a, i, p) <= p - 1
  {
    CongMod(a * i, p);
    if (a * i) % p == 0 {
      Euclid(p, a, i);
      SmallNotMultiple(i, p);
    }
  }

  lemma ResiduesDiffer(a: int, i: nat, j: nat, p: nat)
    requires Prime(p) && !Cong(a, 0, p) && 0 < i < j < p
    ensures Residue(a, i, p) != Residue(a, j, p)
  {
    CongModEqual(a * i, a * j, p);
    if Cong(a * i, a * j, p) {
      Cancel(p, a, i, j);
      CongUnique(i, j, p);
    }
  }

  lemma {:induction false} FactorialNotMultiple(n: nat, p: nat)
    requires Prime(p) && n < p
    ensures !Cong(Factorial(n), 0, p)
  {
    if n == 0 {
      SmallNotMultiple(1, p);
    } else {
      FactorialNotMultiple(n - 1, p);
      SmallNotMultiple(n, p);
      if Cong(Factorial(n), 0, p) { Euclid(p, Factorial(n - 1), n); }
    }
  }

  /** Fermat: a^(p-1) = 1 modulo a prime p that does not divide a. */
  lemma LittleTheorem(a: int, p: nat)
    requires Prime(p) && !Cong(a, 0, p)
    ensures Cong(Pow(a, p - 1), 1, p)
  {
    var n := p - 1;
    ResiduesWithin(a, p, Residues(a, n, p));
    ResiduesInjective(a, p, Residues(a, n, p));
    ProductOfArrangement(Residues(a, n, p), n);
    ProductOfResidues(a, n, p);
    CongSym(Factorial(n), Pow(a, n) * Factorial(n), p);
    FactorialNotMultiple(n, p);
    assert Factorial(n) * Pow(a, n) == Pow(a, n) * Factorial(n);
    assert Factorial(n) * 1 == Factorial(n);
    Cancel(p, Factorial(n), Pow(a, n), 1);
  }

  /** Exponents may be reduced modulo p - 1, as long as the reduced one is not zero. */
  lemma ReduceExponent(a: int, d: nat, p: nat, q: nat, r: nat)
    requires Prime(p) && d == q * (p - 1) + r && r > 0
    ensures Cong(Pow(a, r), Pow(a, d), p)
  {
    MulNonNegative(q, p - 1);
    if Cong(a, 0, p) {
      PowOfZero(a, r, p);
      PowOfZero(a, d, p);
      CongSym(Pow(a, d), 0, p);
      CongTrans(Pow(a, r), 0, Pow(a, d), p);
    } else {
      LittleTheorem(a, p);
      PowerOfOrder(a, p - 1, q, r, p);
      CongSym(Pow(a, d), Pow(a, r), p);
    }
  }

  /** Multiples of an exponent that gives 1 do not count. */
  lemma PowerOfOrder(a: int, n: nat, q: nat, r: nat, m: nat)
    requires Cong(Pow(a, n), 1, m)
    ensures 0 <= q * n && Cong(Pow(a, q * n + r), Pow(a, r), m)
  {
    CongPow(Pow(a, n), 1, q, m);
    PowOne(q);
    PowMul(a, n, q);
    assert n * q == q * n;
    PowAdd(a, q * n, r);
    CongRefl(Pow(a, r), m);
    CongMul(Pow(a, q * n), 1, Pow(a, r), Pow(a, r), m);
  }

  lemma PowOfZero(a: int, e: nat, p: nat)
    requires e > 0 && Cong(a, 0, p)
    ensures Cong(Pow(a, e), 0, p)
  {
    CongRefl(Pow(a, e - 1), p);
    CongMul(a, 0, Pow(a, e - 1), Pow(a, e - 1), p);
  }

  /** Congruent modulo two different primes means congruent modulo their product. */
  lemma Remainders(x: int, y: int, p: nat, q: nat)
    requires Prime(p) && Prime(q) && p < q && Cong(x, y, p) && Cong(x, y, q)
    ensures Cong(x, y, p * q)
  {
    var k :| Differ(x, y, k, p);
    var l :| Differ(x, y, l, q);
    SmallNotMultiple(p, q);
    assert p * k == k * p;
    assert Differ(p * k, 0, l, q);
    Euclid(q, p, k);
    var j :| Differ(k, 0, j, q);
    assert j * q * p == j * (p * q);
    assert Differ(x, y, j, p * q);
  }
}
