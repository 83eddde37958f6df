/** Powers, congruences and the theorems of Euclid, Fermat and the Chinese remainder
    that the big-number code of the emulator relies on. */
module NumberTheory {

  function Pow(b: int, e: nat): int {
    if e == 0 then 1 else b * Pow(b, e - 1)
  }

  predicate Differ(a: int, b: int, k: int, m: int) {
    a - b == k * m
  }

  /** `a` and `b` differ by a multiple of `m`. */
  ghost predicate Cong(a: int, b: int, m: int) {
    exists k :: Differ(a, b, k, m)
  }

  // ---- division with remainder

  lemma SmallMultiple(x: int, m: nat)
    requires m > 0 && 0 - m < x * m < m
    ensures x == 0
  {
    if x >= 1 { MulMono(1, x, m); }
    if x <= -1 { MulMono(x, -1, m); }
  }

  lemma MulMono(x: int, y: int, m: nat)
    requires x <= y
    ensures x * m <= y * m
  {
    assert y * m - x * m == (y - x) * m;
    if m > 0 { MulNonNegative(y - x, m); }
  }

  lemma MulNonNegative(x: nat, y: nat)
    ensures 0 <= x * y
  {}

  lemma DivMod(a: nat, m: nat) returns (q: nat, r: nat)
    requires m > 0
    ensures a == q * m + r && r < m && q == a / m && r == a % m
  {
    q, r := a / m, a % m;
  }

  lemma Quotient(a: int, q: int, r: int, m: nat)
    requires m > 0 && a == q * m + r && 0 <= r < m
    ensures a / m == q && a % m == r
  {
    assert a == (a / m) * m + a % m;
    assert (q - a / m) * m == q * m - (a / m) * m;
    SmallMultiple(q - a / m, m);
  }

  lemma CongShift(b: int, k: int, m: int)
    ensures Cong(b + k * m, b, m)
  {
    assert Differ(b + k * m, b, k, m);
  }

  lemma CongRefl(a: int, m: int)
    ensures Cong(a, a, m)
  {
    assert Differ(a, a, 0, m);
  }

  lemma CongSym(a: int, b: int, m: int)
    requires Cong(a, b, m)
    ensures Cong(b, a, m)
  {
    var k :| Differ(a, b, k, m);
    assert (-k) * m == -(k * m);
    assert Differ(b, a, -k, m);
  }

  lemma CongTrans(a: int, b: int, c: int, m: int)
    requires Cong(a, b, m) && Cong(b, c, m)
    ensures Cong(a, c, m)
  {
    var k :| Differ(a, b, k, m);
    var l :| Differ(b, c, l, m);
    assert (k + l) * m == k * m + l * m;
    assert Differ(a, c, k + l, m);
  }

  lemma CongMod(a: int, m: nat)
    requires m > 0
    ensures 0 <= a % m < m && Cong(a % m, a, m) && Cong(a, a % m, m)
  {
    assert a == (a / m) * m + a % m;
    assert Differ(a, a % m, a / m, m);
    CongSym(a, a % m, m);
  }

  lemma CongUnique(a: int, b: int, m: nat)
    requires m > 0 && Cong(a, b, m) && 0 <= a < m && 0 <= b < m
    ensures a == b
  {
    var k :| Differ(a, b, k, m);
    SmallMultiple(k, m);
  }

  lemma CongModEqual(a: int, b: int, m: nat)
    requires m > 0
    ensures Cong(a, b, m) <==> a % m == b % m
  {
    CongMod(a, m);
    CongMod(b, m);
    if Cong(a, b, m) {
      CongTrans(a % m, a, b, m);
      CongTrans(a % m, b, b % m, m);
      CongUnique(a % m, b % m, m);
    } else if a % m == b % m {
      CongTrans(a, a % m, b, m);
    }
  }

  lemma CongAdd(a: int, b: int, c: int, d: int, m: int)
    requires Cong(a, b, m) && Cong(c, d, m)
    ensures Cong(a + c, b + d, m)
  {
    var k :| Differ(a, b, k, m);
    var l :| Differ(c, d, l, m);
    assert (k + l) * m == k * m + l * m;
    assert Differ(a + c, b + d, k + l, m);
  }

  lemma CongMul(a: int, b: int, c: int, d: int, m: int)
    requires Cong(a, b, m) && Cong(c, d, m)
    ensures Cong(a * c, b * d, m)
  {
    var k :| Differ(a, b, k, m);
    var l :| Differ(c, d, l, m);
    calc {
      a * c - b * d;
      { assert a * c - b * c == (a - b) * c; assert b * c - b * d == b * (c - d); }
      (a - b) * c + b * (c - d);
      k * m * c + b * (l * m);
      { assert k * m * c == (k * c) * m; assert b * (l * m) == (b * l) * m; }
      (k * c) * m + (b * l) * m;
      (k * c + b * l) * m;
    }
    assert Differ(a * c, b * d, k * c + b * l, m);
  }

  lemma {:induction false} CongPow(a: int, b: int, e: nat, m: int)
    requires Cong(a, b, m)
    ensures Cong(Pow(a, e), Pow(b, e), m)
  {
    if e == 0 {
      CongRefl(1, m);
    } else {
      CongPow(a, b, e - 1, m);
      CongMul(a, b, Pow(a, e - 1), Pow(b, e - 1), m);
    }
  }

  // ---- laws of powers

  lemma {:induction false} PowPositive(b: nat, e: nat)
    requires b > 0
    ensures Pow(b, e) > 0
  {
    if e > 0 { PowPositive(b, e - 1); MulPositive(b, Pow(b, e - 1)); }
  }

  lemma MulPositive(x: int, y: int)
    requires x > 0 && y > 0
    ensures x * y > 0
  {}

  lemma {:induction false} PowAdd(b: int, d: nat, e: nat)
    ensures Pow(b, d + e) == Pow(b, d) * Pow(b, e)
  {
    if d > 0 {
      PowAdd(b, d - 1, e);
      calc {
        Pow(b, d + e);
        b * Pow(b, d - 1 + e);
        b * (Pow(b, d - 1) * Pow(b, e));
        (b * Pow(b, d - 1)) * Pow(b, e);
      }
    }
  }

  lemma {:induction false} PowMul(b: int, d: nat, e: nat)
    ensures 0 <= d * e && Pow(b, d * e) == Pow(Pow(b, d), e)
    decreases e
  {
    MulNonNegative(d, e);
    if e > 0 {
      PowMul(b, d, e - 1);
      assert d * e == d + d * (e - 1);
      PowAdd(b, d, d * (e - 1));
    } else {
      assert d * e == 0;
    }
  }

  lemma {:induction false} PowDistributes(a: int, b: int, e: nat)
    ensures Pow(a * b, e) == Pow(a, e) * Pow(b, e)
  {
    if e > 0 {
      PowDistributes(a, b, e - 1);
      calc {
        Pow(a * b, e);
        (a * b) * (Pow(a, e - 1) * Pow(b, e - 1));
        { MulSwap(a, b, Pow(a, e - 1), Pow(b, e - 1)); }
        (a * Pow(a, e - 1)) * (b * Pow(b, e - 1));
      }
    }
  }

  lemma MulSwap(a: int, b: int, c: int, d: int)
    ensures (a * b) * (c * d) == (a * c) * (b * d)
  {
    assert (a * b) * (c * d) == a * (b * (c * d)) == a * (c * (b * d));
  }

  lemma {:induction false} PowOne(e: nat)
    ensures Pow(1, e) == 1
  {
    if e > 0 { PowOne(e - 1); }
  }

  /** The sizes of the integers on the wire. */
  lemma SmallPowers()
    ensures Pow(256, 1) == 0x100 && Pow(256, 2) == 0x1_0000 && Pow(256, 4) == 0x1_0000_0000
    ensures Pow(256, 8) == 0x1_0000_0000_0000_0000
  {
    assert Pow(256, 1) == 0x100;
    assert Pow(256, 2) == 0x1_0000;
    PowAdd(256, 2, 2);
    PowAdd(256, 4, 4);
  }
}
