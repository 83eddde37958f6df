/** The algebra behind the DAA stages: products of powers built factor by factor, responses
    r + c * v, and exponents split at a power of two. */
module DaaAlgebra {
  import opened NumberTheory
  import opened Rsa

  /** a^w * b^x * c^y * d^z. */
  function Quad(a: int, b: int, c: int, d: int, w: nat, x: nat, y: nat, z: nat): int {
    (Pow(a, w) * Pow(b, x)) * (Pow(c, y) * Pow(d, z))
  }

  lemma Commute(x: int, y: int)
    ensures x * y == y * x
  {}

  /** One more factor: z ≡ t implies x^y mod n * z mod n ≡ t * x^y. */
  lemma Factor(x: int, y: nat, z: nat, t: int, n: nat)
    requires n > 0 && Cong(z, t, n)
    ensures Cong(PowMod(x, y, n) * z % n, t * Pow(x, y), n)
  {
    PowModCong(x, y, n);
    var p := PowMod(x, y, n);
    CongMul(p, Pow(x, y), z, t, n);
    CongMod(p * z, n);
    CongTrans(p * z % n, p * z, Pow(x, y) * t, n);
    Commute(t, Pow(x, y));
  }

  /** Four stages build the product of four powers. */
  lemma FourFactors(a: int, b: int, c: int, d: int, w: nat, x: nat, y: nat, z: nat, n: nat,
                    z1: nat, z2: nat, z3: nat, z4: nat)
    requires n > 0
    requires z1 == PowMod(a, w, n) * 1 % n && z2 == PowMod(b, x, n) * z1 % n
    requires z3 == PowMod(c, y, n) * z2 % n && z4 == PowMod(d, z, n) * z3 % n
    ensures Cong(z4, Quad(a, b, c, d, w, x, y, z), n)
  {
    CongRefl(1, n);
    Factor(a, w, 1, 1, n);
    Factor(b, x, z1, Pow(a, w), n);
    Factor(c, y, z2, Pow(a, w) * Pow(b, x), n);
    Factor(d, z, z3, Pow(a, w) * Pow(b, x) * Pow(c, y), n);
    Associate(Pow(a, w) * Pow(b, x), Pow(c, y), Pow(d, z));
  }

  lemma Associate(p: int, q: int, r: int)
    ensures p * q * r == p * (q * r)
  {}

  /** x^(r + c v) = x^r (x^v)^c. */
  lemma PowRespond(x: int, r: nat, c: nat, v: nat)
    ensures c * v >= 0 && Pow(x, r + c * v) == Pow(x, r) * Pow(Pow(x, v), c)
  {
    MulNonNegative(c, v);
    PowAdd(x, r, c * v);
    Commute(c, v);
    PowMul(x, v, c);
  }

  lemma SwapProducts(a: int, b: int, c: int, d: int)
    ensures (a * b) * (c * d) == (a * c) * (b * d)
  {
    MulSwap(a, b, c, d);
  }

  lemma PairRespond(x: int, y: int, r: nat, t: nat, c: nat, u: nat, v: nat)
    ensures c * u >= 0 && c * v >= 0
    ensures Pow(x, r + c * u) * Pow(y, t + c * v)
         == (Pow(x, r) * Pow(y, t)) * Pow(Pow(x, u) * Pow(y, v), c)
  {
    PowRespond(x, r, c, u);
    PowRespond(y, t, c, v);
    SwapProducts(Pow(x, r), Pow(Pow(x, u), c), Pow(y, t), Pow(Pow(y, v), c));
    PowDistributes(Pow(x, u), Pow(y, v), c);
  }

  lemma QuadRespond(a: int, b: int, c: int, d: int, k: nat,
                    r0: nat, r1: nat, r2: nat, r3: nat, v0: nat, v1: nat, v2: nat, v3: nat)
    ensures k * v0 >= 0 && k * v1 >= 0 && k * v2 >= 0 && k * v3 >= 0
    ensures Quad(a, b, c, d, r0 + k * v0, r1 + k * v1, r2 + k * v2, r3 + k * v3)
         == Quad(a, b, c, d, r0, r1, r2, r3) * Pow(Quad(a, b, c, d, v0, v1, v2, v3), k)
  {
    PairRespond(a, b, r0, r1, k, v0, v1);
    PairRespond(c, d, r2, r3, k, v2, v3);
    var p, q := Pow(a, v0) * Pow(b, v1), Pow(c, v2) * Pow(d, v3);
    SwapProducts(Pow(a, r0) * Pow(b, r1), Pow(p, k), Pow(c, r2) * Pow(d, r3), Pow(q, k));
    PowDistributes(p, q, k);
  }

  /** With d ≡ c^m, the part of an exponent of c above m may move to d. */
  lemma SplitExponent(c: int, d: int, m: nat, x: nat, y: nat, n: nat)
    requires m > 0 && Cong(d, Pow(c, m), n)
    ensures Cong(Pow(c, x % m) * Pow(d, y + x / m), Pow(c, x) * Pow(d, y), n)
  {
    var q, r := DivMod(x, m);
    PowAdd(d, y, q);
    CongPow(d, Pow(c, m), q, n);
    Commute(q, m);
    PowMul(c, m, q);
    PowAdd(c, r, m * q);
    var lo, hi, top, e := Pow(c, r), Pow(d, q), Pow(c, m * q), Pow(d, y);
    assert Pow(c, x) == lo * top;
    CongRefl(lo * e, n);
    CongMul(lo * e, lo * e, hi, top, n);
    Rearrange(lo, e, hi);
    Rearrange(lo, e, top);
  }

  lemma Rearrange(lo: int, e: int, hi: int)
    ensures (lo * e) * hi == lo * (e * hi) && (lo * e) * hi == (lo * hi) * e
  {
    Associate(lo, e, hi);
    Commute(e, hi);
    Associate(lo, hi, e);
  }

  /** The verification equation: with s0 = r0 + k v0, s1 = r1 + k v1, s2 the low and s3 the
      high part of the response for the split exponent, A^s0 B^s1 C^s2 D^s3 ≡ T * V^k. */
  lemma Verification(a: int, b: int, c: int, d: int, n: nat, m: nat, k: nat,
                     r0: nat, r1: nat, r2: nat, r3: nat, v0: nat, v1: nat, v2: nat, v3: nat,
                     t: int, v: int, s0: nat, s1: nat, x: nat, s2: nat, s3: nat)
    requires m > 0 && Cong(d, Pow(c, m), n)
    requires Cong(t, Quad(a, b, c, d, r0, r1, r2, r3), n)
    requires Cong(v, Quad(a, b, c, d, v0, v1, v2, v3), n)
    requires s0 == r0 + k * v0 && s1 == r1 + k * v1
    requires x == r2 + k * v2 && s2 == x % m && s3 == r3 + k * v3 + x / m
    ensures Cong(Quad(a, b, c, d, s0, s1, s2, s3), t * Pow(v, k), n)
  {
    QuadRespond(a, b, c, d, k, r0, r1, r2, r3, v0, v1, v2, v3);
    var y := r3 + k * v3;
    var head := Pow(a, s0) * Pow(b, s1);
    SplitExponent(c, d, m, x, y, n);
    CongRefl(head, n);
    CongMul(head, head, Pow(c, s2) * Pow(d, s3), Pow(c, x) * Pow(d, y), n);
    var quad, full := Quad(a, b, c, d, v0, v1, v2, v3), Quad(a, b, c, d, r0, r1, r2, r3);
    CongPow(v, quad, k, n);
    CongMul(t, full, Pow(v, k), Pow(quad, k), n);
    CongSym(t * Pow(v, k), full * Pow(quad, k), n);
    CongTrans(Quad(a, b, c, d, s0, s1, s2, s3), full * Pow(quad, k), t * Pow(v, k), n);
  }

  /** Exponents of an element of order dividing q count modulo q. */
  lemma OrderExponent(w: int, q: nat, x: nat, g: nat)
    requires q > 0 && Cong(Pow(w, q), 1, g)
    ensures Cong(Pow(w, x % q), Pow(w, x), g)
  {
    var k, r := DivMod(x, q);
    PowAdd(w, r, q * k);
    Commute(k, q);
    PowMul(w, q, k);
    CongPow(Pow(w, q), 1, k, g);
    PowOne(k);
    CongRefl(Pow(w, r), g);
    CongMul(Pow(w, r), Pow(w, r), Pow(Pow(w, q), k), 1, g);
    CongSym(Pow(w, x), Pow(w, r), g);
  }

  /** Reducing one summand before the sum does not change the sum modulo q. */
  lemma ReduceSum(x: nat, y: nat, q: nat)
    requires q > 0
    ensures (x % q + y) % q == (x + y) % q
  {
    CongMod(x, q);
    CongRefl(y, q);
    CongAdd(x % q, x, y, y, q);
    CongModEqual(x % q + y, x + y, q);
  }

  /** The equation in w: the responses s0 and s1 for the two halves of the secret answer for the
      whole of it, although r was reduced modulo q. */
  lemma Pseudonym(w: int, q: nat, g: nat, m: nat, k: nat, r0: nat, r1: nat, f: nat,
                  f0: nat, f1: nat, s0: nat, s1: nat, r: nat, big: int, big1: int)
    requires q > 0 && m > 0 && Cong(Pow(w, q), 1, g)
    requires f0 == f % m && f1 == f / m && s0 == r0 + k * f0 && s1 == r1 + k * f1
    requires m * r1 >= 0 && r == (m * r1 % q + r0) % q
    requires Cong(big, Pow(w, f), g) && Cong(big1, Pow(w, r), g)
    ensures m * s1 >= 0 && Cong(Pow(w, s0 + m * s1), big1 * Pow(big, k), g)
  {
    MulNonNegative(m, s1);
    var total := r0 + m * r1;
    SplitSum(r0, r1, k, f, m, s0, s1);
    PowRespond(w, total, k, f);
    ReduceSum(m * r1, r0, q);
    OrderExponent(w, q, total, g);
    CongTrans(big1, Pow(w, r), Pow(w, total), g);
    CongPow(big, Pow(w, f), k, g);
    CongMul(big1, Pow(w, total), Pow(big, k), Pow(Pow(w, f), k), g);
    CongSym(big1 * Pow(big, k), Pow(w, total) * Pow(Pow(w, f), k), g);
  }

  lemma SplitSum(r0: nat, r1: nat, k: nat, f: nat, m: nat, s0: nat, s1: nat)
    requires m > 0 && s0 == r0 + k * (f % m) && s1 == r1 + k * (f / m)
    ensures k * f >= 0 && s0 + m * s1 == (r0 + m * r1) + k * f
  {
    MulNonNegative(k, f);
    var q, r := DivMod(f, m);
    calc {
      s0 + m * s1;
      r0 + k * r + m * (r1 + k * q);
      { Distribute(m, r1, k * q); }
      r0 + k * r + (m * r1 + m * (k * q));
      { Associate(k, q, m); Commute(m, k * q); }
      r0 + m * r1 + (k * r + k * (q * m));
      { Distribute(k, q * m, r); }
      r0 + m * r1 + k * (q * m + r);
    }
  }

  lemma Distribute(x: int, y: int, z: int)
    ensures x * (y + z) == x * y + x * z
  {}

  /** A credential whose exponents were split is the blinded value times what the issuer added:
      with v2 and v3 the split of (x2 + u2, x3 + u3), A^v0 B^v1 C^v2 D^v3 ≡ U C^x2 D^x3. */
  lemma CredentialSplit(a: int, b: int, c: int, d: int, n: nat, m: nat, v0: nat, v1: nat,
                        u2: nat, u3: nat, x2: nat, x3: nat, x: nat, y: nat, v2: nat, v3: nat, u: int)
    requires m > 0 && Cong(d, Pow(c, m), n) && Cong(u, Quad(a, b, c, d, v0, v1, u2, u3), n)
    requires x == x2 + u2 && y == x3 + u3 && v2 == x % m && v3 == y + x / m
    ensures Cong(u * (Pow(c, x2) * Pow(d, x3)), Quad(a, b, c, d, v0, v1, v2, v3), n)
  {
    SplitExponent(c, d, m, x, y, n);
    CredentialParts(a, b, c, d, n, v0, v1, u2, u3, x2, x3, v2, v3, u);
  }

  lemma CredentialParts(a: int, b: int, c: int, d: int, n: nat, v0: nat, v1: nat,
                        u2: nat, u3: nat, x2: nat, x3: nat, v2: nat, v3: nat, u: int)
    requires Cong(u, Quad(a, b, c, d, v0, v1, u2, u3), n)
    requires Cong(Pow(c, v2) * Pow(d, v3), Pow(c, x2 + u2) * Pow(d, x3 + u3), n)
    ensures Cong(u * (Pow(c, x2) * Pow(d, x3)), Quad(a, b, c, d, v0, v1, v2, v3), n)
  {
    PairAdd(c, d, x2, u2, x3, u3);
    Complete(Pow(a, v0) * Pow(b, v1), Pow(c, x2) * Pow(d, x3), Pow(c, u2) * Pow(d, u3),
      Pow(c, x2 + u2) * Pow(d, x3 + u3), Pow(c, v2) * Pow(d, v3), u, n);
  }

  lemma PairAdd(c: int, d: int, x2: nat, u2: nat, x3: nat, u3: nat)
    ensures Pow(c, x2 + u2) * Pow(d, x3 + u3) == (Pow(c, x2) * Pow(d, x3)) * (Pow(c, u2) * Pow(d, u3))
  {
    PowAdd(c, x2, u2);
    PowAdd(d, x3, u3);
    SwapProducts(Pow(c, x2), Pow(c, u2), Pow(d, x3), Pow(d, u3));
  }

  lemma Complete(head: int, added: int, own: int, full: int, split: int, u: int, n: nat)
    requires Cong(u, head * own, n) && Cong(split, full, n) && full == added * own
    ensures Cong(u * added, head * split, n)
  {
    CongSym(split, full, n);
    CongRefl(head, n);
    CongMul(head, head, full, split, n);
    CongRefl(added, n);
    CongMul(u, head * own, added, added, n);
    Associate(head, own, added);
    Commute(own, added);
    CongTrans(u * added, head * full, head * split, n);
  }
}
