/**
 The arithmetic of the transforms: a commutative ring with conjugation, reciprocals of the whole
 numbers, and a root of unity of every order. `ComplexIsRing` shows that the complex numbers are one.
 */
module Rings {

  datatype Ring<!C> = Ring(
    zero: C, one: C,
    add: (C, C) -> C, neg: C -> C, mul: (C, C) -> C, conj: C -> C,
    inverse: nat -> C,
    root: (int, nat) -> C)
  {
    function Sub(a: C, b: C): C {
      add(a, neg(b))
    }
  }

  /** Marks the elements at which a law of the ring is wanted. */
  ghost predicate At<C(!new)>(a: C, b: C, c: C) {
    true
  }

  ghost predicate RootAt(a: int, b: int, n: nat) {
    true
  }

  ghost predicate AddLaws<C(!new)>(f: Ring<C>) {
    forall a, b, c {:trigger At(a, b, c)} ::
      && f.add(f.add(a, b), c) == f.add(a, f.add(b, c)) && f.add(a, b) == f.add(b, a)
      && f.add(a, f.zero) == a && f.add(a, f.neg(a)) == f.zero
  }

  ghost predicate MulLaws<C(!new)>(f: Ring<C>) {
    forall a, b, c {:trigger At(a, b, c)} ::
      && f.mul(f.mul(a, b), c) == f.mul(a, f.mul(b, c)) && f.mul(a, b) == f.mul(b, a)
      && f.mul(a, f.one) == a && f.mul(a, f.add(b, c)) == f.add(f.mul(a, b), f.mul(a, c))
  }

  /** `root(m, n)` stands for `m` n-th parts of a full turn. */
  ghost predicate RootLawsAt<C(!new)>(f: Ring<C>, a: int, b: int, n: nat) {
    && f.root(a + b, n) == f.mul(f.root(a, n), f.root(b, n))
    && f.root(b * n, n) == f.one
    && (b > 0 ==> n * b > 0 && f.root(a * b, n * b) == f.root(a, n))
    && f.root(n, 2 * n) == f.neg(f.one)
    && f.conj(f.root(a, n)) == f.root(-a, n)
  }

  ghost predicate RootLaws<C(!new)>(f: Ring<C>) {
    forall a, b, n: nat {:trigger RootAt(a, b, n)} :: n > 0 && RootAt(a, b, n) ==> RootLawsAt(f, a, b, n)
  }

  ghost predicate Reciprocal<C(!new)>(f: Ring<C>, a: C, u: C) {
    f.mul(u, a) == f.one
  }

  /** A part of a turn that is not whole turns the ring: what is left after one can be divided by. */
  ghost predicate PrimitiveLaws<C(!new)>(f: Ring<C>) {
    forall d: int, n: nat {:trigger RootAt(d, d, n)} :: n > 0 && d % n != 0 && RootAt(d, d, n) ==>
      exists u :: Reciprocal(f, f.Sub(f.root(d, n), f.one), u)
  }

  /** A whole number of the ring. */
  ghost function Whole<C(!new)>(f: Ring<C>, n: nat): C {
    if n == 0 then f.zero else f.add(Whole(f, n - 1), f.one)
  }

  ghost predicate InverseLaws<C(!new)>(f: Ring<C>) {
    forall n: nat :: n > 0 ==> f.mul(f.inverse(n), Whole(f, n)) == f.one
  }

  ghost predicate IsRing<C(!new)>(f: Ring<C>) {
    AddLaws(f) && MulLaws(f) && RootLaws(f) && InverseLaws(f)
  }

  lemma AddComm<C(!new)>(f: Ring<C>, a: C, b: C)
    requires IsRing(f)
    ensures f.add(a, b) == f.add(b, a)
  {
    assert At(a, b, b);
  }

  lemma AddZero<C(!new)>(f: Ring<C>, a: C)
    requires IsRing(f)
    ensures f.add(a, f.zero) == a && f.add(f.zero, a) == a && f.add(a, f.neg(a)) == f.zero
  {
    assert At(a, f.zero, a);
  }

  lemma AddAssoc<C(!new)>(f: Ring<C>, a: C, b: C, c: C)
    requires IsRing(f)
    ensures f.add(f.add(a, b), c) == f.add(a, f.add(b, c))
  {
    assert At(a, b, c);
  }

  lemma MulComm<C(!new)>(f: Ring<C>, a: C, b: C)
    requires IsRing(f)
    ensures f.mul(a, b) == f.mul(b, a)
  {
    assert At(a, b, b);
  }

  lemma MulOne<C(!new)>(f: Ring<C>, a: C)
    requires IsRing(f)
    ensures f.mul(a, f.one) == a && f.mul(f.one, a) == a
  {
    assert At(a, f.one, a);
  }

  lemma MulAssoc<C(!new)>(f: Ring<C>, a: C, b: C, c: C)
    requires IsRing(f)
    ensures f.mul(f.mul(a, b), c) == f.mul(a, f.mul(b, c))
  {
    assert At(a, b, c);
  }

  lemma MulAdd<C(!new)>(f: Ring<C>, a: C, b: C, c: C)
    requires IsRing(f)
    ensures f.mul(a, f.add(b, c)) == f.add(f.mul(a, b), f.mul(a, c))
  {
    assert At(a, b, c);
  }

  /** Cancelling a common summand. */
  lemma Cancel<C(!new)>(f: Ring<C>, a: C, b: C, c: C)
    requires IsRing(f) && f.add(a, c) == f.add(b, c)
    ensures a == b
  {
    AddAssoc(f, a, c, f.neg(c));
    AddAssoc(f, b, c, f.neg(c));
    AddZero(f, c);
    AddZero(f, a);
    AddZero(f, b);
  }

  lemma MulZero<C(!new)>(f: Ring<C>, a: C)
    requires IsRing(f)
    ensures f.mul(a, f.zero) == f.zero && f.mul(f.zero, a) == f.zero
  {
    var z := f.mul(a, f.zero);
    AddZero(f, f.zero);
    MulAdd(f, a, f.zero, f.zero);
    AddZero(f, z);
    Cancel(f, z, f.zero, z);
    MulComm(f, a, f.zero);
  }

  lemma MulNeg<C(!new)>(f: Ring<C>, a: C, b: C)
    requires IsRing(f)
    ensures f.mul(f.neg(a), b) == f.neg(f.mul(a, b))
  {
    MulComm(f, f.neg(a), b);
    MulComm(f, a, b);
    MulAdd(f, b, f.neg(a), a);
    AddComm(f, f.neg(a), a);
    AddZero(f, a);
    MulZero(f, b);
    var p := f.mul(a, b);
    AddComm(f, f.neg(p), p);
    AddZero(f, p);
    Cancel(f, f.mul(f.neg(a), b), f.neg(p), p);
  }

  /** Four summands, regrouped. */
  lemma AddPairs<C(!new)>(f: Ring<C>, a: C, b: C, c: C, d: C)
    requires IsRing(f)
    ensures f.add(f.add(f.add(a, b), c), d) == f.add(f.add(a, c), f.add(b, d))
    ensures f.add(f.add(a, b), f.add(c, d)) == f.add(f.add(a, c), f.add(b, d))
  {
    AddAssoc(f, a, b, c);
    AddComm(f, b, c);
    AddAssoc(f, a, c, b);
    AddAssoc(f, f.add(a, c), b, d);
    AddAssoc(f, f.add(a, b), c, d);
  }

  // ----- roots of unity -----

  lemma RootAdd<C(!new)>(f: Ring<C>, a: int, b: int, n: nat)
    requires IsRing(f) && n > 0
    ensures f.root(a + b, n) == f.mul(f.root(a, n), f.root(b, n))
  {
    assert RootAt(a, b, n);
  }

  lemma RootWhole<C(!new)>(f: Ring<C>, q: int, n: nat)
    requires IsRing(f) && n > 0
    ensures f.root(q * n, n) == f.one
  {
    assert RootAt(q, q, n);
  }

  lemma RootZero<C(!new)>(f: Ring<C>, n: nat)
    requires IsRing(f) && n > 0
    ensures f.root(0, n) == f.one
  {
    RootWhole(f, 0, n);
  }

  /** Exponents of the root count modulo its order. */
  lemma RootPeriodic<C(!new)>(f: Ring<C>, m: int, q: int, n: nat)
    requires IsRing(f) && n > 0
    ensures f.root(m + q * n, n) == f.root(m, n)
  {
    RootAdd(f, m, q * n, n);
    RootWhole(f, q, n);
    MulOne(f, f.root(m, n));
  }

  lemma RootScale<C(!new)>(f: Ring<C>, m: int, n: nat, c: nat)
    requires IsRing(f) && n > 0 && c > 0
    ensures n * c > 0 && f.root(m * c, n * c) == f.root(m, n)
  {
    assert RootAt(m, c, n);
  }

  lemma RootConj<C(!new)>(f: Ring<C>, m: int, n: nat)
    requires IsRing(f) && n > 0
    ensures f.conj(f.root(m, n)) == f.root(-m, n)
  {
    assert RootAt(m, m, n);
  }

  /** Half a turn more changes the sign. */
  lemma RootHalf<C(!new)>(f: Ring<C>, m: int, half: nat)
    requires IsRing(f) && half > 0
    ensures f.root(m + half, 2 * half) == f.neg(f.root(m, 2 * half))
  {
    var w := f.root(m, 2 * half);
    RootAdd(f, m, half, 2 * half);
    assert RootAt(m, m, half);
    MulComm(f, w, f.neg(f.one));
    MulNeg(f, f.one, w);
    MulOne(f, w);
  }

  /** ... in either direction. */
  lemma SignedHalf<C(!new)>(f: Ring<C>, sign: int, k: int, h: nat)
    requires IsRing(f) && h > 0 && (sign == 1 || sign == -1)
    ensures f.root(sign * (k + h), 2 * h) == f.neg(f.root(sign * k, 2 * h))
  {
    if sign == 1 {
      RootHalf(f, k, h);
    } else {
      RootHalf(f, -k, h);
      RootPeriodic(f, -k + h, -1, 2 * h);
      assert sign * (k + h) == -k + h + -1 * (2 * h);
    }
  }
}
