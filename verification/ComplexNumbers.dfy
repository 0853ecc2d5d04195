/** Complex numbers over the reals, and the circle of unit rotations. */
module ComplexNumbers {
  import opened Arithmetic
  import opened Rings

  datatype Complex = Complex(re: real, im: real)

  const Zero: Complex := Complex(0.0, 0.0)
  const One: Complex := Complex(1.0, 0.0)

  function Add(a: Complex, b: Complex): Complex {
    Complex(a.re + b.re, a.im + b.im)
  }

  function Neg(a: Complex): Complex {
    Complex(-a.re, -a.im)
  }

  function Mul(a: Complex, b: Complex): Complex {
    Complex(a.re * b.re - a.im * b.im, a.re * b.im + a.im * b.re)
  }

  function Conj(a: Complex): Complex {
    Complex(a.re, -a.im)
  }

  /** A rotation for every angle, measured in turns: `sin_cos` of two pi times the angle. */
  type Rotation = real -> Complex

  ghost predicate Angles(a: real, b: real) {
    true
  }

  /** The laws of `cos + i sin` that the transforms rely on. */
  ghost predicate IsRotation(cis: Rotation) {
    && cis(0.0) == One && cis(0.5) == Complex(-1.0, 0.0) && cis(0.25) == Complex(0.0, 1.0)
    && (forall a, b {:trigger Angles(a, b)} :: Angles(a, b) ==> cis(a + b) == Mul(cis(a), cis(b)))
    && (forall a, b {:trigger Angles(a, b)} :: Angles(a, b) ==> cis(-a) == Conj(cis(a)))
    && (forall a, b {:trigger Angles(a, b)} :: Angles(a, b) && cis(a) == One ==> a == a.Floor as real)
  }

  lemma RotationAdd(cis: Rotation, a: real, b: real)
    requires IsRotation(cis)
    ensures cis(a + b) == Mul(cis(a), cis(b))
  {
    assert Angles(a, b);
  }

  lemma RotationConj(cis: Rotation, a: real)
    requires IsRotation(cis)
    ensures cis(-a) == Conj(cis(a))
  {
    assert Angles(a, a);
  }

  lemma WholeTurn(cis: Rotation)
    requires IsRotation(cis)
    ensures cis(1.0) == One
  {
    RotationAdd(cis, 0.5, 0.5);
  }

  lemma {:induction false} WholeTurnsUp(cis: Rotation, n: nat)
    requires IsRotation(cis)
    ensures cis(n as real) == One
  {
    if n > 0 {
      WholeTurnsUp(cis, n - 1);
      WholeTurn(cis);
      RotationAdd(cis, (n - 1) as real, 1.0);
      assert (n - 1) as real + 1.0 == n as real;
      assert Mul(One, One) == One;
    }
  }

  /** Whole turns do nothing, in either direction. */
  lemma WholeTurns(cis: Rotation, n: int)
    requires IsRotation(cis)
    ensures cis(n as real) == One
  {
    if n >= 0 {
      WholeTurnsUp(cis, n);
    } else {
      WholeTurnsUp(cis, -n);
      RotationConj(cis, (-n) as real);
      assert -((-n) as real) == n as real;
    }
  }

  // ----- angles that are fractions of a turn -----

  function Turn(m: int, n: nat): real
    requires n > 0
  {
    m as real / n as real
  }

  lemma TurnScale(m: int, n: nat, c: nat)
    requires n > 0 && c > 0
    ensures n * c > 0 && Turn(m * c, n * c) == Turn(m, n)
  {
    var a, b, d := m as real, n as real, c as real;
    assert (m * c) as real == a * d && (n * c) as real == b * d;
    assert (a * d) / (b * d) == a / b;
  }

  lemma TurnAdd(a: int, b: int, n: nat)
    requires n > 0
    ensures Turn(a + b, n) == Turn(a, n) + Turn(b, n)
  {
  }

  lemma TurnWhole(q: int, n: nat)
    requires n > 0
    ensures Turn(q * n, n) == q as real
  {
    assert (q * n) as real == q as real * n as real;
  }

  function Root(cis: Rotation, m: int, n: nat): Complex
    requires n > 0
  {
    cis(Turn(m, n))
  }

  lemma RootAdd(cis: Rotation, a: int, b: int, n: nat)
    requires IsRotation(cis) && n > 0
    ensures Root(cis, a + b, n) == Mul(Root(cis, a, n), Root(cis, b, n))
  {
    TurnAdd(a, b, n);
    RotationAdd(cis, Turn(a, n), Turn(b, n));
  }

  lemma RootWhole(cis: Rotation, q: int, n: nat)
    requires IsRotation(cis) && n > 0
    ensures Root(cis, q * n, n) == One
  {
    TurnWhole(q, n);
    WholeTurns(cis, q);
  }

  lemma RootScale(cis: Rotation, m: int, n: nat, c: nat)
    requires n > 0 && c > 0
    ensures n * c > 0 && Root(cis, m * c, n * c) == Root(cis, m, n)
  {
    TurnScale(m, n, c);
  }

  lemma RootConj(cis: Rotation, m: int, n: nat)
    requires IsRotation(cis) && n > 0
    ensures Conj(Root(cis, m, n)) == Root(cis, -m, n)
  {
    RotationConj(cis, Turn(m, n));
    assert Turn(-m, n) == -Turn(m, n) by {
      assert (-m) as real == -(m as real);
    }
  }

  lemma RootHalf(cis: Rotation, n: nat)
    requires IsRotation(cis) && n > 0
    ensures Root(cis, n, 2 * n) == Neg(One)
  {
    TurnScale(1, 2, n);
    assert Turn(n, 2 * n) == Turn(1 * n, 2 * n) == 0.5;
  }

  /** A quarter turn is counterclockwise for a positive count and clockwise for a negative one. */
  lemma QuarterTurn(cis: Rotation)
    requires IsRotation(cis)
    ensures Root(cis, 1, 4) == Complex(0.0, 1.0) && Root(cis, -1, 4) == Complex(0.0, -1.0)
  {
    assert Turn(1, 4) == 0.25;
    RootConj(cis, 1, 4);
  }

  // ----- the ring -----

  function ComplexRing(cis: Rotation): Ring<Complex> {
    Ring(
      Zero, One,
      (a, b) => Add(a, b), a => Neg(a), (a, b) => Mul(a, b), a => Conj(a),
      n => if n > 0 then Complex(1.0 / n as real, 0.0) else Zero,
      (m, n) => if n > 0 then Root(cis, m, n) else One)
  }

  lemma ComplexAddLaws(cis: Rotation)
    ensures AddLaws(ComplexRing(cis))
  {
  }

  lemma MulAssociates(a: Complex, b: Complex, c: Complex)
    ensures Mul(Mul(a, b), c) == Mul(a, Mul(b, c))
  {
  }

  lemma MulDistributes(a: Complex, b: Complex, c: Complex)
    ensures Mul(a, Add(b, c)) == Add(Mul(a, b), Mul(a, c))
  {
  }

  lemma ComplexMulLaws(cis: Rotation)
    ensures MulLaws(ComplexRing(cis))
  {
    var f := ComplexRing(cis);
    forall a, b, c
      ensures At(a, b, c) ==>
        && f.mul(f.mul(a, b), c) == f.mul(a, f.mul(b, c)) && f.mul(a, b) == f.mul(b, a)
        && f.mul(a, f.one) == a && f.mul(a, f.add(b, c)) == f.add(f.mul(a, b), f.mul(a, c))
    {
      MulAssociates(a, b, c);
      MulDistributes(a, b, c);
    }
  }

  lemma ComplexRootLaws(cis: Rotation)
    requires IsRotation(cis)
    ensures RootLaws(ComplexRing(cis))
  {
    var f := ComplexRing(cis);
    forall a: int, b: int, n: nat | n > 0
      ensures RootAt(a, b, n) ==> RootLawsAt(f, a, b, n)
    {
      RootAdd(cis, a, b, n);
      RootWhole(cis, b, n);
      if b > 0 {
        RootScale(cis, a, n, b);
      }
      RootHalf(cis, n);
      RootConj(cis, a, n);
    }
  }

  lemma SquareSign(a: real, s: real)
    requires s == a * a
    ensures s >= 0.0 && (a != 0.0 ==> s > 0.0)
  {
    var size := if a < 0.0 then -a else a;
    MirrorSquare(a);
    PositiveSquare(size, size * size);
  }

  lemma MirrorSquare(a: real)
    ensures (-a) * (-a) == a * a
  {
  }

  lemma PositiveSquare(a: real, s: real)
    requires a >= 0.0 && s == a * a
    ensures s >= 0.0 && (a > 0.0 ==> s > 0.0)
  {
    if a > 0.0 {
      PositiveProduct(a, a, s);
    } else {
      ZeroProduct(a, a, s);
    }
  }

  lemma ZeroProduct(a: real, b: real, m: real)
    requires a == 0.0 && m == a * b
    ensures m == 0.0
  {
    assert m == 0.0 * b;
  }

  lemma SquaresPositive(a: real, b: real, q: real)
    requires (a != 0.0 || b != 0.0) && q == a * a + b * b
    ensures q > 0.0
  {
    SquareSign(a, a * a);
    SquareSign(b, b * b);
  }

  lemma Cancelled(x: real, q: real, v: real)
    requires q > 0.0 && x * q == v * q
    ensures x == v
  {
    assert (x - v) * q == 0.0;
  }

  /** A number that is not zero can be divided by. */
  lemma Divides(z: Complex) returns (u: Complex)
    requires z != Zero
    ensures Mul(u, z) == One
  {
    var q := z.re * z.re + z.im * z.im;
    SquaresPositive(z.re, z.im, q);
    var x, y := z.re / q, z.im / q;
    u := Complex(x, -y);
    Quotients(z.re, z.im, q, x, y);
  }

  lemma Quotients(a: real, b: real, q: real, x: real, y: real)
    requires q > 0.0 && q == a * a + b * b && x * q == a && y * q == b
    ensures x * a - (-y) * b == 1.0 && x * b + (-y) * a == 0.0
  {
    Spread(x, y, a, b, q);
    Cancelled(x * a + y * b, q, 1.0);
    Spread(x, -y, b, a, q);
    assert (-y) * q == -b;
    assert a * b + (-b) * a == 0.0;
    Cancelled(x * b + (-y) * a, q, 0.0);
  }

  lemma Spread(x: real, y: real, a: real, b: real, q: real)
    ensures (x * a + y * b) * q == (x * q) * a + (y * q) * b
  {
  }

  /** Only whole turns do nothing. */
  lemma PartTurns(cis: Rotation, d: int, n: nat)
    requires IsRotation(cis) && n > 0 && d % n != 0
    ensures Root(cis, d, n) != One
  {
    var t := Turn(d, n);
    assert Angles(t, t);
    if cis(t) == One {
      WholePart(d, n, t.Floor, t);
    }
  }

  lemma WholePart(d: int, n: nat, q: int, t: real)
    requires n > 0 && t == Turn(d, n) && t == q as real
    ensures d % n == 0
  {
    assert t * n as real == d as real;
    assert q as real * n as real == (q * n) as real;
    DivModUnique(d, q, 0, n);
  }

  lemma ComplexPrimitiveLaws(cis: Rotation)
    requires IsRotation(cis)
    ensures PrimitiveLaws(ComplexRing(cis))
  {
    var f := ComplexRing(cis);
    forall d: int, n: nat | n > 0 && d % n != 0
      ensures RootAt(d, d, n) ==> exists u :: Reciprocal(f, f.Sub(f.root(d, n), f.one), u)
    {
      PartTurns(cis, d, n);
      var z := f.Sub(f.root(d, n), f.one);
      assert z == Add(Root(cis, d, n), Neg(One));
      var u := Divides(z);
      assert Reciprocal(f, z, u);
    }
  }

  lemma {:induction false} WholeIsReal(cis: Rotation, n: nat)
    ensures Whole(ComplexRing(cis), n) == Complex(n as real, 0.0)
  {
    if n > 0 {
      WholeIsReal(cis, n - 1);
    }
  }

  lemma ComplexInverseLaws(cis: Rotation)
    ensures InverseLaws(ComplexRing(cis))
  {
    var f := ComplexRing(cis);
    forall n: nat | n > 0
      ensures f.mul(f.inverse(n), Whole(f, n)) == f.one
    {
      WholeIsReal(cis, n);
      assert 1.0 / n as real * n as real == 1.0;
    }
  }

  /** Sine and cosine make the complex numbers a ring with roots of unity. */
  lemma ComplexIsRing(cis: Rotation)
    requires IsRotation(cis)
    ensures IsRing(ComplexRing(cis)) && PrimitiveLaws(ComplexRing(cis))
  {
    ComplexAddLaws(cis);
    ComplexMulLaws(cis);
    ComplexRootLaws(cis);
    ComplexInverseLaws(cis);
    ComplexPrimitiveLaws(cis);
  }
}
