/** The discrete Fourier transform as a sum, the recursive Cooley-Tukey form, and inversion. */
module Fourier {
  import opened Arithmetic
  import opened Rings

  // ----- finite sums -----

  ghost function Sum<C(!new)>(f: Ring<C>, t: nat -> C, n: nat): C {
    if n == 0 then f.zero else f.add(Sum(f, t, n - 1), t(n - 1))
  }

  lemma {:induction false} SumEq<C(!new)>(f: Ring<C>, t: nat -> C, u: nat -> C, n: nat)
    requires forall i: nat :: i < n ==> t(i) == u(i)
    ensures Sum(f, t, n) == Sum(f, u, n)
  {
    if n > 0 {
      SumEq(f, t, u, n - 1);
    }
  }

  ghost function Times<C(!new)>(f: Ring<C>, c: C, t: nat -> C): nat -> C {
    (i: nat) => f.mul(c, t(i))
  }

  lemma {:induction false} SumTimes<C(!new)>(f: Ring<C>, c: C, t: nat -> C, n: nat)
    requires IsRing(f)
    ensures Sum(f, Times(f, c, t), n) == f.mul(c, Sum(f, t, n))
  {
    if n > 0 {
      SumTimes(f, c, t, n - 1);
      MulAdd(f, c, Sum(f, t, n - 1), t(n - 1));
    } else {
      MulZero(f, c);
    }
  }

  ghost function Plus<C(!new)>(f: Ring<C>, t: nat -> C, u: nat -> C): nat -> C {
    (i: nat) => f.add(t(i), u(i))
  }

  lemma {:induction false} SumPlus<C(!new)>(f: Ring<C>, t: nat -> C, u: nat -> C, n: nat)
    requires IsRing(f)
    ensures Sum(f, Plus(f, t, u), n) == f.add(Sum(f, t, n), Sum(f, u, n))
  {
    if n > 0 {
      SumPlus(f, t, u, n - 1);
      AddPairs(f, Sum(f, t, n - 1), Sum(f, u, n - 1), t(n - 1), u(n - 1));
    } else {
      AddZero(f, f.zero);
    }
  }

  ghost function RowOf<C(!new)>(g: (nat, nat) -> C, i: nat): nat -> C {
    (j: nat) => g(i, j)
  }

  ghost function ColumnOf<C(!new)>(g: (nat, nat) -> C, j: nat): nat -> C {
    (i: nat) => g(i, j)
  }

  ghost function RowSums<C(!new)>(f: Ring<C>, g: (nat, nat) -> C, m: nat): nat -> C {
    (i: nat) => Sum(f, RowOf(g, i), m)
  }

  ghost function ColumnSums<C(!new)>(f: Ring<C>, g: (nat, nat) -> C, n: nat): nat -> C {
    (j: nat) => Sum(f, ColumnOf(g, j), n)
  }

  /** A double sum may be taken in either order. */
  lemma {:induction false} SumSwap<C(!new)>(f: Ring<C>, g: (nat, nat) -> C, n: nat, m: nat)
    requires IsRing(f)
    ensures Sum(f, RowSums(f, g, m), n) == Sum(f, ColumnSums(f, g, n), m)
  {
    if n == 0 {
      SumZero(f, ColumnSums(f, g, 0), m);
    } else {
      SumSwap(f, g, n - 1, m);
      SumPlus(f, ColumnSums(f, g, n - 1), RowOf(g, n - 1), m);
      SumEq(f, ColumnSums(f, g, n), Plus(f, ColumnSums(f, g, n - 1), RowOf(g, n - 1)), m);
    }
  }

  lemma {:induction false} SumZero<C(!new)>(f: Ring<C>, t: nat -> C, n: nat)
    requires IsRing(f) && forall i: nat :: i < n ==> t(i) == f.zero
    ensures Sum(f, t, n) == f.zero
  {
    if n > 0 {
      SumZero(f, t, n - 1);
      AddZero(f, f.zero);
    }
  }

  /** Only one term of the sum is not zero. */
  lemma {:induction false} SumSingle<C(!new)>(f: Ring<C>, t: nat -> C, n: nat, at: nat)
    requires IsRing(f) && at < n && forall i: nat :: i < n && i != at ==> t(i) == f.zero
    ensures Sum(f, t, n) == t(at)
  {
    AddZero(f, t(at));
    if at == n - 1 {
      SumZero(f, t, n - 1);
    } else {
      SumSingle(f, t, n - 1, at);
    }
  }

  /** Terms past the middle that are zero do not matter. */
  lemma {:induction false} SumTail<C(!new)>(f: Ring<C>, t: nat -> C, m: nat, n: nat)
    requires IsRing(f) && m <= n && forall i: nat :: m <= i < n ==> t(i) == f.zero
    ensures Sum(f, t, n) == Sum(f, t, m)
  {
    if m < n {
      SumTail(f, t, m, n - 1);
      AddZero(f, Sum(f, t, m));
    }
  }

  lemma {:induction false} SumOnes<C(!new)>(f: Ring<C>, t: nat -> C, n: nat)
    requires forall m: nat :: m < n ==> t(m) == f.one
    ensures Sum(f, t, n) == Whole(f, n)
  {
    if n > 0 {
      SumOnes(f, t, n - 1);
    }
  }

  ghost function EvenPart<C(!new)>(t: nat -> C): nat -> C {
    (i: nat) => t(2 * i)
  }

  ghost function OddPart<C(!new)>(t: nat -> C): nat -> C {
    (i: nat) => t(2 * i + 1)
  }

  lemma {:induction false} SumEvenOdd<C(!new)>(f: Ring<C>, t: nat -> C, h: nat)
    requires IsRing(f)
    ensures Sum(f, t, 2 * h) == f.add(Sum(f, EvenPart(t), h), Sum(f, OddPart(t), h))
  {
    if h > 0 {
      var p: nat := h - 1;
      SumEvenOdd(f, t, p);
      SumLastPair(f, t, p);
    } else {
      AddZero(f, f.zero);
    }
  }

  lemma SumTwoMore<C(!new)>(f: Ring<C>, t: nat -> C, m: nat)
    ensures Sum(f, t, m + 2) == f.add(f.add(Sum(f, t, m), t(m)), t(m + 1))
  {
    assert Sum(f, t, m + 1) == f.add(Sum(f, t, m), t(m));
  }

  lemma EvenOddMore<C(!new)>(f: Ring<C>, t: nat -> C, p: nat)
    ensures Sum(f, EvenPart(t), p + 1) == f.add(Sum(f, EvenPart(t), p), t(2 * p))
    ensures Sum(f, OddPart(t), p + 1) == f.add(Sum(f, OddPart(t), p), t(2 * p + 1))
  {
  }

  lemma SumLastPair<C(!new)>(f: Ring<C>, t: nat -> C, p: nat)
    requires IsRing(f) && Sum(f, t, 2 * p) == f.add(Sum(f, EvenPart(t), p), Sum(f, OddPart(t), p))
    ensures Sum(f, t, 2 * (p + 1)) == f.add(Sum(f, EvenPart(t), p + 1), Sum(f, OddPart(t), p + 1))
  {
    var m := 2 * p;
    SumTwoMore(f, t, m);
    EvenOddMore(f, t, p);
    AddPairs(f, Sum(f, EvenPart(t), p), Sum(f, OddPart(t), p), t(m), t(m + 1));
  }

  // ----- the transform -----

  ghost function DftTerm<C(!new)>(f: Ring<C>, sign: int, x: seq<C>, k: int): nat -> C {
    (j: nat) => if j < |x| then f.mul(x[j], f.root(sign * j * k, |x|)) else f.zero
  }

  /** Output `k` of the transform; `sign` is -1 for the forward and 1 for the inverse direction. */
  ghost function Dft<C(!new)>(f: Ring<C>, sign: int, x: seq<C>, k: int): C {
    Sum(f, DftTerm(f, sign, x, k), |x|)
  }

  /** The outputs repeat with the length of the input. */
  lemma DftPeriodic<C(!new)>(f: Ring<C>, sign: int, x: seq<C>, k: int, q: int)
    requires IsRing(f) && |x| > 0
    ensures Dft(f, sign, x, k + q * |x|) == Dft(f, sign, x, k)
  {
    var n := |x|;
    forall j: nat | j < n
      ensures DftTerm(f, sign, x, k + q * n)(j) == DftTerm(f, sign, x, k)(j)
    {
      assert sign * j * (k + q * n) == sign * j * k + (sign * j * q) * n;
      RootPeriodic(f, sign * j * k, sign * j * q, n);
    }
    SumEq(f, DftTerm(f, sign, x, k + q * n), DftTerm(f, sign, x, k), n);
  }

  /** One at one place, zero elsewhere. */
  function Impulse<C(!new)>(f: Ring<C>, n: nat, at: nat): (x: seq<C>)
    ensures |x| == n
  {
    seq(n, (i: nat) requires i < n => if i == at then f.one else f.zero)
  }

  /** The transform of an impulse is one root, turned by its place and the output's. */
  lemma ImpulseResponse<C(!new)>(f: Ring<C>, sign: int, n: nat, at: nat, k: int)
    requires IsRing(f) && at < n
    ensures Dft(f, sign, Impulse(f, n, at), k) == f.root(sign * at * k, n)
  {
    var x := Impulse(f, n, at);
    var t := DftTerm(f, sign, x, k);
    forall i: nat | i < n && i != at
      ensures t(i) == f.zero
    {
      MulZero(f, f.root(sign * i * k, n));
    }
    SumSingle(f, t, n, at);
    MulOne(f, f.root(sign * at * k, n));
  }

  function Evens<C>(x: seq<C>): seq<C>
    requires |x| % 2 == 0
  {
    seq(|x| / 2, (i: nat) requires i < |x| / 2 => x[2 * i])
  }

  function Odds<C>(x: seq<C>): seq<C>
    requires |x| % 2 == 0
  {
    seq(|x| / 2, (i: nat) requires i < |x| / 2 => x[2 * i + 1])
  }

  lemma EvensSum<C(!new)>(f: Ring<C>, sign: int, x: seq<C>, k: int, h: nat)
    requires IsRing(f) && |x| == 2 * h && h > 0
    ensures Sum(f, EvenPart(DftTerm(f, sign, x, k)), h) == Dft(f, sign, Evens(x), k)
  {
    var t := DftTerm(f, sign, x, k);
    forall i: nat | i < h
      ensures EvenPart(t)(i) == DftTerm(f, sign, Evens(x), k)(i)
    {
      EvenTerm(f, sign, k, i, h);
    }
    SumEq(f, EvenPart(t), DftTerm(f, sign, Evens(x), k), h);
  }

  lemma OddsSum<C(!new)>(f: Ring<C>, sign: int, x: seq<C>, k: int, h: nat)
    requires IsRing(f) && |x| == 2 * h && h > 0
    ensures Sum(f, OddPart(DftTerm(f, sign, x, k)), h) ==
      f.mul(f.root(sign * k, |x|), Dft(f, sign, Odds(x), k))
  {
    var t := DftTerm(f, sign, x, k);
    var w := f.root(sign * k, |x|);
    forall i: nat | i < h
      ensures OddPart(t)(i) == Times(f, w, DftTerm(f, sign, Odds(x), k))(i)
    {
      OddTerm(f, sign, k, i, h, x[2 * i + 1]);
    }
    SumEq(f, OddPart(t), Times(f, w, DftTerm(f, sign, Odds(x), k)), h);
    SumTimes(f, w, DftTerm(f, sign, Odds(x), k), h);
  }

  /** The decimation step: one transform of even length is two transforms of half the length. */
  lemma DftSplits<C(!new)>(f: Ring<C>, sign: int, x: seq<C>, k: int)
    requires IsRing(f) && |x| % 2 == 0 && |x| > 0
    ensures Dft(f, sign, x, k) ==
      f.add(Dft(f, sign, Evens(x), k), f.mul(f.root(sign * k, |x|), Dft(f, sign, Odds(x), k)))
  {
    var h := |x| / 2;
    SumEvenOdd(f, DftTerm(f, sign, x, k), h);
    EvensSum(f, sign, x, k, h);
    OddsSum(f, sign, x, k, h);
  }

  lemma EvenTerm<C(!new)>(f: Ring<C>, sign: int, k: int, i: nat, h: nat)
    requires IsRing(f) && h > 0
    ensures f.root(sign * (2 * i) * k, 2 * h) == f.root(sign * i * k, h)
  {
    RootScale(f, sign * i * k, h, 2);
    assert sign * (2 * i) * k == sign * i * k * 2;
  }

  lemma OddTerm<C(!new)>(f: Ring<C>, sign: int, k: int, i: nat, h: nat, v: C)
    requires IsRing(f) && h > 0
    ensures f.mul(v, f.root(sign * (2 * i + 1) * k, 2 * h)) ==
      f.mul(f.root(sign * k, 2 * h), f.mul(v, f.root(sign * i * k, h)))
  {
    var w, u := f.root(sign * k, 2 * h), f.root(sign * i * k, h);
    assert sign * (2 * i + 1) * k == sign * (2 * i) * k + sign * k;
    RootAdd(f, sign * (2 * i) * k, sign * k, 2 * h);
    EvenTerm(f, sign, k, i, h);
    MulAssoc(f, v, u, w);
    MulComm(f, f.mul(v, u), w);
  }

  // ----- the recursive form -----

  /** The butterflies that join the transforms of the even and the odd elements. */
  function Combine<C(!new)>(f: Ring<C>, sign: int, evens: seq<C>, odds: seq<C>): (r: seq<C>)
    requires |evens| == |odds| > 0
    ensures |r| == 2 * |evens|
  {
    var h := |evens|;
    seq(2 * h, (k: nat) requires k < 2 * h =>
      if k < h then f.add(evens[k], f.mul(f.root(sign * k, 2 * h), odds[k]))
      else f.Sub(evens[k - h], f.mul(f.root(sign * (k - h), 2 * h), odds[k - h])))
  }

  /** `fft_recursive`. */
  function FftRecursive<C(!new)>(f: Ring<C>, sign: int, x: seq<C>): (r: seq<C>)
    requires IsPow2(|x|)
    ensures |r| == |x|
    decreases |x|
  {
    if |x| <= 1 then x
    else Combine(f, sign, FftRecursive(f, sign, Evens(x)), FftRecursive(f, sign, Odds(x)))
  }

  lemma DftOfOne<C(!new)>(f: Ring<C>, sign: int, x: seq<C>)
    requires IsRing(f) && |x| == 1
    ensures Dft(f, sign, x, 0) == x[0]
  {
    var t := DftTerm(f, sign, x, 0);
    assert t(0) == f.mul(x[0], f.root(0, 1));
    assert Sum(f, t, 1) == f.add(Sum(f, t, 0), t(0));
    RootZero(f, 1);
    MulOne(f, x[0]);
    AddZero(f, x[0]);
  }

  lemma PeriodicOnce<C(!new)>(f: Ring<C>, sign: int, x: seq<C>, k: nat)
    requires IsRing(f) && |x| > 0
    ensures Dft(f, sign, x, k + |x|) == Dft(f, sign, x, k)
  {
    DftPeriodic(f, sign, x, k, 1);
  }

  /** The upper half of the outputs: the butterfly's other arm. */
  lemma DftUpper<C(!new)>(f: Ring<C>, sign: int, x: seq<C>, k: nat, h: nat)
    requires IsRing(f) && |x| == 2 * h && k < h && (sign == 1 || sign == -1)
    ensures Dft(f, sign, x, k + h) ==
      f.Sub(Dft(f, sign, Evens(x), k), f.mul(f.root(sign * k, |x|), Dft(f, sign, Odds(x), k)))
  {
    DftSplits(f, sign, x, k + h);
    var evens, odds := Evens(x), Odds(x);
    assert |evens| == |odds| == h;
    PeriodicOnce(f, sign, evens, k);
    PeriodicOnce(f, sign, odds, k);
    NegatedArm(f, sign, k, h, Dft(f, sign, odds, k));
  }

  lemma NegatedArm<C(!new)>(f: Ring<C>, sign: int, k: nat, h: nat, v: C)
    requires IsRing(f) && h > 0 && (sign == 1 || sign == -1)
    ensures f.mul(f.root(sign * (k + h), 2 * h), v) == f.neg(f.mul(f.root(sign * k, 2 * h), v))
  {
    SignedHalf(f, sign, k, h);
    MulNeg(f, f.root(sign * k, 2 * h), v);
  }

  /** Joining the transforms of the two halves. */
  lemma CombineIsDft<C(!new)>(f: Ring<C>, sign: int, x: seq<C>, evens: seq<C>, odds: seq<C>, k: nat)
    requires IsRing(f) && |x| % 2 == 0 && k < |x| && (sign == 1 || sign == -1)
    requires |evens| == |odds| == |x| / 2
    requires var low := if k < |x| / 2 then k else k - |x| / 2;
      evens[low] == Dft(f, sign, Evens(x), low) && odds[low] == Dft(f, sign, Odds(x), low)
    ensures Combine(f, sign, evens, odds)[k] == Dft(f, sign, x, k)
  {
    if k < |x| / 2 {
      DftSplits(f, sign, x, k);
    } else {
      DftUpper(f, sign, x, k - |x| / 2, |x| / 2);
    }
  }

  /** The recursive form computes the transform. */
  lemma {:induction false} RecursiveIsDft<C(!new)>(f: Ring<C>, sign: int, x: seq<C>, k: nat)
    requires IsRing(f) && IsPow2(|x|) && k < |x| && (sign == 1 || sign == -1)
    ensures FftRecursive(f, sign, x)[k] == Dft(f, sign, x, k)
    decreases |x|
  {
    if |x| == 1 {
      DftOfOne(f, sign, x);
    } else {
      var low := if k < |x| / 2 then k else k - |x| / 2;
      RecursiveIsDft(f, sign, Evens(x), low);
      RecursiveIsDft(f, sign, Odds(x), low);
      CombineIsDft(f, sign, x, FftRecursive(f, sign, Evens(x)), FftRecursive(f, sign, Odds(x)), k);
    }
  }

  // ----- inversion -----

  ghost function RootTerm<C(!new)>(f: Ring<C>, d: int, n: nat): nat -> C {
    (m: nat) => f.root(d * m, n)
  }

  lemma RootsAllOne<C(!new)>(f: Ring<C>, q: int, n: nat)
    requires IsRing(f) && n > 0
    ensures Sum(f, RootTerm(f, q * n, n), n) == Whole(f, n)
  {
    forall m: nat | m < n
      ensures RootTerm(f, q * n, n)(m) == f.one
    {
      assert q * n * m == (q * m) * n;
      RootWhole(f, q * m, n);
    }
    SumOnes(f, RootTerm(f, q * n, n), n);
  }

  lemma EvenPower<C(!new)>(f: Ring<C>, d: int, i: nat, h: nat)
    requires IsRing(f) && h > 0
    ensures f.root(d * (2 * i), 2 * h) == f.root(d * i, h)
  {
    RootScale(f, d * i, h, 2);
    assert d * (2 * i) == d * i * 2;
  }

  lemma OddPower<C(!new)>(f: Ring<C>, d: int, i: nat, h: nat)
    requires IsRing(f) && h > 0
    ensures f.root(d * (2 * i + 1), 2 * h) == f.mul(f.root(d, 2 * h), f.root(d * i, h))
  {
    EvenPower(f, d, i, h);
    RootAdd(f, d, d * (2 * i), 2 * h);
    assert d * (2 * i + 1) == d + d * (2 * i);
  }

  /** The powers of a root of even order, from those of the root of half the order. */
  lemma RootsHalve<C(!new)>(f: Ring<C>, d: int, h: nat)
    requires IsRing(f) && h > 0
    ensures var s := Sum(f, RootTerm(f, d, h), h);
      Sum(f, RootTerm(f, d, 2 * h), 2 * h) == f.add(s, f.mul(f.root(d, 2 * h), s))
  {
    var t, g, w := RootTerm(f, d, 2 * h), RootTerm(f, d, h), f.root(d, 2 * h);
    SumEvenOdd(f, t, h);
    forall i: nat | i < h
      ensures EvenPart(t)(i) == g(i) && OddPart(t)(i) == Times(f, w, g)(i)
    {
      EvenPower(f, d, i, h);
      OddPower(f, d, i, h);
    }
    SumEq(f, EvenPart(t), g, h);
    SumEq(f, OddPart(t), Times(f, w, g), h);
    SumTimes(f, w, g, h);
  }

  /** The sum of all powers of a root that is not one vanishes. */
  lemma {:induction false} RootsCancel<C(!new)>(f: Ring<C>, d: int, n: nat)
    requires IsRing(f) && IsPow2(n)
    ensures Sum(f, RootTerm(f, d, n), n) == if d % n == 0 then Whole(f, n) else f.zero
    decreases n
  {
    if d % n == 0 {
      RootsAllOne(f, d / n, n);
      assert d == d / n * n;
    } else {
      var h := n / 2;
      var s := Sum(f, RootTerm(f, d, h), h);
      RootsHalve(f, d, h);
      RootsCancel(f, d, h);
      if d % h == 0 {
        OddMultipleOfHalf(f, d, h);
        MulNeg(f, f.one, s);
        MulOne(f, s);
        AddZero(f, s);
      } else {
        MulZero(f, f.root(d, n));
        AddZero(f, f.zero);
      }
    }
  }

  /** The geometric sum: all powers of a root, times the root less one. */
  lemma {:induction false} Geometric<C(!new)>(f: Ring<C>, d: int, n: nat, m: nat)
    requires IsRing(f) && n > 0
    ensures f.mul(f.Sub(f.root(d, n), f.one), Sum(f, RootTerm(f, d, n), m)) == f.Sub(f.root(d * m, n), f.one)
  {
    var w := f.Sub(f.root(d, n), f.one);
    if m == 0 {
      MulZero(f, w);
      RootZero(f, n);
      AddZero(f, f.one);
    } else {
      var p: nat := m - 1;
      Geometric(f, d, n, p);
      MulAdd(f, w, Sum(f, RootTerm(f, d, n), p), f.root(d * p, n));
      RootAdd(f, d, d * p, n);
      assert d + d * p == d * m;
      Telescopes(f, f.root(d, n), f.root(d * p, n));
    }
  }

  lemma Telescopes<C(!new)>(f: Ring<C>, w: C, v: C)
    requires IsRing(f)
    ensures f.add(f.Sub(v, f.one), f.mul(f.Sub(w, f.one), v)) == f.Sub(f.mul(w, v), f.one)
  {
    var one, wv := f.neg(f.one), f.mul(w, v);
    MulComm(f, f.add(w, one), v);
    MulAdd(f, v, w, one);
    MulComm(f, v, w);
    MulComm(f, v, one);
    MulNeg(f, f.one, v);
    MulOne(f, v);
    AddComm(f, wv, f.neg(v));
    AddPairs(f, v, one, f.neg(v), wv);
    AddZero(f, v);
    AddComm(f, one, wv);
    AddZero(f, f.add(wv, one));
  }

  /** Every length works where parts of a turn are primitive, and powers of two always. */
  ghost predicate Invertible<C(!new)>(f: Ring<C>, n: nat) {
    n > 0 && (IsPow2(n) || PrimitiveLaws(f))
  }

  lemma RootsVanish<C(!new)>(f: Ring<C>, d: int, n: nat)
    requires IsRing(f) && PrimitiveLaws(f) && n > 0 && d % n != 0
    ensures Sum(f, RootTerm(f, d, n), n) == f.zero
  {
    var w, s := f.Sub(f.root(d, n), f.one), Sum(f, RootTerm(f, d, n), n);
    assert RootAt(d, d, n);
    var u :| Reciprocal(f, w, u);
    Geometric(f, d, n, n);
    RootWhole(f, d, n);
    AddZero(f, f.one);
    MulAssoc(f, u, w, s);
    MulZero(f, u);
    MulOne(f, s);
  }

  lemma RootsSum<C(!new)>(f: Ring<C>, d: int, n: nat)
    requires IsRing(f) && Invertible(f, n)
    ensures Sum(f, RootTerm(f, d, n), n) == if d % n == 0 then Whole(f, n) else f.zero
  {
    if IsPow2(n) {
      RootsCancel(f, d, n);
    } else if d % n == 0 {
      RootsAllOne(f, d / n, n);
      DivMod(d, n);
    } else {
      RootsVanish(f, d, n);
    }
  }

  lemma HalvedMultiple(p: int, h: nat)
    ensures 2 * p * h == p * (2 * h)
  {
  }

  lemma OddQuotient(d: int, q: int, h: nat)
    requires h > 0 && d == q * h && d % (2 * h) != 0
    ensures d == h + ((q - 1) / 2) * (2 * h)
  {
    var p := q / 2;
    HalvedMultiple(p, h);
    if q == 2 * p {
      DivModUnique(d, p, 0, 2 * h);
    } else {
      assert q == 2 * p + 1 && (q - 1) / 2 == p;
      assert (2 * p + 1) * h == 2 * p * h + h;
    }
  }

  lemma OddMultipleOfHalf<C(!new)>(f: Ring<C>, d: int, h: nat)
    requires IsRing(f) && h > 0 && d % h == 0 && d % (2 * h) != 0
    ensures f.root(d, 2 * h) == f.neg(f.one)
  {
    var q := d / h;
    assert d == q * h;
    OddQuotient(d, q, h);
    RootPeriodic(f, h, (q - 1) / 2, 2 * h);
    RootHalf(f, 0, h);
    RootZero(f, 2 * h);
  }

  /** The term of the double sum behind inversion. */
  ghost function Kernel<C(!new)>(f: Ring<C>, sign: int, x: seq<C>, i: int): (nat, nat) -> C {
    (m: nat, l: nat) =>
      if l < |x| then f.mul(f.mul(x[l], f.root(sign * l * m, |x|)), f.root(-sign * i * m, |x|)) else f.zero
  }

  ghost function Back<C(!new)>(f: Ring<C>, sign: int, x: seq<C>, i: int): nat -> C {
    (m: nat) => f.mul(Dft(f, sign, x, m), f.root(-sign * i * m, |x|))
  }

  /**
   Transforming back: summing the transform against the conjugate roots gives each element, at every
   integer position modulo the length, `n` times.
   */
  lemma Inversion<C(!new)>(f: Ring<C>, sign: int, x: seq<C>, i: int)
    requires IsRing(f) && Invertible(f, |x|) && (sign == 1 || sign == -1)
    ensures Sum(f, Back(f, sign, x, i), |x|) == f.mul(Whole(f, |x|), x[i % |x|])
  {
    var n := |x|;
    var g := Kernel(f, sign, x, i);
    forall m: nat | m < n
      ensures Back(f, sign, x, i)(m) == RowSums(f, g, n)(m)
    {
      BackIsRow(f, sign, x, i, m);
    }
    SumEq(f, Back(f, sign, x, i), RowSums(f, g, n), n);
    SumSwap(f, g, n, n);
    forall l: nat | l < n
      ensures ColumnSums(f, g, n)(l) == if l == i % n then f.mul(Whole(f, n), x[l]) else f.zero
    {
      KernelColumn(f, sign, x, i, l);
    }
    SumSingle(f, ColumnSums(f, g, n), n, i % n);
  }

  lemma PowerInversion<C(!new)>(f: Ring<C>, sign: int, x: seq<C>, i: int)
    requires IsRing(f) && IsPow2(|x|) && (sign == 1 || sign == -1)
    ensures Sum(f, Back(f, sign, x, i), |x|) == f.mul(Whole(f, |x|), x[i % |x|])
  {
    Inversion(f, sign, x, i);
  }

  lemma BackIsRow<C(!new)>(f: Ring<C>, sign: int, x: seq<C>, i: int, m: nat)
    requires IsRing(f)
    ensures Back(f, sign, x, i)(m) == Sum(f, RowOf(Kernel(f, sign, x, i), m), |x|)
  {
    var n := |x|;
    var u := f.root(-sign * i * m, n);
    var t := DftTerm(f, sign, x, m);
    forall l: nat | l < n
      ensures Times(f, u, t)(l) == RowOf(Kernel(f, sign, x, i), m)(l)
    {
      MulComm(f, u, t(l));
    }
    SumEq(f, Times(f, u, t), RowOf(Kernel(f, sign, x, i), m), n);
    SumTimes(f, u, t, n);
    MulComm(f, u, Dft(f, sign, x, m));
  }

  lemma KernelColumn<C(!new)>(f: Ring<C>, sign: int, x: seq<C>, i: int, l: nat)
    requires IsRing(f) && Invertible(f, |x|) && l < |x| && (sign == 1 || sign == -1)
    ensures Sum(f, ColumnOf(Kernel(f, sign, x, i), l), |x|) ==
      if l == i % |x| then f.mul(Whole(f, |x|), x[l]) else f.zero
  {
    var n := |x|;
    var d := sign * (l - i);
    var t := ColumnOf(Kernel(f, sign, x, i), l);
    forall m: nat | m < n
      ensures t(m) == Times(f, x[l], RootTerm(f, d, n))(m)
    {
      RootAdd(f, sign * l * m, -sign * i * m, n);
      assert sign * l * m + -sign * i * m == d * m;
      MulAssoc(f, x[l], f.root(sign * l * m, n), f.root(-sign * i * m, n));
    }
    SumEq(f, t, Times(f, x[l], RootTerm(f, d, n)), n);
    SumTimes(f, x[l], RootTerm(f, d, n), n);
    RootsSum(f, d, n);
    DifferenceMod(sign, l, i, n);
    MulComm(f, x[l], Whole(f, n));
    MulZero(f, x[l]);
  }

  lemma DifferenceMod(sign: int, l: nat, i: int, n: nat)
    requires l < n && (sign == 1 || sign == -1)
    ensures (sign * (l - i)) % n == 0 <==> l == i % n
  {
    var q, r: nat := i / n, i % n;
    var d := sign * (l - i);
    if l == r {
      assert d == (sign * -q) * n + 0;
      DivModUnique(d, sign * -q, 0, n);
    } else if d % n == 0 {
      WholeDifference(sign, l, q, r, d / n, n);
    }
  }

  lemma WholeDifference(sign: int, l: nat, q: int, r: nat, p: int, n: nat)
    requires l < n && r < n && (sign == 1 || sign == -1) && sign * (l - (q * n + r)) == p * n
    ensures l == r
  {
    assert (q + sign * p) * n == q * n + sign * (p * n);
    QuotientUnique(0, l, q + sign * p, r, n);
  }
}
