/** A transform of any length as a circular convolution with a chirp. */
module Bluestein {
  import opened Arithmetic
  import opened Rings
  import opened Fourier

  // ----- the convolution theorem -----

  ghost function Spectrum<C(!new)>(f: Ring<C>, x: seq<C>): seq<C> {
    seq(|x|, (m: nat) requires m < |x| => Dft(f, -1, x, m))
  }

  function Product<C(!new)>(f: Ring<C>, p: seq<C>, q: seq<C>): seq<C>
    requires |p| == |q|
  {
    seq(|p|, (m: nat) requires m < |p| => f.mul(p[m], q[m]))
  }

  ghost function ConvTerm<C(!new)>(f: Ring<C>, a: seq<C>, b: seq<C>, k: int): nat -> C {
    (j: nat) => if j < |a| == |b| then f.mul(a[j], b[(k - j) % |b|]) else f.zero
  }

  /** Element `k` of the circular convolution. */
  ghost function Convolution<C(!new)>(f: Ring<C>, a: seq<C>, b: seq<C>, k: int): C {
    Sum(f, ConvTerm(f, a, b, k), |a|)
  }

  /** One term of the double sum: input `j`, frequency `m`. */
  ghost function Cross<C(!new)>(f: Ring<C>, a: seq<C>, b: seq<C>, k: int): (nat, nat) -> C {
    (m: nat, j: nat) => if j < |a| then
        f.mul(f.mul(f.mul(a[j], f.root(-1 * j * m, |a|)), Dft(f, -1, b, m)), f.root(1 * m * k, |a|))
      else f.zero
  }

  lemma MulSwap<C(!new)>(f: Ring<C>, a: C, b: C, c: C)
    requires IsRing(f)
    ensures f.mul(f.mul(a, b), c) == f.mul(f.mul(b, c), a)
  {
    MulAssoc(f, a, b, c);
    MulComm(f, a, f.mul(b, c));
  }

  lemma CrossRow<C(!new)>(f: Ring<C>, a: seq<C>, b: seq<C>, k: int, m: nat)
    requires IsRing(f) && |a| == |b| && m < |a|
    ensures RowSums(f, Cross(f, a, b, k), |a|)(m) ==
      DftTerm(f, 1, Product(f, Spectrum(f, a), Spectrum(f, b)), k)(m)
  {
    var n := |a|;
    var t := DftTerm(f, -1, a, m);
    var v, u := Dft(f, -1, b, m), f.root(1 * m * k, n);
    var w := f.mul(v, u);
    var row := RowOf(Cross(f, a, b, k), m);
    forall j: nat | j < n
      ensures row(j) == Times(f, w, t)(j)
    {
      MulSwap(f, t(j), v, u);
      MulAssoc(f, t(j), v, u);
      MulComm(f, t(j), w);
    }
    SumEq(f, row, Times(f, w, t), n);
    SumTimes(f, w, t, n);
    MulSwap(f, Dft(f, -1, a, m), v, u);
  }

  lemma CrossTerm<C(!new)>(f: Ring<C>, a: C, b: C, j: int, k: int, m: int, n: nat)
    requires IsRing(f) && n > 0
    ensures f.mul(f.mul(f.mul(a, f.root(-1 * j * m, n)), b), f.root(1 * m * k, n)) ==
      f.mul(a, f.mul(b, f.root(-(-1) * (k - j) * m, n)))
  {
    var p, q := f.root(-1 * j * m, n), f.root(1 * m * k, n);
    assert -1 * j * m + 1 * m * k == -(-1) * (k - j) * m;
    RootAdd(f, -1 * j * m, 1 * m * k, n);
    MulAssoc(f, f.mul(a, p), b, q);
    MulAssoc(f, a, p, f.mul(b, q));
    MulSwap(f, b, q, p);
    MulComm(f, p, f.mul(b, q));
    MulComm(f, q, p);
    MulAssoc(f, b, q, p);
  }

  lemma ColumnIsBack<C(!new)>(f: Ring<C>, a: seq<C>, b: seq<C>, k: int, j: nat)
    requires IsRing(f) && |a| == |b| && j < |a|
    ensures ColumnSums(f, Cross(f, a, b, k), |a|)(j) == f.mul(a[j], Sum(f, Back(f, -1, b, k - j), |a|))
  {
    var n := |a|;
    var column, back := ColumnOf(Cross(f, a, b, k), j), Back(f, -1, b, k - j);
    forall m: nat | m < n
      ensures column(m) == Times(f, a[j], back)(m)
    {
      CrossTerm(f, a[j], Dft(f, -1, b, m), j, k, m, n);
    }
    SumEq(f, column, Times(f, a[j], back), n);
    SumTimes(f, a[j], back, n);
  }

  lemma ConvTermAt<C(!new)>(f: Ring<C>, a: seq<C>, b: seq<C>, k: int, j: nat)
    requires |a| == |b| && j < |a|
    ensures ConvTerm(f, a, b, k)(j) == f.mul(a[j], b[(k - j) % |b|])
  {
  }

  lemma CrossColumn<C(!new)>(f: Ring<C>, a: seq<C>, b: seq<C>, k: int, j: nat)
    requires IsRing(f) && |a| == |b| && IsPow2(|a|) && j < |a|
    ensures ColumnSums(f, Cross(f, a, b, k), |a|)(j) == f.mul(Whole(f, |a|), ConvTerm(f, a, b, k)(j))
  {
    ColumnIsBack(f, a, b, k, j);
    PowerInversion(f, -1, b, k - j);
    ConvTermAt(f, a, b, k, j);
    MulLeft(f, a[j], Whole(f, |a|), b[(k - j) % |b|]);
  }

  lemma MulLeft<C(!new)>(f: Ring<C>, a: C, w: C, v: C)
    requires IsRing(f)
    ensures f.mul(a, f.mul(w, v)) == f.mul(w, f.mul(a, v))
  {
    MulAssoc(f, a, w, v);
    MulComm(f, a, w);
    MulAssoc(f, w, a, v);
  }

  /** Multiplying two spectra and transforming back convolves, up to the factor of the length. */
  lemma ConvolutionTheorem<C(!new)>(f: Ring<C>, a: seq<C>, b: seq<C>, k: int)
    requires IsRing(f) && |a| == |b| && IsPow2(|a|)
    ensures Dft(f, 1, Product(f, Spectrum(f, a), Spectrum(f, b)), k) ==
      f.mul(Whole(f, |a|), Convolution(f, a, b, k))
  {
    var n := |a|;
    var g, c := Cross(f, a, b, k), ConvTerm(f, a, b, k);
    var p := DftTerm(f, 1, Product(f, Spectrum(f, a), Spectrum(f, b)), k);
    forall m: nat | m < n
      ensures p(m) == RowSums(f, g, n)(m)
    {
      CrossRow(f, a, b, k, m);
    }
    SumEq(f, p, RowSums(f, g, n), n);
    SumSwap(f, g, n, n);
    forall j: nat | j < n
      ensures ColumnSums(f, g, n)(j) == Times(f, Whole(f, n), c)(j)
    {
      CrossColumn(f, a, b, k, j);
    }
    SumEq(f, ColumnSums(f, g, n), Times(f, Whole(f, n), c), n);
    SumTimes(f, Whole(f, n), c, n);
  }

  // ----- the chirp -----

  /** The table entry: the square of the index is reduced modulo twice the length. */
  function Chirp<C(!new)>(f: Ring<C>, sign: int, n: nat, k: nat): C
    requires n > 0
  {
    f.root(sign * (k * k % (2 * n)), 2 * n)
  }

  /** The reduction loses nothing. */
  lemma ChirpIsSquare<C(!new)>(f: Ring<C>, sign: int, n: nat, k: nat)
    requires IsRing(f) && n > 0
    ensures Chirp(f, sign, n, k) == f.root(sign * (k * k), 2 * n)
  {
    var s, w := k * k, 2 * n;
    var q, r := s / w, s % w;
    RootPeriodic(f, sign * r, sign * q, w);
    SignedQuotient(sign, q, r, w);
  }

  lemma SignedQuotient(sign: int, q: int, r: int, w: int)
    ensures sign * (q * w + r) == sign * r + (sign * q) * w
  {
  }

  /** The convolution table: the conjugate chirp at both ends, zero between. */
  function ChirpTable<C(!new)>(f: Ring<C>, sign: int, n: nat, m: nat): (r: seq<C>)
    requires 0 < n && 2 * n - 1 <= m
    ensures |r| == m
  {
    seq(m, (i: nat) requires i < m =>
      if i < n then f.conj(Chirp(f, sign, n, i))
      else if m - i < n then f.conj(Chirp(f, sign, n, m - i))
      else f.zero)
  }

  /** The element the convolution meets for input `j` and output `k`: the chirp of their distance. */
  lemma TableAtDistance<C(!new)>(f: Ring<C>, sign: int, n: nat, m: nat, j: nat, k: nat)
    requires IsRing(f) && j < n && k < n && 2 * n - 1 <= m
    ensures ChirpTable(f, sign, n, m)[(k - j) % m] == f.root(-(sign * ((k - j) * (k - j))), 2 * n)
  {
    var d: nat := if k >= j then k - j else j - k;
    assert d * d == (k - j) * (k - j);
    if k >= j {
      DivModUnique(k - j, 0, d, m);
    } else {
      DivModUnique(k - j, -1, m - d, m);
    }
    ChirpIsSquare(f, sign, n, d);
    RootConj(f, sign * (d * d), 2 * n);
  }

  lemma SquareIdentity(sign: int, j: int, k: int)
    ensures sign * (j * j) + -(sign * ((k - j) * (k - j))) + sign * (k * k) == sign * j * k * 2
  {
    assert (k - j) * (k - j) == k * k - 2 * (j * k) + j * j;
    Distribute(sign, j * j, k * k, j * k);
  }

  lemma Distribute(s: int, a: int, b: int, c: int)
    ensures s * a + -(s * (b - 2 * c + a)) + s * b == s * c * 2
  {
  }

  /** Chirp of the input, chirp of the distance and chirp of the output make the root of the product. */
  lemma ChirpsMakeRoot<C(!new)>(f: Ring<C>, sign: int, n: nat, m: nat, j: nat, k: nat)
    requires IsRing(f) && j < n && k < n && 2 * n - 1 <= m
    ensures f.mul(f.mul(Chirp(f, sign, n, j), ChirpTable(f, sign, n, m)[(k - j) % m]), Chirp(f, sign, n, k)) ==
      f.root(sign * j * k, n)
  {
    var a, b, c := sign * (j * j), -(sign * ((k - j) * (k - j))), sign * (k * k);
    ChirpIsSquare(f, sign, n, j);
    ChirpIsSquare(f, sign, n, k);
    TableAtDistance(f, sign, n, m, j, k);
    RootAdd(f, a, b, 2 * n);
    RootAdd(f, a + b, c, 2 * n);
    SquareIdentity(sign, j, k);
    RootScale(f, sign * j * k, n, 2);
  }

  /** The input times the chirp, padded with zeros. */
  function Chirped<C(!new)>(f: Ring<C>, sign: int, x: seq<C>, m: nat): (r: seq<C>)
    requires 0 < |x| <= m
    ensures |r| == m
  {
    seq(m, (j: nat) requires j < m => if j < |x| then f.mul(x[j], Chirp(f, sign, |x|, j)) else f.zero)
  }

  lemma ChirpedTerm<C(!new)>(f: Ring<C>, sign: int, x: seq<C>, m: nat, j: nat, k: nat)
    requires IsRing(f) && j < |x| && k < |x| && 2 * |x| - 1 <= m
    ensures f.mul(Chirp(f, sign, |x|, k), ConvTerm(f, Chirped(f, sign, x, m), ChirpTable(f, sign, |x|, m), k)(j)) ==
      DftTerm(f, sign, x, k)(j)
  {
    var n := |x|;
    var v, c, b, d := x[j], Chirp(f, sign, n, j), ChirpTable(f, sign, n, m)[(k - j) % m], Chirp(f, sign, n, k);
    ChirpsMakeRoot(f, sign, n, m, j, k);
    MulComm(f, d, f.mul(f.mul(v, c), b));
    MulAssoc(f, v, c, b);
    MulAssoc(f, v, f.mul(c, b), d);
  }

  lemma ChirpedTail<C(!new)>(f: Ring<C>, sign: int, x: seq<C>, m: nat, j: nat, k: nat)
    requires IsRing(f) && |x| > 0 && |x| <= j < m && 2 * |x| - 1 <= m
    ensures ConvTerm(f, Chirped(f, sign, x, m), ChirpTable(f, sign, |x|, m), k)(j) == f.zero
  {
    MulZero(f, ChirpTable(f, sign, |x|, m)[(k - j) % m]);
  }

  /** The convolution with the chirp is the transform, for every length. */
  lemma ChirpConvolution<C(!new)>(f: Ring<C>, sign: int, x: seq<C>, m: nat, k: nat)
    requires IsRing(f) && k < |x| && 2 * |x| - 1 <= m
    ensures f.mul(Chirp(f, sign, |x|, k), Convolution(f, Chirped(f, sign, x, m), ChirpTable(f, sign, |x|, m), k)) ==
      Dft(f, sign, x, k)
  {
    var n := |x|;
    var d := Chirp(f, sign, n, k);
    var t := ConvTerm(f, Chirped(f, sign, x, m), ChirpTable(f, sign, n, m), k);
    forall j: nat | n <= j < m
      ensures t(j) == f.zero
    {
      ChirpedTail(f, sign, x, m, j, k);
    }
    SumTail(f, t, n, m);
    SumTimes(f, d, t, n);
    forall j: nat | j < n
      ensures Times(f, d, t)(j) == DftTerm(f, sign, x, k)(j)
    {
      ChirpedTerm(f, sign, x, m, j, k);
    }
    SumEq(f, Times(f, d, t), DftTerm(f, sign, x, k), n);
  }
}
