/** The device kernels of the transform: each thread of a launch is one round of a loop. */
module FftKernels {
  import opened Arithmetic
  import opened Rings
  import opened Fourier
  import opened Butterflies

  /** `reverse`: shifts the low bits of the value into the result one by one. */
  method Reverse(value: nat, bits: nat) returns (out: nat)
    ensures out == Rev(value, bits)
  {
    out := 0;
    var rest: nat := value;
    for t := 0 to bits
      invariant Rev(value, bits) == out * Pow2(bits - t) + Rev(rest, bits - t)
    {
      ghost var left: nat := bits - t - 1;
      assert Rev(rest, left + 1) == rest % 2 * Pow2(left) + Rev(rest / 2, left);
      Shifted(out, rest % 2, Pow2(left));
      out := 2 * out + rest % 2;
      rest := rest / 2;
    }
  }

  lemma Shifted(out: nat, bit: nat, p: nat)
    ensures out * (2 * p) + bit * p == (2 * out + bit) * p
  {
  }

  /** Writing every element at its mirrored index puts the sequence in decimation order. */
  lemma ReversedWrites<C>(v: seq<C>, w: seq<C>, bits: nat)
    requires |v| == |w| == Pow2(bits)
    requires forall p: nat :: p < |v| ==> Rev(p, bits) < |v| && w[Rev(p, bits)] == v[p]
    ensures IsPow2(|v|) && w == Decimate(v)
  {
    Pow2IsPow2(bits);
    forall i: nat | i < |v|
      ensures w[i] == Decimate(v)[i]
    {
      RevTwice(i, bits);
      RevBound(i, bits);
      DecimateIsReversal(v, bits, i);
    }
  }

  lemma RevDistinct(p: nat, q: nat, bits: nat)
    requires p < Pow2(bits) && q < Pow2(bits) && Rev(p, bits) == Rev(q, bits)
    ensures p == q
  {
    RevTwice(p, bits);
    RevTwice(q, bits);
  }

  /** What both reversing kernels keep: the elements below `pos` are at their mirrored places. */
  ghost predicate Placed<C>(v: seq<C>, w: seq<C>, bits: nat, pos: nat)
    requires |v| == |w| && pos <= |v|
  {
    forall p: nat :: p < pos ==> Rev(p, bits) < |w| && w[Rev(p, bits)] == v[p]
  }

  lemma PlaceNext<C>(v: seq<C>, w: seq<C>, bits: nat, pos: nat)
    requires |v| == |w| == Pow2(bits) && pos < |v| && Placed(v, w, bits, pos)
    ensures Rev(pos, bits) < |w| && Placed(v, w[Rev(pos, bits) := v[pos]], bits, pos + 1)
  {
    RevBound(pos, bits);
    forall p: nat | p < pos
      ensures Rev(p, bits) != Rev(pos, bits)
    {
      if Rev(p, bits) == Rev(pos, bits) {
        RevDistinct(p, pos, bits);
        assert false;
      }
    }
  }

  // ----- butterflies -----

  /** The thread that writes element `i`. */
  function Thread(i: nat, half: nat): nat
    requires half > 0
  {
    i / (2 * half) * half + if i % (2 * half) < half then i % (2 * half) else i % (2 * half) - half
  }

  function Low(pos: nat, half: nat): nat
    requires half > 0
  {
    pos / half * (2 * half) + pos % half
  }

  lemma LowInBlock(pos: nat, half: nat)
    requires half > 0
    ensures Low(pos, half) % (2 * half) == pos % half
    ensures (Low(pos, half) + half) % (2 * half) == pos % half + half
    ensures Thread(Low(pos, half), half) == pos && Thread(Low(pos, half) + half, half) == pos
  {
    var q, k := pos / half, pos % half;
    DivModUnique(Low(pos, half), q, k, 2 * half);
    DivModUnique(Low(pos, half) + half, q, k + half, 2 * half);
  }

  /** Each element has one writer. */
  lemma ThreadOwns(i: nat, half: nat)
    requires half > 0
    ensures var l := Low(Thread(i, half), half);
      i == if i % (2 * half) < half then l else l + half
  {
    var q, k := i / (2 * half), i % (2 * half);
    var r := if k < half then k else k - half;
    DivModUnique(Thread(i, half), q, r, half);
  }

  lemma LowBound(pos: nat, c: nat, half: nat)
    requires half > 0 && pos < c * half
    ensures Low(pos, half) + half < c * (2 * half)
  {
    var q := pos / half;
    BelowMultiple(q, pos % half, c, half);
    assert q * (2 * half) + 2 * half <= c * (2 * half) by {
      assert q * (2 * half) == 2 * (q * half) && c * (2 * half) == 2 * (c * half);
    }
  }

  lemma ThreadBound(i: nat, c: nat, half: nat)
    requires half > 0 && i < c * (2 * half)
    ensures Thread(i, half) < c * half
  {
    var q, k := i / (2 * half), i % (2 * half);
    BelowMultiple(q, k, c, 2 * half);
    assert q * (2 * half) == 2 * (q * half) && c * (2 * half) == 2 * (c * half);
  }

  /** The table entry `k * (n / 2half)` of the n-th roots is the k-th root of order `2half`. */
  lemma TwiddleIndex<C(!new)>(f: Ring<C>, k: nat, c: nat, half: nat, n: nat)
    requires IsRing(f) && n == c * (2 * half) && n > 0 && k < half
    ensures k * c < n / 2 && f.root(-1 * (k * c), n) == f.root(-1 * k, 2 * half)
    ensures f.conj(f.root(-1 * (k * c), n)) == f.root(1 * k, 2 * half)
  {
    assert c > 0;
    assert 2 * half * c == c * (2 * half);
    RootScale(f, -1 * k, 2 * half, c);
    assert -1 * k * c == -1 * (k * c);
    RootConj(f, -1 * k, 2 * half);
    TwiddleBound(k, c, half);
  }

  lemma TwiddleBound(k: nat, c: nat, half: nat)
    requires k < half && c > 0
    ensures k * c < c * (2 * half) / 2
  {
    assert (half - k) * c >= c by {
      MulAtLeast(half - k, c);
    }
    assert (half - k) * c == half * c - k * c;
    assert c * (2 * half) == 2 * (half * c);
  }

  ghost predicate Written<C(!new)>(f: Ring<C>, sign: int, x: seq<C>, y: seq<C>, half: nat, pos: nat)
    requires Blocks(|x|, half)
  {
    |y| == |x| && forall i: nat :: i < |x| && Thread(i, half) < pos ==> y[i] == Arm(f, sign, x, half, i)
  }

  lemma WriteNext<C(!new)>(f: Ring<C>, sign: int, x: seq<C>, y: seq<C>, half: nat, pos: nat)
    requires Blocks(|x|, half) && Written(f, sign, x, y, half, pos) && Low(pos, half) + half < |x|
    ensures var l := Low(pos, half);
      var t := f.mul(f.root(sign * (pos % half), 2 * half), x[l + half]);
      Written(f, sign, x, y[l := f.add(x[l], t)][l + half := f.Sub(x[l], t)], half, pos + 1)
  {
    var l := Low(pos, half);
    LowInBlock(pos, half);
    forall i: nat | i < |x| && Thread(i, half) < pos + 1 && i != l && i != l + half
      ensures Thread(i, half) < pos
    {
      ThreadOwns(i, half);
    }
  }

  /** The table of a plan: the forward roots of its working length. */
  ghost predicate IsTwiddle<C(!new)>(f: Ring<C>, n: nat, table: seq<C>) {
    n / 2 <= |table| && forall k: nat :: k < |table| ==> table[k] == f.root(-1 * k, n)
  }

  function Sign(inverse: bool): int {
    if inverse then 1 else -1
  }

  /** `butterfly`: one stage from one buffer to the other. */
  method Butterfly<C(!new)>(f: Ring<C>, a: array<C>, table: array<C>, b: array<C>, half: nat, inverse: bool)
    requires IsRing(f) && Blocks(a.Length, half) && a.Length == b.Length > 0 && IsTwiddle(f, a.Length, table[..])
    requires b != a && b != table
    modifies b
    ensures b[..] == Stage(f, Sign(inverse), a[..], half)
  {
    var n := a.Length;
    var c := n / (2 * half);
    ghost var x := a[..];
    assert n == c * (2 * half);
    Halved(c, half);
    for pos := 0 to n / 2
      invariant Written(f, Sign(inverse), x, b[..], half, pos)
    {
      var k := pos % half;
      var l := pos / half * (2 * half) + k;
      var r := l + half;
      LowBound(pos, c, half);
      TwiddleIndex(f, k, c, half, n);
      WriteNext(f, Sign(inverse), x, b[..], half, pos);
      var w := table[..][k * c];
      if inverse {
        w := f.conj(w);
      }
      WritePair(f, a, b, l, r, w);
    }
    forall i: nat | i < n
      ensures b[i] == Arm(f, Sign(inverse), x, half, i)
    {
      ThreadBound(i, c, half);
    }
    assert b[..] == Stage(f, Sign(inverse), x, half);
  }

  lemma Halved(c: nat, half: nat)
    ensures c * (2 * half) / 2 == c * half
  {
    assert c * (2 * half) == 2 * (c * half);
  }

  method WritePair<C(!new)>(f: Ring<C>, a: array<C>, b: array<C>, l: nat, r: nat, w: C)
    requires l < r < a.Length == b.Length && a != b
    modifies b
    ensures var t := f.mul(w, a[r]);
      b[..] == old(b[..])[l := f.add(a[l], t)][r := f.Sub(a[l], t)]
  {
    var t := f.mul(w, a[r]);
    b[l] := f.add(a[l], t);
    b[r] := f.Sub(a[l], t);
  }
}
