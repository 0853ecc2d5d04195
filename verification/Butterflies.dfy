/** The iterative transform: bit reversal, stages of butterflies, and the in-place form. */
module Butterflies {
  import opened Arithmetic
  import opened Rings
  import opened Fourier

  // ----- bit reversal -----

  /** The low `bits` bits of `i` in reverse order. */
  function Rev(i: nat, bits: nat): nat {
    if bits == 0 then 0 else i % 2 * Pow2(bits - 1) + Rev(i / 2, bits - 1)
  }

  lemma {:induction false} RevBound(i: nat, bits: nat)
    ensures Rev(i, bits) < Pow2(bits)
  {
    if bits > 0 {
      RevBound(i / 2, bits - 1);
    }
  }

  /** The top bit becomes the lowest one. */
  lemma {:induction false} RevTop(i: nat, top: nat, bits: nat)
    requires i < Pow2(bits) && top < 2
    ensures Rev(top * Pow2(bits) + i, bits + 1) == 2 * Rev(i, bits) + top
  {
    var v := top * Pow2(bits) + i;
    if bits == 0 {
      assert Pow2(0) == 1 && v == top;
      assert Rev(v, 1) == v % 2 * Pow2(0) + Rev(v / 2, 0);
    } else {
      var p := Pow2(bits - 1);
      RevTop(i / 2, top, bits - 1);
      assert v == 2 * (top * p) + i;
      assert v % 2 == i % 2 && v / 2 == top * p + i / 2;
      assert Rev(v, bits + 1) == i % 2 * Pow2(bits) + Rev(v / 2, bits);
    }
  }

  /** Reversing twice gives the bits back. */
  lemma {:induction false} RevTwice(i: nat, bits: nat)
    requires i < Pow2(bits)
    ensures Rev(Rev(i, bits), bits) == i
  {
    if bits > 0 {
      RevBound(i / 2, bits - 1);
      RevTwice(i / 2, bits - 1);
      RevTop(Rev(i / 2, bits - 1), i % 2, bits - 1);
    }
  }

  /**
   `reverse_bits` on a whole word followed by a shift: the bits above the index are zero, so the
   word's reversal is the index's reversal at the top of the word.
   */
  lemma {:induction false} RevInWord(i: nat, bits: nat, word: nat)
    requires i < Pow2(bits) && bits <= word
    ensures Rev(i, word) / Pow2(word - bits) == Rev(i, bits)
  {
    RevShifted(i, bits, word);
    DivModUnique(Rev(i, word), Rev(i, bits), 0, Pow2(word - bits));
  }

  lemma {:induction false} RevZero(bits: nat)
    ensures Rev(0, bits) == 0
  {
    if bits > 0 {
      RevZero(bits - 1);
    }
  }

  lemma Regroup(a: nat, b: nat, c: nat, d: nat)
    ensures a * (b * c) + d * c == (a * b + d) * c
  {
  }

  lemma {:induction false} RevShifted(i: nat, bits: nat, word: nat)
    requires i < Pow2(bits) && bits <= word
    ensures Rev(i, word) == Rev(i, bits) * Pow2(word - bits)
  {
    if bits == 0 {
      assert Pow2(0) == 1;
      RevZero(word);
    } else {
      RevShifted(i / 2, bits - 1, word - 1);
      Pow2Add(bits - 1, word - bits);
      Regroup(i % 2, Pow2(bits - 1), Pow2(word - bits), Rev(i / 2, bits - 1));
    }
  }

  // ----- decimation order -----

  /** The order in which the recursion reaches the elements. */
  function Decimate<C>(x: seq<C>): (r: seq<C>)
    requires IsPow2(|x|)
    ensures |r| == |x|
    decreases |x|
  {
    if |x| == 1 then x else Decimate(Evens(x)) + Decimate(Odds(x))
  }

  /** It is bit reversal. */
  lemma {:induction false} DecimateIsReversal<C>(x: seq<C>, bits: nat, i: nat)
    requires |x| == Pow2(bits) && i < |x|
    ensures IsPow2(|x|) && Rev(i, bits) < |x| && Decimate(x)[i] == x[Rev(i, bits)]
    decreases bits
  {
    Pow2IsPow2(bits);
    RevBound(i, bits);
    if bits > 0 {
      var h := Pow2(bits - 1);
      var top, low := if i < h then 0 else 1, if i < h then i else i - h;
      DecimateIsReversal(Evens(x), bits - 1, low);
      DecimateIsReversal(Odds(x), bits - 1, low);
      RevTop(low, top, bits - 1);
    }
  }

  // ----- stages of butterflies -----

  predicate Blocks(n: nat, half: nat) {
    half > 0 && n % (2 * half) == 0
  }

  lemma BelowMultiple(q: int, k: nat, p: int, w: nat)
    requires k < w && q * w + k < p * w
    ensures q * w + w <= p * w
  {
    MulAtLeast(p - q, w);
    assert (p - q) * w == p * w - q * w;
  }

  lemma InBlock(i: nat, n: nat, half: nat)
    requires Blocks(n, half) && i < n
    ensures i % (2 * half) < half ==> i + half < n
    ensures i % (2 * half) >= half ==> i >= half
  {
    var w := 2 * half;
    DivMod(i, w);
    DivMod(n, w);
    var q, k, p := i / w, i % w, n / w;
    InBlockAt(i, q, k, p, w);
  }

  lemma InBlockAt(i: nat, q: nat, k: nat, p: nat, w: nat)
    requires k < w && i == q * w + k && i < p * w
    ensures k <= i && i - k + w <= p * w
  {
    BelowMultiple(q, k, p, w);
    assert q * w >= 0;
  }

  /** Element `i` after the butterflies that join blocks of length `half`. */
  function Arm<C(!new)>(f: Ring<C>, sign: int, y: seq<C>, half: nat, i: nat): C
    requires Blocks(|y|, half) && i < |y|
  {
    InBlock(i, |y|, half);
    var k := i % (2 * half);
    if k < half then f.add(y[i], f.mul(f.root(sign * k, 2 * half), y[i + half]))
    else f.Sub(y[i - half], f.mul(f.root(sign * (k - half), 2 * half), y[i]))
  }

  function Stage<C(!new)>(f: Ring<C>, sign: int, y: seq<C>, half: nat): (r: seq<C>)
    requires Blocks(|y|, half)
    ensures |r| == |y|
  {
    seq(|y|, (i: nat) requires i < |y| => Arm(f, sign, y, half, i))
  }

  lemma BlocksOfPow2(bits: nat, s: nat)
    requires s < bits
    ensures Blocks(Pow2(bits), Pow2(s))
  {
    Pow2Add(bits - 1 - s, s + 1);
    DivModUnique(Pow2(bits), Pow2(bits - 1 - s), 0, 2 * Pow2(s));
  }

  /** The first `s` stages. */
  function Levels<C(!new)>(f: Ring<C>, sign: int, y: seq<C>, bits: nat, s: nat): (r: seq<C>)
    requires |y| == Pow2(bits) && s <= bits
    ensures |r| == |y|
  {
    if s == 0 then y
    else
      BlocksOfPow2(bits, s - 1);
      Stage(f, sign, Levels(f, sign, y, bits, s - 1), Pow2(s - 1))
  }

  /** A stage narrower than the halves works on them separately. */
  lemma StageOfHalves<C(!new)>(f: Ring<C>, sign: int, a: seq<C>, b: seq<C>, half: nat)
    requires |a| == |b| && Blocks(|a|, half)
    ensures Blocks(|a + b|, half)
    ensures Stage(f, sign, a + b, half) == Stage(f, sign, a, half) + Stage(f, sign, b, half)
  {
    var y := a + b;
    var n, w := |a|, 2 * half;
    var q := n / w;
    ModShift(n, q, w);
    forall i: nat | i < |y|
      ensures Stage(f, sign, y, half)[i] == (Stage(f, sign, a, half) + Stage(f, sign, b, half))[i]
    {
      ArmOfHalves(f, sign, a, b, half, i);
    }
  }

  lemma ArmOfHalves<C(!new)>(f: Ring<C>, sign: int, a: seq<C>, b: seq<C>, half: nat, i: nat)
    requires |a| == |b| && Blocks(|a|, half) && Blocks(|a + b|, half) && i < |a + b|
    ensures Arm(f, sign, a + b, half, i) ==
      if i < |a| then Arm(f, sign, a, half, i) else Arm(f, sign, b, half, i - |a|)
  {
    var n, w := |a|, 2 * half;
    if i < n {
      InBlock(i, n, half);
    } else {
      InBlock(i - n, n, half);
      ModWhole(i - n, n, w);
    }
  }

  /** The stage as wide as the halves joins them. */
  lemma LastStage<C(!new)>(f: Ring<C>, sign: int, a: seq<C>, b: seq<C>)
    requires |a| == |b| > 0
    ensures Blocks(|a + b|, |a|) && Stage(f, sign, a + b, |a|) == Combine(f, sign, a, b)
  {
    var y, h := a + b, |a|;
    ModSmall(0, 2 * h);
    forall i: nat | i < |y|
      ensures Arm(f, sign, y, h, i) == Combine(f, sign, a, b)[i]
    {
      ModSmall(i, 2 * h);
    }
  }

  lemma {:induction false} LevelsOfHalves<C(!new)>(f: Ring<C>, sign: int, a: seq<C>, b: seq<C>, bits: nat, s: nat)
    requires |a| == |b| == Pow2(bits) && s <= bits
    ensures |a + b| == Pow2(bits + 1)
    ensures Levels(f, sign, a + b, bits + 1, s) == Levels(f, sign, a, bits, s) + Levels(f, sign, b, bits, s)
    decreases s
  {
    if s > 0 {
      var p: nat := s - 1;
      LevelsOfHalves(f, sign, a, b, bits, p);
      OneMoreLevel(f, sign, a, b, bits, p);
    }
  }

  lemma OneMoreLevel<C(!new)>(f: Ring<C>, sign: int, a: seq<C>, b: seq<C>, bits: nat, s: nat)
    requires |a| == |b| == Pow2(bits) && s < bits && |a + b| == Pow2(bits + 1)
    requires Levels(f, sign, a + b, bits + 1, s) == Levels(f, sign, a, bits, s) + Levels(f, sign, b, bits, s)
    ensures Levels(f, sign, a + b, bits + 1, s + 1) == Levels(f, sign, a, bits, s + 1) + Levels(f, sign, b, bits, s + 1)
  {
    BlocksOfPow2(bits, s);
    StageOfHalves(f, sign, Levels(f, sign, a, bits, s), Levels(f, sign, b, bits, s), Pow2(s));
  }

  /** All stages on the reversed order are the recursive form. */
  lemma {:induction false} LevelsAreRecursive<C(!new)>(f: Ring<C>, sign: int, x: seq<C>, bits: nat)
    requires |x| == Pow2(bits)
    ensures IsPow2(|x|) && Levels(f, sign, Decimate(x), bits, bits) == FftRecursive(f, sign, x)
    decreases bits
  {
    Pow2IsPow2(bits);
    if bits > 0 {
      var p: nat := bits - 1;
      var evens, odds := Evens(x), Odds(x);
      assert |evens| == |odds| == Pow2(p);
      LevelsAreRecursive(f, sign, evens, p);
      LevelsAreRecursive(f, sign, odds, p);
      RecursiveJoins(f, sign, x, p);
    }
  }

  lemma RecursiveJoins<C(!new)>(f: Ring<C>, sign: int, x: seq<C>, bits: nat)
    requires |x| == Pow2(bits + 1) && |Evens(x)| == Pow2(bits) && IsPow2(|x|) && IsPow2(|x| / 2)
    requires Levels(f, sign, Decimate(Evens(x)), bits, bits) == FftRecursive(f, sign, Evens(x))
    requires Levels(f, sign, Decimate(Odds(x)), bits, bits) == FftRecursive(f, sign, Odds(x))
    ensures Levels(f, sign, Decimate(x), bits + 1, bits + 1) == FftRecursive(f, sign, x)
  {
    JoinHalves(f, sign, Decimate(Evens(x)), Decimate(Odds(x)), bits);
  }

  lemma JoinHalves<C(!new)>(f: Ring<C>, sign: int, a: seq<C>, b: seq<C>, bits: nat)
    requires |a| == |b| == Pow2(bits)
    ensures |a + b| == Pow2(bits + 1)
    ensures Levels(f, sign, a + b, bits + 1, bits + 1) ==
      Combine(f, sign, Levels(f, sign, a, bits, bits), Levels(f, sign, b, bits, bits))
  {
    LevelsOfHalves(f, sign, a, b, bits, bits);
    LastStage(f, sign, Levels(f, sign, a, bits, bits), Levels(f, sign, b, bits, bits));
  }
}
