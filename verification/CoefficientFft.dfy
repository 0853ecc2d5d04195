/** The host's transform of the coefficient table, in place on one array. */
module CoefficientFft {
  import opened Arithmetic
  import opened Rings
  import opened Fourier
  import opened Butterflies

  /** The exchange loop has dealt with `p`: its pair has an index below `i`. */
  predicate Exchanged(p: nat, bits: nat, i: nat) {
    p < i || Rev(p, bits) < i
  }

  /**
   Reversal by exchanging each index with its mirror image once. `word` is the width of the machine's
   index type: the source reverses a whole word and shifts.
   */
  method ReverseOrder<C(!new)>(a: array<C>, bits: nat, word: nat)
    requires a.Length == Pow2(bits) && bits <= word
    modifies a
    ensures IsPow2(a.Length) && a[..] == Decimate(old(a[..]))
  {
    ghost var x := a[..];
    forall p: nat | p < a.Length
      ensures Rev(p, bits) < a.Length
    {
      RevBound(p, bits);
    }
    var i := 0;
    while i < a.Length
      invariant 0 <= i <= a.Length
      invariant forall p: nat :: p < a.Length ==>
        Rev(p, bits) < a.Length && a[p] == if Exchanged(p, bits, i) then x[Rev(p, bits)] else x[p]
    {
      var j := Rev(i, word) / Pow2(word - bits);
      RevInWord(i, bits, word);
      RevBound(i, bits);
      RevTwice(i, bits);
      ghost var before := a[..];
      if i < j {
        a[i], a[j] := a[j], a[i];
      }
      ExchangedNext(x, before, a[..], bits, i);
      i := i + 1;
    }
    Pow2IsPow2(bits);
    forall p: nat | p < a.Length
      ensures a[p] == Decimate(x)[p]
    {
      DecimateIsReversal(x, bits, p);
    }
    assert a[..] == Decimate(x);
  }

  /** Element `p` before and after index `i` is handled. */
  lemma ExchangedNext<C>(x: seq<C>, before: seq<C>, after: seq<C>, bits: nat, i: nat)
    requires |x| == |before| == |after| == Pow2(bits) && i < |x|
    requires Rev(i, bits) < |x| && Rev(Rev(i, bits), bits) == i
    requires forall p: nat :: p < |x| ==>
      Rev(p, bits) < |x| && before[p] == if Exchanged(p, bits, i) then x[Rev(p, bits)] else x[p]
    requires var j := Rev(i, bits);
      after == if i < j then before[i := before[j]][j := before[i]] else before
    ensures forall p: nat :: p < |x| ==>
      Rev(p, bits) < |x| && after[p] == if Exchanged(p, bits, i + 1) then x[Rev(p, bits)] else x[p]
  {
    forall p: nat | p < |x|
      ensures Rev(p, bits) < |x|
      ensures after[p] == if Exchanged(p, bits, i + 1) then x[Rev(p, bits)] else x[p]
    {
      RevTwice(p, bits);
    }
  }

  predicate Done(i: nat, base: nat, half: nat, k: nat) {
    i < base || base <= i < base + k || base + half <= i < base + half + k
  }

  /** Before `base` the stage is finished, and in the block at `base` the first `k` pairs are. */
  ghost predicate Partial<C(!new)>(f: Ring<C>, x: seq<C>, y: seq<C>, half: nat, base: nat, k: nat)
    requires Blocks(|x|, half)
  {
    |y| == |x| && forall i: nat :: i < |x| ==> y[i] == if Done(i, base, half, k) then Arm(f, -1, x, half, i) else x[i]
  }

  /** One butterfly: both elements of the pair are still the old ones. */
  lemma PartialNext<C(!new)>(f: Ring<C>, x: seq<C>, y: seq<C>, half: nat, base: nat, k: nat)
    requires Blocks(|x|, half) && base % (2 * half) == 0 && base + 2 * half <= |x| && k < half
    requires Partial(f, x, y, half, base, k)
    ensures var l, r := base + k, base + k + half;
      var t := f.mul(f.root(-1 * k, 2 * half), y[r]);
      Partial(f, x, y[l := f.add(y[l], t)][r := f.Sub(y[l], t)], half, base, k + 1)
  {
    PairInBlock(base, k, half);
    assert !Done(base + k, base, half, k) && !Done(base + k + half, base, half, k);
  }

  lemma BlockDone<C(!new)>(f: Ring<C>, x: seq<C>, y: seq<C>, half: nat, base: nat)
    requires Blocks(|x|, half) && Partial(f, x, y, half, base, half)
    ensures Partial(f, x, y, half, base + 2 * half, 0)
  {
    forall i: nat | i < |x|
      ensures Done(i, base, half, half) <==> Done(i, base + 2 * half, half, 0)
    {
    }
  }

  /** One stage of butterflies in place: each pair is read before either element is written. */
  method InPlaceStage<C(!new)>(f: Ring<C>, a: array<C>, width: nat, half: nat)
    requires width == 2 * half && Blocks(a.Length, half)
    modifies a
    ensures a[..] == Stage(f, -1, old(a[..]), half)
  {
    var n := a.Length;
    ghost var x := a[..];
    var base := 0;
    while base < n
      invariant 0 <= base <= n && base % width == 0
      invariant Partial(f, x, a[..], half, base, 0)
    {
      NextBlock(base, n, width);
      var k := 0;
      while k < half
        invariant 0 <= k <= half
        invariant Partial(f, x, a[..], half, base, k)
      {
        PartialNext(f, x, a[..], half, base, k);
        Butterfly(f, a, base + k, base + k + half, f.root(-1 * k, width));
        k := k + 1;
      }
      BlockDone(f, x, a[..], half, base);
      base := base + width;
    }
  }

  method Butterfly<C(!new)>(f: Ring<C>, a: array<C>, l: nat, r: nat, w: C)
    requires l < r < a.Length
    modifies a
    ensures var y := old(a[..]); var t := f.mul(w, y[r]);
      a[..] == y[l := f.add(y[l], t)][r := f.Sub(y[l], t)]
  {
    var t := f.mul(w, a[r]);
    var v := a[l];
    a[l] := f.add(v, t);
    a[r] := f.Sub(v, t);
  }

  lemma NextBlock(base: nat, n: nat, width: nat)
    requires width > 0 && base % width == 0 && n % width == 0 && base < n
    ensures base + width <= n && (base + width) % width == 0
  {
    BelowMultiple(base / width, 0, n / width, width);
    ModShift(base, 1, width);
  }

  lemma PairInBlock(base: nat, k: nat, half: nat)
    requires k < half && base % (2 * half) == 0
    ensures (base + k) % (2 * half) == k && (base + k + half) % (2 * half) == k + half
  {
    DivModUnique(base + k, base / (2 * half), k, 2 * half);
    DivModUnique(base + k + half, base / (2 * half), k + half, 2 * half);
  }

  /** `coefficient_fft`: the forward transform, for every power of two. */
  method CoefficientFft<C(!new)>(f: Ring<C>, a: array<C>, word: nat)
    requires IsPow2(a.Length) && Log2(a.Length) <= word
    modifies a
    ensures a[..] == FftRecursive(f, -1, old(a[..]))
    ensures IsRing(f) ==> forall k: nat :: k < a.Length ==> a[k] == Dft(f, -1, old(a[..]), k)
  {
    ghost var x := a[..];
    var bits := Log2(a.Length);
    ReverseOrder(a, bits, word);
    RunStages(f, a, bits);
    ResultIsDft(f, x, bits);
  }

  /** The stages, each twice as wide as the one before. */
  method RunStages<C(!new)>(f: Ring<C>, a: array<C>, ghost bits: nat)
    requires a.Length == Pow2(bits)
    modifies a
    ensures a[..] == Levels(f, -1, old(a[..]), bits, bits)
  {
    var n := a.Length;
    ghost var y, s := a[..], 0;
    var width, half := 2, 1;
    while width <= n
      invariant s <= bits && half == Pow2(s) && width == 2 * half
      invariant a[..] == Levels(f, -1, y, bits, s)
      decreases bits - s
    {
      LevelNext(f, y, bits, s);
      InPlaceStage(f, a, width, half);
      s := s + 1;
      if width == n {
        break;
      }
      width, half := width * 2, width;
    }
    StagesDone(bits, s, width);
  }

  lemma ResultIsDft<C(!new)>(f: Ring<C>, x: seq<C>, bits: nat)
    requires |x| == Pow2(bits) && IsPow2(|x|)
    ensures var r := Levels(f, -1, Decimate(x), bits, bits);
      r == FftRecursive(f, -1, x) && (IsRing(f) ==> forall k: nat :: k < |x| ==> r[k] == Dft(f, -1, x, k))
  {
    LevelsAreRecursive(f, -1, x, bits);
    RecursiveIsDfts(f, x);
  }

  lemma LevelNext<C(!new)>(f: Ring<C>, y: seq<C>, bits: nat, s: nat)
    requires |y| == Pow2(bits) && s <= bits && 2 * Pow2(s) <= |y|
    ensures s < bits && Blocks(|y|, Pow2(s))
    ensures Levels(f, -1, y, bits, s + 1) == Stage(f, -1, Levels(f, -1, y, bits, s), Pow2(s))
  {
    StageFits(bits, s);
  }

  lemma RecursiveIsDfts<C(!new)>(f: Ring<C>, x: seq<C>)
    requires IsPow2(|x|)
    ensures IsRing(f) ==> forall k: nat :: k < |x| ==> FftRecursive(f, -1, x)[k] == Dft(f, -1, x, k)
  {
    if IsRing(f) {
      forall k: nat | k < |x|
        ensures FftRecursive(f, -1, x)[k] == Dft(f, -1, x, k)
      {
        RecursiveIsDft(f, -1, x, k);
      }
    }
  }

  /** Another stage fits exactly when the width is within the length. */
  lemma StageFits(bits: nat, s: nat)
    requires s <= bits && 2 * Pow2(s) <= Pow2(bits)
    ensures s < bits && Blocks(Pow2(bits), Pow2(s))
  {
    if s < bits {
      BlocksOfPow2(bits, s);
    }
  }

  lemma StagesDone(bits: nat, s: nat, width: nat)
    requires s <= bits
    requires (width == 2 * Pow2(s) && width > Pow2(bits)) || (s > 0 && width == Pow2(s) == Pow2(bits))
    ensures s == bits
  {
    if s < bits {
      Pow2Monotone(s + 1, bits);
    }
  }
}
