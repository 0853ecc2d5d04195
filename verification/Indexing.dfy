/** Overflow-free index scaling. */
module Indexing {
  import opened Arithmetic

  // ----- machine arithmetic: every operation must fit -----

  function Plus(a: nat, b: nat, max: nat): (r: nat)
    requires a + b <= max
  {
    a + b
  }

  function Minus(a: nat, b: nat): (r: nat)
    requires b <= a
  {
    a - b
  }

  function Times(a: nat, b: nat, max: nat): (r: nat)
    requires a * b <= max
  {
    a * b
  }

  // ----- shifts -----

  /** `index >> shift`. */
  function Shifted(index: nat, shift: nat): nat {
    if shift == 0 then index else Shifted(index, shift - 1) / 2
  }

  lemma {:induction false} ShiftedIsQuotient(index: nat, shift: nat)
    ensures Shifted(index, shift) == index / Pow2(shift)
    decreases shift
  {
    if shift > 0 {
      var p := Pow2(shift - 1);
      ShiftedIsQuotient(index, shift - 1);
      HalfOfQuotient(index, p);
    }
  }

  lemma HalfOfQuotient(x: nat, p: nat)
    requires p > 0
    ensures x / p / 2 == x / (2 * p)
  {
    DivMod(x, p);
    var q, r := x / p, x % p;
    DivMod(q, 2);
    assert q * p == 2 * p * (q / 2) + q % 2 * p;
    assert q % 2 * p <= p;
    DivModUnique(x, q / 2, q % 2 * p + r, 2 * p);
  }

  lemma {:induction false} ShiftedOut(index: nat, bits: nat)
    requires index < Pow2(bits)
    ensures Shifted(index, bits) == 0
    decreases bits
  {
    ShiftedIsQuotient(index, bits);
    DivModUnique(index, 0, index, Pow2(bits));
  }

  lemma {:induction false} ShiftedAtMost(index: nat, shift: nat)
    ensures Shifted(index, shift) <= index
    decreases shift
  {
    if shift > 0 {
      ShiftedAtMost(index, shift - 1);
    }
  }

  /** `ilog2`. */
  function ILog2(n: nat): (r: nat)
    requires n > 0
    ensures Pow2(r) <= n < Pow2(r + 1)
  {
    if n == 1 then 0 else 1 + ILog2(n / 2)
  }

  // ----- long division -----

  /** What the loop keeps: the bits taken in so far, times the fraction, divided. */
  ghost predicate Divided(taken: nat, fraction: nat, d: nat, quotient: nat, remainder: nat) {
    remainder < d && quotient * d + remainder == taken * fraction
  }

  lemma QuotientBound(taken: nat, fraction: nat, d: nat, quotient: nat, remainder: nat, index: nat, max: nat)
    requires Divided(taken, fraction, d, quotient, remainder) && taken <= index && index * fraction <= max * d + (d - 1)
    ensures quotient <= max
  {
    assert (index - taken) * fraction >= 0;
    assert index * fraction == taken * fraction + (index - taken) * fraction;
    AtMost(quotient, max, d);
  }

  lemma AtMost(a: nat, b: nat, d: nat)
    requires d > 0 && a * d <= b * d + (d - 1)
    ensures a <= b
  {
    MulAtLeast(a - b, d);
    assert (a - b) * d == a * d - b * d;
  }

  /** Doubling the divided number, without ever holding twice the remainder. */
  method Double(quotient: nat, remainder: nat, d: nat, max: nat, ghost taken: nat, ghost fraction: nat, ghost index: nat)
    returns (q: nat, r: nat)
    requires Divided(taken, fraction, d, quotient, remainder) && d <= max
    requires 2 * taken <= index && index * fraction <= max * d + (d - 1)
    ensures Divided(2 * taken, fraction, d, q, r)
  {
    DoubledIs(taken, fraction, d, quotient, remainder, index, max);
    if remainder >= Minus(d, remainder) {
      r := Minus(remainder, Minus(d, remainder));
      q := Plus(Times(quotient, 2, max), 1, max);
    } else {
      r := Times(remainder, 2, max);
      q := Times(quotient, 2, max);
    }
  }

  lemma DoubledIs(taken: nat, fraction: nat, d: nat, quotient: nat, remainder: nat, index: nat, max: nat)
    requires Divided(taken, fraction, d, quotient, remainder)
    requires 2 * taken <= index && index * fraction <= max * d + (d - 1)
    ensures 2 * remainder < d ==> Divided(2 * taken, fraction, d, 2 * quotient, 2 * remainder) && 2 * quotient <= max
    ensures 2 * remainder >= d ==>
      Divided(2 * taken, fraction, d, 2 * quotient + 1, 2 * remainder - d) && 2 * quotient + 1 <= max
  {
    assert 2 * taken * fraction == 2 * (taken * fraction);
    if 2 * remainder < d {
      assert 2 * quotient * d == 2 * (quotient * d);
      QuotientBound(2 * taken, fraction, d, 2 * quotient, 2 * remainder, index, max);
    } else {
      assert (2 * quotient + 1) * d == 2 * (quotient * d) + d;
      QuotientBound(2 * taken, fraction, d, 2 * quotient + 1, 2 * remainder - d, index, max);
    }
  }

  /** Taking in a one bit. */
  method AddBit(quotient: nat, remainder: nat, fraction: nat, d: nat, max: nat, ghost taken: nat, ghost index: nat)
    returns (q: nat, r: nat)
    requires Divided(taken, fraction, d, quotient, remainder) && fraction < d <= max
    requires taken + 1 <= index && index * fraction <= max * d + (d - 1)
    ensures Divided(taken + 1, fraction, d, q, r)
  {
    AddedIs(taken, fraction, d, quotient, remainder, index, max);
    if remainder >= Minus(d, fraction) {
      r := Minus(remainder, Minus(d, fraction));
      q := Plus(quotient, 1, max);
    } else {
      r := Plus(remainder, fraction, max);
      q := quotient;
    }
  }

  lemma AddedIs(taken: nat, fraction: nat, d: nat, quotient: nat, remainder: nat, index: nat, max: nat)
    requires Divided(taken, fraction, d, quotient, remainder) && fraction < d
    requires taken + 1 <= index && index * fraction <= max * d + (d - 1)
    ensures remainder + fraction < d ==> Divided(taken + 1, fraction, d, quotient, remainder + fraction)
    ensures remainder + fraction >= d ==>
      Divided(taken + 1, fraction, d, quotient + 1, remainder + fraction - d) && quotient + 1 <= max
  {
    assert (taken + 1) * fraction == taken * fraction + fraction;
    assert (quotient + 1) * d == quotient * d + d;
    if remainder + fraction >= d {
      QuotientBound(taken + 1, fraction, d, quotient + 1, remainder + fraction - d, index, max);
    }
  }

  method LongDivision(index: nat, fraction: nat, d: nat, max: nat) returns (quotient: nat, remainder: nat)
    requires 0 < index <= max && fraction < d <= max && index * fraction <= max * d + (d - 1)
    ensures Divided(index, fraction, d, quotient, remainder)
  {
    var bits := ILog2(max) + 1;
    quotient, remainder := 0, 0;
    ShiftedOut(index, bits);
    for bit := 0 to bits
      invariant Divided(Shifted(index, bits - bit), fraction, d, quotient, remainder)
    {
      var shift := bits - bit - 1;
      ghost var taken := Shifted(index, shift + 1);
      ShiftedAtMost(index, shift);
      quotient, remainder := Double(quotient, remainder, d, max, taken, fraction, index);
      if Shifted(index, shift) % 2 != 0 {
        quotient, remainder := AddBit(quotient, remainder, fraction, d, max, 2 * taken, index);
      }
    }
  }

  // ----- the routine -----

  lemma Recombine(index: nat, n: nat, w: nat, fraction: nat, d: nat, quotient: nat, remainder: nat, max: nat)
    requires n == w * d + fraction && Divided(index, fraction, d, quotient, remainder)
    requires d > 0 && index * n <= max * d + (d - 1)
    ensures Divided(index, n, d, index * w + quotient, remainder) && index * w + quotient <= max
  {
    SplitProduct(index, w, d, fraction);
    assert (index * w + quotient) * d == index * w * d + quotient * d;
    AtMost(index * w + quotient, max, d);
  }

  lemma SplitProduct(index: nat, w: nat, d: nat, fraction: nat)
    ensures index * (w * d + fraction) == index * w * d + index * fraction
  {
    assert index * (w * d) == index * w * d;
  }

  lemma PartsFit(index: nat, n: nat, w: nat, fraction: nat, d: nat, max: nat)
    requires d > 0 && n == w * d + fraction && index * n <= max * d + (d - 1)
    ensures index * w <= max && index * fraction <= max * d + (d - 1)
  {
    SplitProduct(index, w, d, fraction);
    assert index * fraction >= 0 && index * w * d >= 0;
    AtMost(index * w, max, d);
  }

  /** Both extents split, the quotient and remainder of the product found. */
  method ScaledDivision(index: nat, ghost n: nat, w: nat, fraction: nat, d: nat, max: nat) returns (quotient: nat, remainder: nat)
    requires index <= max && fraction < d <= max && n == w * d + fraction && index * n <= max * d + (d - 1)
    ensures Divided(index, n, d, quotient, remainder)
  {
    PartsFit(index, n, w, fraction, d, max);
    var whole := Times(index, w, max);
    var q, r := 0, 0;
    if index == 0 || fraction == 0 {
      NothingLeft(index, fraction, d);
    } else {
      q, r := DivideFraction(index, fraction, d, max);
    }
    Recombine(index, n, w, fraction, d, q, r, max);
    quotient, remainder := Plus(whole, q, max), r;
  }

  /**
   `scaled_index_division`: if the exact quotient fits, it and its remainder come out on every path, and
   no intermediate result exceeds `max`.
   */
  method ScaledIndexDivision(index: nat, n: nat, d: nat, max: nat) returns (quotient: nat, remainder: nat)
    requires index <= max && n <= max && 0 < d <= max && index * n / d <= max
    ensures quotient == index * n / d && remainder == index * n % d
  {
    ghost var product := index * n;
    ProductAtMost(product, d, max);
    DivMod(n, d);
    quotient, remainder := ScaledDivision(index, n, n / d, n % d, d, max);
    DivModUnique(product, quotient, remainder, d);
  }

  lemma ProductAtMost(product: nat, d: nat, max: nat)
    requires d > 0 && product / d <= max
    ensures product <= max * d + (d - 1)
  {
    DivMod(product, d);
    var c: nat := max - product / d;
    assert c * d >= 0;
    assert (product / d + c) * d == product / d * d + c * d;
  }

  lemma NothingLeft(index: nat, fraction: nat, d: nat)
    requires d > 0 && (index == 0 || fraction == 0)
    ensures Divided(index, fraction, d, 0, 0)
  {
  }

  /** The two paths with something left: the product if it fits, long division otherwise. */
  method DivideFraction(index: nat, fraction: nat, d: nat, max: nat) returns (quotient: nat, remainder: nat)
    requires 0 < index <= max && fraction < d <= max && index * fraction <= max * d + (d - 1)
    ensures Divided(index, fraction, d, quotient, remainder)
  {
    if fraction <= max / index {
      ProductFits(index, fraction, max);
      var product := Times(index, fraction, max);
      DivMod(product, d);
      quotient, remainder := product / d, product % d;
    } else {
      quotient, remainder := LongDivision(index, fraction, d, max);
    }
  }

  lemma ProductFits(index: nat, fraction: nat, max: nat)
    requires index > 0 && fraction <= max / index
    ensures index * fraction <= max
  {
    DivMod(max, index);
    assert (max / index - fraction) * index >= 0;
    assert max / index * index == fraction * index + (max / index - fraction) * index;
  }
}
