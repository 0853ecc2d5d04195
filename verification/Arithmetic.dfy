/** Division with remainder and powers of two, where the solver needs a hand. */
module Arithmetic {

  lemma MulAtLeast(c: int, n: nat)
    ensures c >= 1 ==> c * n >= n
    ensures c <= -1 ==> c * n + n <= 0
  {
    if c >= 1 {
      assert (c - 1) * n >= 0;
    } else if c <= -1 {
      assert (-c - 1) * n >= 0;
    }
  }

  lemma QuotientUnique(q: int, r: int, p: int, s: int, n: nat)
    requires 0 <= r < n && 0 <= s < n && q * n + r == p * n + s
    ensures q == p && r == s
  {
    MulAtLeast(q - p, n);
    assert (q - p) * n == q * n - p * n;
  }

  /** Division with remainder has one answer. */
  lemma DivModUnique(x: int, q: int, r: int, n: nat)
    requires 0 <= r < n && x == q * n + r
    ensures x / n == q && x % n == r
  {
    QuotientUnique(q, r, x / n, x % n, n);
  }

  lemma DivMod(x: int, n: nat)
    requires n > 0
    ensures x == x / n * n + x % n && 0 <= x % n < n
    ensures x >= 0 ==> x / n >= 0
  {
  }

  lemma ModSmall(x: nat, n: nat)
    requires x < n
    ensures x / n == 0 && x % n == x && n % n == 0
  {
    DivModUnique(x, 0, x, n);
    DivModUnique(n, 1, 0, n);
  }

  lemma ModShift(x: int, q: int, n: nat)
    requires n > 0
    ensures (x + q * n) % n == x % n && (x + q * n) / n == x / n + q
  {
    assert (x / n + q) * n == (x / n) * n + q * n;
    DivModUnique(x + q * n, x / n + q, x % n, n);
  }

  lemma ModWhole(x: int, m: int, n: nat)
    requires n > 0 && m % n == 0
    ensures (x + m) % n == x % n
  {
    ModShift(x, m / n, n);
  }

  lemma MulMonotone(a: nat, b: nat, c: nat)
    requires a <= b
    ensures a * c <= b * c
  {
    assert (b - a) * c >= 0;
  }

  /** `div_ceil`. */
  function CeilDiv(n: nat, b: nat): nat
    requires b > 0
  {
    (n + b - 1) / b
  }

  lemma CeilDivBounds(n: nat, b: nat)
    requires b > 0
    ensures n <= CeilDiv(n, b) * b < n + b
  {
    DivMod(n + b - 1, b);
  }

  lemma CeilDivMonotone(m: nat, n: nat, b: nat)
    requires b > 0 && m <= n
    ensures CeilDiv(m, b) <= CeilDiv(n, b)
  {
    CeilDivBounds(m, b);
    CeilDivBounds(n, b);
    var c, d := CeilDiv(m, b), CeilDiv(n, b);
    MulAtLeast(c - d, b);
    assert (c - d) * b == c * b - d * b;
  }

  lemma CeilDivAtMost(n: nat, b: nat, count: nat)
    requires b > 0 && n <= count * b
    ensures CeilDiv(n, b) <= count
  {
    CeilDivBounds(n, b);
    var c := CeilDiv(n, b) - count;
    MulAtLeast(c, b);
    assert c * b == CeilDiv(n, b) * b - count * b;
  }

  /** The numbers below `n`. */
  function Below(n: nat): (s: set<nat>)
    ensures |s| == n && forall p: nat :: p in s <==> p < n
  {
    if n == 0 then {} else Below(n - 1) + {n - 1}
  }

  lemma SubsetSize<T>(a: set<T>, b: set<T>)
    requires a <= b
    ensures |a| <= |b|
  {
    assert b == a + (b - a);
  }

  function Pow2(n: nat): (r: nat)
    ensures r > 0
  {
    if n == 0 then 1 else 2 * Pow2(n - 1)
  }

  lemma {:induction false} Pow2Add(a: nat, b: nat)
    ensures Pow2(a + b) == Pow2(a) * Pow2(b)
  {
    if b > 0 {
      Pow2Add(a, b - 1);
      assert Pow2(a + b) == 2 * Pow2(a + (b - 1));
      assert Pow2(a) * (2 * Pow2(b - 1)) == 2 * (Pow2(a) * Pow2(b - 1));
    }
  }

  lemma {:induction false} Pow2Monotone(a: nat, b: nat)
    requires a <= b
    ensures Pow2(a) <= Pow2(b)
  {
    if a < b {
      Pow2Monotone(a, b - 1);
    }
  }

  predicate IsPow2(n: nat) {
    n == 1 || (n > 0 && n % 2 == 0 && IsPow2(n / 2))
  }

  lemma {:induction false} Pow2IsPow2(bits: nat)
    ensures IsPow2(Pow2(bits))
  {
    if bits > 0 {
      Pow2IsPow2(bits - 1);
    }
  }

  /** `trailing_zeros` of a power of two. */
  function Log2(n: nat): (bits: nat)
    requires IsPow2(n)
    ensures Pow2(bits) == n
  {
    if n == 1 then 0 else 1 + Log2(n / 2)
  }

  lemma PositiveProduct(a: real, b: real, m: real)
    requires a > 0.0 && b > 0.0 && m == a * b
    ensures m > 0.0
  {
  }
}
