/** Attention weights of one query row over the reals, and the running state that computes them. */
module Softmax {
  import opened Wrappers
  import opened RealSums

  /** One key as a query row sees it: its score, its dropout multiplier, its value and key vectors. */
  datatype Token = Token(allowed: bool, score: real, keep: real, value: seq<real>, key: seq<real>)

  function Coord(v: seq<real>, d: nat): real {
    if d < |v| then v[d] else 0.0
  }

  ghost predicate ExpAt(a: real, b: real) {
    true
  }

  /** What the kernels rely on of the exponential. */
  ghost predicate IsExp(exp: real -> real) {
    && exp(0.0) == 1.0
    && forall a, b {:trigger ExpAt(a, b)} :: ExpAt(a, b) ==> exp(a) > 0.0 && exp(a + b) == exp(a) * exp(b)
  }

  lemma ExpAdd(exp: real -> real, a: real, b: real)
    requires IsExp(exp)
    ensures exp(a) > 0.0 && exp(a + b) == exp(a) * exp(b)
  {
    assert ExpAt(a, b);
  }

  // ----- the sums -----

  /** The weight of a token relative to the reference score `m`. */
  ghost function Weight(exp: real -> real, m: real): Token -> real {
    (t: Token) => if t.allowed then exp(t.score - m) else 0.0
  }

  ghost function Share(exp: real -> real, m: real, d: nat): Token -> real {
    (t: Token) => if t.allowed then exp(t.score - m) * (t.keep * Coord(t.value, d)) else 0.0
  }

  /** The largest allowed score. */
  ghost function Peak(ts: seq<Token>): Option<real>
    decreases |ts|, 1
  {
    if ts == [] then None else PeakThen(ts[..|ts| - 1], ts[|ts| - 1])
  }

  ghost function PeakThen(ts: seq<Token>, t: Token): Option<real>
    decreases |ts| + 1, 0
  {
    if t.allowed then Larger(Peak(ts), Some(t.score)) else Peak(ts)
  }

  function Larger(a: Option<real>, b: Option<real>): Option<real> {
    if a.None? then b else if b.None? then a else if a.value >= b.value then a else b
  }

  lemma PeakAppend(ts: seq<Token>, t: Token)
    ensures Peak(ts + [t]) == if t.allowed then Larger(Peak(ts), Some(t.score)) else Peak(ts)
  {
    assert Peak(ts + [t]) == PeakThen((ts + [t])[..|ts|], t);
    assert (ts + [t])[..|ts|] == ts;
  }

  lemma {:induction false} PeakConcat(a: seq<Token>, b: seq<Token>)
    ensures Peak(a + b) == Larger(Peak(a), Peak(b))
    decreases |b|
  {
    if b == [] {
      assert a + b == a;
    } else {
      var c, t := b[..|b| - 1], b[|b| - 1];
      assert b == c + [t];
      PeakAppend(c, t);
      PeakConcat(a, c);
      assert a + b == (a + c) + [t];
      PeakAppend(a + c, t);
    }
  }

  /** The peak is attained by an allowed token and no allowed token exceeds it. */
  lemma {:induction false} PeakIsMaximum(ts: seq<Token>)
    ensures Peak(ts).None? <==> forall t :: t in ts ==> !t.allowed
    ensures Peak(ts).Some? ==> exists t :: t in ts && t.allowed && t.score == Peak(ts).value
    ensures Peak(ts).Some? ==> forall t :: t in ts && t.allowed ==> t.score <= Peak(ts).value
    decreases |ts|
  {
    if ts != [] {
      var r, t := ts[..|ts| - 1], ts[|ts| - 1];
      PeakIsMaximum(r);
      assert ts == r + [t];
      PeakAppend(r, t);
      assert t in ts;
      forall u
        ensures u in ts <==> u in r || u == t
      {
      }
    }
  }

  /** Without an allowed token both sums vanish; with one the weights add up to something positive. */
  lemma {:induction false} WeightSign(exp: real -> real, m: real, ts: seq<Token>)
    requires IsExp(exp)
    ensures Peak(ts).None? ==> Total(Weight(exp, m), ts) == 0.0
    ensures Peak(ts).Some? ==> Total(Weight(exp, m), ts) > 0.0
    ensures Total(Weight(exp, m), ts) >= 0.0
    decreases |ts|
  {
    if ts != [] {
      var r, t := ts[..|ts| - 1], ts[|ts| - 1];
      WeightSign(exp, m, r);
      assert ts == r + [t];
      TotalAppend(Weight(exp, m), r, t);
      PeakAppend(r, t);
      ExpAdd(exp, t.score - m, 0.0);
    }
  }

  lemma ShareVanishes(exp: real -> real, m: real, d: nat, ts: seq<Token>)
    requires Peak(ts).None?
    ensures Total(Share(exp, m, d), ts) == 0.0
  {
    PeakIsMaximum(ts);
    TotalZero(Share(exp, m, d), ts);
  }

  lemma ExpShift(exp: real -> real, s: real, m: real, n: real)
    requires IsExp(exp)
    ensures exp(s - n) == exp(m - n) * exp(s - m)
  {
    ExpAdd(exp, m - n, s - m);
    assert m - n + (s - m) == s - n;
  }

  /** Changing the reference score multiplies both sums by the same factor. */
  lemma WeightShift(exp: real -> real, m: real, n: real, ts: seq<Token>)
    requires IsExp(exp)
    ensures Total(Weight(exp, n), ts) == exp(m - n) * Total(Weight(exp, m), ts)
  {
    forall t | t in ts
      ensures Weight(exp, n)(t) == exp(m - n) * Weight(exp, m)(t)
    {
      ExpShift(exp, t.score, m, n);
    }
    TotalScaled(Weight(exp, m), Weight(exp, n), exp(m - n), ts);
  }

  lemma Regroup(a: real, b: real, c: real)
    ensures a * b * c == a * (b * c)
  {
  }

  lemma ShareShift(exp: real -> real, m: real, n: real, d: nat, ts: seq<Token>)
    requires IsExp(exp)
    ensures Total(Share(exp, n, d), ts) == exp(m - n) * Total(Share(exp, m, d), ts)
  {
    forall t | t in ts
      ensures Share(exp, n, d)(t) == exp(m - n) * Share(exp, m, d)(t)
    {
      ExpShift(exp, t.score, m, n);
      Regroup(exp(m - n), exp(t.score - m), t.keep * Coord(t.value, d));
    }
    TotalScaled(Share(exp, m, d), Share(exp, n, d), exp(m - n), ts);
  }

  // ----- the result -----

  /** The attention output: the weighted average by plain exponentials, zero when nothing is allowed. */
  ghost function Attention(exp: real -> real, ts: seq<Token>, d: nat): real {
    var den := Total(Weight(exp, 0.0), ts);
    if den == 0.0 then 0.0 else Total(Share(exp, 0.0, d), ts) / den
  }

  /** The average does not depend on the order of the keys. */
  lemma AttentionPermuted(exp: real -> real, a: seq<Token>, b: seq<Token>, d: nat)
    requires multiset(a) == multiset(b)
    ensures Attention(exp, a, d) == Attention(exp, b, d)
  {
    TotalPermuted(Weight(exp, 0.0), a, b);
    TotalPermuted(Share(exp, 0.0, d), a, b);
  }

  lemma QuotientScaled(f: real, a: real, b: real)
    requires f > 0.0 && b > 0.0
    ensures f * b != 0.0 && (f * a) / (f * b) == a / b
  {
    assert f * b > 0.0;
    var q := a / b;
    assert a == q * b;
    assert f * a == q * (f * b);
  }

  /** The reference score cancels in the quotient. */
  lemma AttentionAt(exp: real -> real, m: real, ts: seq<Token>, d: nat)
    requires IsExp(exp)
    ensures var den := Total(Weight(exp, m), ts);
      Attention(exp, ts, d) == if den == 0.0 then 0.0 else Total(Share(exp, m, d), ts) / den
  {
    WeightSign(exp, 0.0, ts);
    WeightSign(exp, m, ts);
    if Peak(ts).Some? {
      WeightShift(exp, 0.0, m, ts);
      ShareShift(exp, 0.0, m, d, ts);
      ExpAdd(exp, 0.0 - m, 0.0);
      QuotientScaled(exp(0.0 - m), Total(Share(exp, 0.0, d), ts), Total(Weight(exp, 0.0), ts));
    }
  }

  // ----- the running state -----

  datatype State = State(max: real, den: real, acc: seq<real>)

  /** The state summarises the tokens: both sums relative to the largest allowed score. */
  ghost predicate Summarises(exp: real -> real, ts: seq<Token>, s: State) {
    && s.den == Total(Weight(exp, s.max), ts)
    && (forall d: nat :: d < |s.acc| ==> s.acc[d] == Total(Share(exp, s.max, d), ts))
    && (Peak(ts).Some? ==> s.max == Peak(ts).value)
  }

  /** The empty state: no token seen. */
  lemma NothingSeen(exp: real -> real, m: real, width: nat, acc: seq<real>)
    requires |acc| == width && forall d :: 0 <= d < width ==> acc[d] == 0.0
    ensures Summarises(exp, [], State(m, 0.0, acc))
  {
  }

  lemma DenominatorTells(exp: real -> real, ts: seq<Token>, s: State)
    requires IsExp(exp) && Summarises(exp, ts, s)
    ensures s.den >= 0.0 && (s.den != 0.0 <==> Peak(ts).Some?)
  {
    WeightSign(exp, s.max, ts);
  }

  /** The score the state is relative to after a further token. */
  function NextMax(s: State, score: real): real {
    if s.den != 0.0 && s.max >= score then s.max else score
  }

  function OldScale(exp: real -> real, s: State, score: real): real {
    if s.den != 0.0 then exp(s.max - NextMax(s, score)) else 0.0
  }

  lemma Rescaled(exp: real -> real, ts: seq<Token>, s: State, score: real, d: nat)
    requires IsExp(exp) && Summarises(exp, ts, s)
    ensures Total(Weight(exp, NextMax(s, score)), ts) == OldScale(exp, s, score) * s.den
    ensures d < |s.acc| ==>
      Total(Share(exp, NextMax(s, score), d), ts) == OldScale(exp, s, score) * s.acc[d]
  {
    var n := NextMax(s, score);
    DenominatorTells(exp, ts, s);
    if s.den != 0.0 {
      WeightShift(exp, s.max, n, ts);
      ShareShift(exp, s.max, n, d, ts);
    } else {
      WeightSign(exp, n, ts);
      ShareVanishes(exp, n, d, ts);
    }
  }

  /** One step of the online softmax. */
  lemma StepSummarises(exp: real -> real, ts: seq<Token>, s: State, t: Token, r: State)
    requires IsExp(exp) && Summarises(exp, ts, s) && t.allowed && |r.acc| == |s.acc|
    requires r.max == NextMax(s, t.score)
    requires r.den == OldScale(exp, s, t.score) * s.den + exp(t.score - r.max)
    requires forall d: nat :: d < |s.acc| ==>
      r.acc[d] == OldScale(exp, s, t.score) * s.acc[d] + exp(t.score - r.max) * (t.keep * Coord(t.value, d))
    ensures Summarises(exp, ts + [t], r)
  {
    DenominatorTells(exp, ts, s);
    PeakAppend(ts, t);
    TotalAppend(Weight(exp, r.max), ts, t);
    Rescaled(exp, ts, s, t.score, 0);
    forall d: nat | d < |s.acc|
      ensures r.acc[d] == Total(Share(exp, r.max, d), ts + [t])
    {
      Rescaled(exp, ts, s, t.score, d);
      TotalAppend(Share(exp, r.max, d), ts, t);
    }
  }

  lemma SkipSummarises(exp: real -> real, ts: seq<Token>, s: State, t: Token)
    requires Summarises(exp, ts, s) && !t.allowed
    ensures Summarises(exp, ts + [t], s)
  {
    PeakAppend(ts, t);
    TotalAppend(Weight(exp, s.max), ts, t);
    forall d: nat | d < |s.acc|
      ensures s.acc[d] == Total(Share(exp, s.max, d), ts + [t])
    {
      TotalAppend(Share(exp, s.max, d), ts, t);
    }
  }

  /** Dividing the accumulator by the denominator gives the output. */
  lemma Normalised(exp: real -> real, ts: seq<Token>, s: State, d: nat)
    requires IsExp(exp) && Summarises(exp, ts, s) && d < |s.acc|
    ensures Attention(exp, ts, d) == if s.den == 0.0 then 0.0 else s.acc[d] / s.den
    ensures s.den == 0.0 ==> s.acc[d] == 0.0
  {
    AttentionAt(exp, s.max, ts, d);
    DenominatorTells(exp, ts, s);
    if s.den == 0.0 {
      ShareVanishes(exp, s.max, d, ts);
    }
  }
}
