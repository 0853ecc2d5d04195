/** Gradients of one attention row: the dense two-pass form and the ring's form through the output. */
module AttentionBackward {
  import opened Wrappers
  import opened RealSums
  import opened Softmax

  // ----- the softmax Jacobian -----

  /** The probability of a token, by plain exponentials. */
  ghost function Prob(exp: real -> real, ts: seq<Token>, t: Token): real {
    var den := Total(Weight(exp, 0.0), ts);
    if t.allowed && den != 0.0 then exp(t.score) / den else 0.0
  }

  ghost function Probs(exp: real -> real, ts: seq<Token>): Token -> real {
    (t: Token) => Prob(exp, ts, t)
  }

  ghost function Dot(a: seq<real>, b: seq<real>, n: nat): real
    requires n <= |a|
  {
    if n == 0 then 0.0 else Dot(a, b, n - 1) + a[n - 1] * Coord(b, n - 1)
  }

  /** The gradient that reaches a token's probability. */
  ghost function Dp(dy: seq<real>, t: Token): real {
    Dot(dy, t.value, |dy|) * t.keep
  }

  ghost function ExpectedTerm(exp: real -> real, ts: seq<Token>, dy: seq<real>): Token -> real {
    (t: Token) => Prob(exp, ts, t) * Dp(dy, t)
  }

  /** The dense kernel's first pass: the expectation of the incoming gradient. */
  ghost function Expected(exp: real -> real, ts: seq<Token>, dy: seq<real>): real {
    Total(ExpectedTerm(exp, ts, dy), ts)
  }

  /** The gradient of a token's score. */
  ghost function Ds(exp: real -> real, ts: seq<Token>, dy: seq<real>, t: Token): real {
    Prob(exp, ts, t) * (Dp(dy, t) - Expected(exp, ts, dy))
  }

  ghost function ScoreGradients(exp: real -> real, ts: seq<Token>, dy: seq<real>): Token -> real {
    (t: Token) => Ds(exp, ts, dy, t)
  }

  /** The ring kernel's contraction: incoming gradient times output. */
  ghost function Delta(exp: real -> real, ts: seq<Token>, dy: seq<real>, n: nat): real
    requires n <= |dy|
  {
    if n == 0 then 0.0 else Delta(exp, ts, dy, n - 1) + dy[n - 1] * Attention(exp, ts, n - 1)
  }

  /** One coordinate of the contraction, token by token. */
  ghost function CoordTerm(exp: real -> real, ts: seq<Token>, g: real, d: nat): Token -> real {
    (t: Token) => Prob(exp, ts, t) * (g * Coord(t.value, d) * t.keep)
  }

  ghost function PartTerm(exp: real -> real, ts: seq<Token>, dy: seq<real>, n: nat): Token -> real
    requires n <= |dy|
  {
    (t: Token) => Prob(exp, ts, t) * (Dot(dy, t.value, n) * t.keep)
  }

  lemma CoordScale(e: real, k: real, c: real, g: real, den: real)
    requires den != 0.0
    ensures e / den * (g * c * k) == g / den * (e * (k * c))
  {
    var i := 1.0 / den;
    assert e / den == e * i && g / den == g * i;
    assert e * i * (g * c * k) == g * i * (e * (k * c));
  }

  lemma CoordTotal(exp: real -> real, ts: seq<Token>, g: real, d: nat)
    requires IsExp(exp)
    ensures Total(CoordTerm(exp, ts, g, d), ts) == g * Attention(exp, ts, d)
  {
    var den := Total(Weight(exp, 0.0), ts);
    if den == 0.0 {
      TotalZero(CoordTerm(exp, ts, g, d), ts);
    } else {
      forall t | t in ts
        ensures CoordTerm(exp, ts, g, d)(t) == g / den * Share(exp, 0.0, d)(t)
      {
        if t.allowed {
          assert t.score - 0.0 == t.score;
          CoordScale(exp(t.score), t.keep, Coord(t.value, d), g, den);
        }
      }
      TotalScaled(Share(exp, 0.0, d), CoordTerm(exp, ts, g, d), g / den, ts);
      DivideLate(g, Total(Share(exp, 0.0, d), ts), den);
    }
  }

  lemma DivideLate(g: real, a: real, den: real)
    requires den != 0.0
    ensures g / den * a == g * (a / den)
  {
    var i := 1.0 / den;
    assert g / den == g * i && a / den == a * i;
  }

  lemma {:induction false} DeltaIsTotal(exp: real -> real, ts: seq<Token>, dy: seq<real>, n: nat)
    requires IsExp(exp) && n <= |dy|
    ensures Delta(exp, ts, dy, n) == Total(PartTerm(exp, ts, dy, n), ts)
    decreases n
  {
    if n == 0 {
      TotalZero(PartTerm(exp, ts, dy, 0), ts);
    } else {
      var p: nat := n - 1;
      DeltaIsTotal(exp, ts, dy, p);
      CoordTotal(exp, ts, dy[p], p);
      forall t | t in ts
        ensures PartTerm(exp, ts, dy, n)(t) == PartTerm(exp, ts, dy, p)(t) + CoordTerm(exp, ts, dy[p], p)(t)
      {
        TermSplits(exp, ts, dy, p, t);
      }
      TotalPlus(PartTerm(exp, ts, dy, p), CoordTerm(exp, ts, dy[p], p), PartTerm(exp, ts, dy, n), ts);
    }
  }

  lemma TermSplits(exp: real -> real, ts: seq<Token>, dy: seq<real>, p: nat, t: Token)
    requires p < |dy|
    ensures PartTerm(exp, ts, dy, p + 1)(t) == PartTerm(exp, ts, dy, p)(t) + CoordTerm(exp, ts, dy[p], p)(t)
  {
    assert Dot(dy, t.value, p + 1) == Dot(dy, t.value, p) + dy[p] * Coord(t.value, p);
    SplitProduct(Prob(exp, ts, t), Dot(dy, t.value, p), dy[p] * Coord(t.value, p), t.keep);
  }

  lemma SplitProduct(p: real, a: real, b: real, k: real)
    ensures p * ((a + b) * k) == p * (a * k) + p * (b * k)
  {
  }

  /** The ring's contraction is the dense one, dropout multipliers included. */
  lemma DeltaIsExpected(exp: real -> real, ts: seq<Token>, dy: seq<real>)
    requires IsExp(exp)
    ensures Delta(exp, ts, dy, |dy|) == Expected(exp, ts, dy)
  {
    DeltaIsTotal(exp, ts, dy, |dy|);
    TotalEq(PartTerm(exp, ts, dy, |dy|), ExpectedTerm(exp, ts, dy), ts);
  }

  lemma ProbsAddUp(exp: real -> real, ts: seq<Token>)
    requires IsExp(exp) && Peak(ts).Some?
    ensures Total(Probs(exp, ts), ts) == 1.0
  {
    var den := Total(Weight(exp, 0.0), ts);
    WeightSign(exp, 0.0, ts);
    forall t | t in ts
      ensures Prob(exp, ts, t) == 1.0 / den * Weight(exp, 0.0)(t)
    {
      assert t.score - 0.0 == t.score;
    }
    TotalScaled(Weight(exp, 0.0), Probs(exp, ts), 1.0 / den, ts);
  }

  ghost function Scaled(g: Token -> real, c: real): Token -> real {
    (t: Token) => c * g(t)
  }

  /** Shifting all scores together changes nothing, so the score gradients add up to zero. */
  lemma ScoreGradientsCancel(exp: real -> real, ts: seq<Token>, dy: seq<real>)
    requires IsExp(exp)
    ensures Total(ScoreGradients(exp, ts, dy), ts) == 0.0
  {
    var e := Expected(exp, ts, dy);
    if Peak(ts).None? {
      PeakIsMaximum(ts);
      TotalZero(ScoreGradients(exp, ts, dy), ts);
    } else {
      ProbsAddUp(exp, ts);
      TotalScaled(Probs(exp, ts), Scaled(Probs(exp, ts), -e), -e, ts);
      forall t | t in ts
        ensures Ds(exp, ts, dy, t) == ExpectedTerm(exp, ts, dy)(t) + Scaled(Probs(exp, ts), -e)(t)
      {
        SplitDifference(Prob(exp, ts, t), Dp(dy, t), e);
      }
      TotalPlus(ExpectedTerm(exp, ts, dy), Scaled(Probs(exp, ts), -e), ScoreGradients(exp, ts, dy), ts);
    }
  }

  lemma SplitDifference(p: real, a: real, e: real)
    ensures p * (a - e) == p * a + -e * p
  {
  }

  /** The kernels' probability, relative to the saved maximum. */
  lemma ProbAt(exp: real -> real, ts: seq<Token>, maximum: real, denominator: real, t: Token)
    requires IsExp(exp) && denominator == Total(Weight(exp, maximum), ts)
    ensures denominator != 0.0 <==> Total(Weight(exp, 0.0), ts) != 0.0
    ensures Prob(exp, ts, t) == if t.allowed && denominator != 0.0 then exp(t.score - maximum) / denominator else 0.0
  {
    WeightSign(exp, maximum, ts);
    WeightSign(exp, 0.0, ts);
    if t.allowed && denominator != 0.0 {
      WeightShift(exp, 0.0, maximum, ts);
      ExpShift(exp, t.score, 0.0, maximum);
      assert t.score - 0.0 == t.score;
      ExpAdd(exp, 0.0 - maximum, 0.0);
      QuotientScaled(exp(0.0 - maximum), exp(t.score), Total(Weight(exp, 0.0), ts));
    }
  }

  // ----- what a gradient is -----

  /** The row with the score of one token raised by `h`. */
  function Raised(ts: seq<Token>, i: nat, h: real): seq<Token>
    requires i < |ts|
  {
    ts[i := ts[i].(score := ts[i].score + h)]
  }

  /**
   `g` is the slope of the output against the incoming gradient when the score of token `i` is raised, exactly and for
   every amount: the change is `e^h - 1` times `g`, divided by how much the sum of all weights has grown.
   */
  ghost predicate ScoreSlope(exp: real -> real, ts: seq<Token>, dy: seq<real>, i: nat, g: real)
    requires i < |ts|
  {
    forall h :: SlopeAt(exp, ts, dy, i, g, h)
  }

  ghost predicate SlopeAt(exp: real -> real, ts: seq<Token>, dy: seq<real>, i: nat, g: real, h: real)
    requires i < |ts|
  {
    Sloped(Delta(exp, Raised(ts, i, h), dy, |dy|), Delta(exp, ts, dy, |dy|), exp(h) - 1.0, g,
           Total(Weight(exp, 0.0), ts), Total(Weight(exp, 0.0), Raised(ts, i, h)))
  }

  ghost predicate Sloped(a: real, b: real, c: real, g: real, before: real, after: real) {
    (a - b) * after == c * g * before
  }

  lemma WeightOf(exp: real -> real, t: Token)
    requires t.allowed
    ensures Weight(exp, 0.0)(t) == exp(t.score)
  {
    assert t.score - 0.0 == t.score;
  }

  lemma ShareOf(exp: real -> real, t: Token, d: nat)
    requires t.allowed
    ensures Share(exp, 0.0, d)(t) == exp(t.score) * (t.keep * Coord(t.value, d))
  {
    assert t.score - 0.0 == t.score;
  }

  lemma RaisedTotal(g: Token -> real, ts: seq<Token>, i: nat, h: real)
    requires i < |ts|
    ensures Total(g, Raised(ts, i, h)) == Total(g, ts) - g(ts[i]) + g(Raised(ts, i, h)[i])
  {
    TotalUpdate(g, ts, i, ts[i].(score := ts[i].score + h));
  }

  lemma RaisedExp(exp: real -> real, ts: seq<Token>, i: nat, h: real, w: real, e: real, r: real)
    requires IsExp(exp) && i < |ts| && w == exp(ts[i].score) && e == exp(h) && r == exp(Raised(ts, i, h)[i].score)
    ensures r == w * e
  {
    ExpAdd(exp, ts[i].score, h);
  }

  lemma ExchangedWeight(exp: real -> real, ts: seq<Token>, i: nat, h: real)
    requires i < |ts| && ts[i].allowed
    ensures var g, after := Weight(exp, 0.0), Raised(ts, i, h);
      Total(g, after) == Total(g, ts) - exp(ts[i].score) + exp(after[i].score)
  {
    RaisedTotal(Weight(exp, 0.0), ts, i, h);
    WeightOf(exp, Raised(ts, i, h)[i]);
    WeightOf(exp, ts[i]);
  }

  lemma RaisedWeight(exp: real -> real, ts: seq<Token>, i: nat, h: real, w: real, e: real, r: real)
    requires i < |ts| && ts[i].allowed && w == exp(ts[i].score) && r == exp(Raised(ts, i, h)[i].score) && r == w * e
    ensures Total(Weight(exp, 0.0), Raised(ts, i, h)) == Total(Weight(exp, 0.0), ts) + (e - 1.0) * w
  {
    ExchangedWeight(exp, ts, i, h);
    GrownWeight(Total(Weight(exp, 0.0), ts), w, e, r, Total(Weight(exp, 0.0), Raised(ts, i, h)));
  }

  lemma ExchangedShare(exp: real -> real, ts: seq<Token>, i: nat, h: real, d: nat, u: real, v: real)
    requires i < |ts| && ts[i].allowed
    requires u == exp(ts[i].score) * (ts[i].keep * Coord(ts[i].value, d))
    requires v == exp(Raised(ts, i, h)[i].score) * (ts[i].keep * Coord(ts[i].value, d))
    ensures Total(Share(exp, 0.0, d), Raised(ts, i, h)) == Total(Share(exp, 0.0, d), ts) - u + v
  {
    RaisedTotal(Share(exp, 0.0, d), ts, i, h);
    ShareOf(exp, Raised(ts, i, h)[i], d);
    ShareOf(exp, ts[i], d);
  }

  lemma RaisedShare(exp: real -> real, ts: seq<Token>, i: nat, h: real, d: nat, w: real, e: real, r: real, x: real)
    requires i < |ts| && ts[i].allowed && w == exp(ts[i].score) && r == exp(Raised(ts, i, h)[i].score) && r == w * e
    requires x == ts[i].keep * Coord(ts[i].value, d)
    ensures Total(Share(exp, 0.0, d), Raised(ts, i, h)) == Total(Share(exp, 0.0, d), ts) + (e - 1.0) * (w * x)
  {
    ExchangedShare(exp, ts, i, h, d, w * x, r * x);
    GrownShare(Total(Share(exp, 0.0, d), ts), w, e, r, x, Total(Share(exp, 0.0, d), Raised(ts, i, h)));
  }

  lemma GrownWeight(total: real, w: real, e: real, r: real, after: real)
    requires r == w * e && after == total - w + r
    ensures after == total + (e - 1.0) * w
  {
  }

  lemma GrownShare(total: real, w: real, e: real, r: real, x: real, after: real)
    requires r == w * e && after == total - w * x + r * x
    ensures after == total + (e - 1.0) * (w * x)
  {
    assert r * x == e * (w * x);
  }

  /** How a quotient moves when the same weight is added above, times `x`, and below. */
  lemma QuotientMoves(s: real, den: real, c: real, w: real, x: real, after: real)
    requires den > 0.0 && after > 0.0 && after == den + c * w
    ensures ((s + c * (w * x)) / after - s / den) * after == c * (w * (x - s / den))
  {
    var a, b := s / den, (s + c * (w * x)) / after;
    assert a * den == s && b * after == s + c * (w * x);
    assert (b - a) * after == b * after - a * after;
    MovesBy(a, den, c, w, x, after);
  }

  lemma MovesBy(a: real, den: real, c: real, w: real, x: real, after: real)
    requires after == den + c * w
    ensures a * den + c * (w * x) - a * after == c * (w * (x - a))
  {
    assert a * after == a * den + a * (c * w);
    assert c * (w * (x - a)) == c * (w * x) - a * (c * w);
  }

  lemma RaisedOutput(exp: real -> real, ts: seq<Token>, i: nat, h: real, d: nat, w: real, e: real, r: real, x: real)
    requires IsExp(exp) && i < |ts| && ts[i].allowed
    requires w == exp(ts[i].score) && r == exp(Raised(ts, i, h)[i].score) && r == w * e && x == ts[i].keep * Coord(ts[i].value, d)
    ensures (Attention(exp, Raised(ts, i, h), d) - Attention(exp, ts, d)) * Total(Weight(exp, 0.0), Raised(ts, i, h)) ==
      (e - 1.0) * (w * (x - Attention(exp, ts, d)))
  {
    var after := Raised(ts, i, h);
    SomeWeight(exp, ts, i);
    SomeWeight(exp, after, i);
    RaisedWeight(exp, ts, i, h, w, e, r);
    RaisedShare(exp, ts, i, h, d, w, e, r, x);
    QuotientMoves(Total(Share(exp, 0.0, d), ts), Total(Weight(exp, 0.0), ts), e - 1.0, w, x, Total(Weight(exp, 0.0), after));
  }

  lemma SomeWeight(exp: real -> real, ts: seq<Token>, i: nat)
    requires IsExp(exp) && i < |ts| && ts[i].allowed
    ensures Total(Weight(exp, 0.0), ts) > 0.0
  {
    WeightSign(exp, 0.0, ts);
    PeakIsMaximum(ts);
    assert ts[i] in ts;
  }

  lemma {:induction false} DeltaMoves(exp: real -> real, ts: seq<Token>, dy: seq<real>, i: nat, h: real, n: nat, w: real, e: real, r: real, c: real)
    requires IsExp(exp) && i < |ts| && ts[i].allowed && n <= |dy|
    requires w == exp(ts[i].score) && r == exp(Raised(ts, i, h)[i].score) && r == w * e && c == e - 1.0
    ensures Moved(Delta(exp, Raised(ts, i, h), dy, n), Delta(exp, ts, dy, n), Total(Weight(exp, 0.0), Raised(ts, i, h)), c, w,
                  Dot(dy, ts[i].value, n), ts[i].keep)
    decreases n
  {
    if n > 0 {
      var p: nat, after := n - 1, Raised(ts, i, h);
      DeltaMoves(exp, ts, dy, i, h, p, w, e, r, c);
      OutputMoves(exp, ts, i, h, p, w, e, r, c);
      DeltaStep(exp, ts, dy, p);
      DeltaStep(exp, after, dy, p);
      DotStep(dy, ts[i].value, p);
      OneMoreCoordinate(Delta(exp, after, dy, p), Delta(exp, ts, dy, p), dy[p], Attention(exp, after, p), Attention(exp, ts, p),
                        Total(Weight(exp, 0.0), after), c, w, Dot(dy, ts[i].value, p), Coord(ts[i].value, p), ts[i].keep,
                        Delta(exp, after, dy, n), Delta(exp, ts, dy, n), Dot(dy, ts[i].value, n));
    } else {
      NotYetMoved(Total(Weight(exp, 0.0), Raised(ts, i, h)), c, w, ts[i].keep);
    }
  }

  lemma NotYetMoved(after: real, c: real, w: real, keep: real)
    ensures Moved(0.0, 0.0, after, c, w, 0.0, keep)
  {
  }

  /** The contraction has moved from `b` to `a`, told without division. */
  ghost predicate Moved(a: real, b: real, after: real, c: real, w: real, dot: real, keep: real) {
    (a - b) * after == c * (w * (dot * keep - b))
  }

  lemma OutputMoves(exp: real -> real, ts: seq<Token>, i: nat, h: real, d: nat, w: real, e: real, r: real, c: real)
    requires IsExp(exp) && i < |ts| && ts[i].allowed
    requires w == exp(ts[i].score) && r == exp(Raised(ts, i, h)[i].score) && r == w * e && c == e - 1.0
    ensures Moved(Attention(exp, Raised(ts, i, h), d), Attention(exp, ts, d), Total(Weight(exp, 0.0), Raised(ts, i, h)), c, w,
                  Coord(ts[i].value, d), ts[i].keep)
  {
    RaisedOutput(exp, ts, i, h, d, w, e, r, ts[i].keep * Coord(ts[i].value, d));
  }

  lemma DeltaStep(exp: real -> real, ts: seq<Token>, dy: seq<real>, p: nat)
    requires p < |dy|
    ensures Delta(exp, ts, dy, p + 1) == Delta(exp, ts, dy, p) + dy[p] * Attention(exp, ts, p)
  {
  }

  lemma DotStep(a: seq<real>, b: seq<real>, p: nat)
    requires p < |a|
    ensures Dot(a, b, p + 1) == Dot(a, b, p) + a[p] * Coord(b, p)
  {
  }

  lemma OneMoreCoordinate(a: real, b: real, g: real, x: real, y: real, after: real, c: real, w: real, dot: real, v: real, keep: real, a': real, b': real, dot': real)
    requires a' == a + g * x && b' == b + g * y && dot' == dot + g * v
    requires Moved(a, b, after, c, w, dot, keep) && Moved(x, y, after, c, w, v, keep)
    ensures Moved(a', b', after, c, w, dot', keep)
  {
    assert (a' - b') * after == (a - b) * after + g * ((x - y) * after);
    assert dot' * keep - b' == (dot * keep - b) + g * (v * keep - y);
    Distributes(c, w, dot * keep - b, g, v * keep - y);
  }

  lemma Distributes(c: real, w: real, m: real, g: real, n: real)
    ensures c * (w * (m + g * n)) == c * (w * m) + g * (c * (w * n))
  {
    assert w * (m + g * n) == w * m + g * (w * n);
  }

  /** The score gradient is the slope. */
  lemma DsIsSlope(exp: real -> real, ts: seq<Token>, dy: seq<real>, i: nat)
    requires IsExp(exp) && i < |ts|
    ensures ScoreSlope(exp, ts, dy, i, Ds(exp, ts, dy, ts[i]))
  {
    forall h
      ensures SlopeAt(exp, ts, dy, i, Ds(exp, ts, dy, ts[i]), h)
    {
      if ts[i].allowed {
        var w, e, r := exp(ts[i].score), exp(h), exp(Raised(ts, i, h)[i].score);
        SomeWeight(exp, ts, i);
        RaisedExp(exp, ts, i, h, w, e, r);
        DeltaMoves(exp, ts, dy, i, h, |dy|, w, e, r, e - 1.0);
        DeltaIsExpected(exp, ts, dy);
        SlopeOfShare(exp, ts, dy, i, h, w, e - 1.0);
      } else {
        NothingMoves(exp, ts, dy, i, h);
      }
    }
  }

  lemma SlopeOfShare(exp: real -> real, ts: seq<Token>, dy: seq<real>, i: nat, h: real, w: real, c: real)
    requires i < |ts| && ts[i].allowed && w == exp(ts[i].score) && c == exp(h) - 1.0 && Total(Weight(exp, 0.0), ts) > 0.0
    requires Delta(exp, ts, dy, |dy|) == Expected(exp, ts, dy)
    requires Moved(Delta(exp, Raised(ts, i, h), dy, |dy|), Delta(exp, ts, dy, |dy|), Total(Weight(exp, 0.0), Raised(ts, i, h)), c, w,
                   Dot(dy, ts[i].value, |dy|), ts[i].keep)
    ensures SlopeAt(exp, ts, dy, i, Ds(exp, ts, dy, ts[i]), h)
  {
    var den, p, dot, delta := Total(Weight(exp, 0.0), ts), Prob(exp, ts, ts[i]), Dot(dy, ts[i].value, |dy|), Delta(exp, ts, dy, |dy|);
    DsParts(exp, ts, dy, ts[i], dot, delta);
    Rearranged(Delta(exp, Raised(ts, i, h), dy, |dy|), delta, Total(Weight(exp, 0.0), Raised(ts, i, h)), c, w, dot, ts[i].keep, den, p,
               Ds(exp, ts, dy, ts[i]));
  }

  /** The score gradient is the token's probability times its distance from the expectation. */
  ghost predicate GradientOf(p: real, den: real, w: real, dot: real, keep: real, b: real, g: real) {
    p * den == w && g == p * (dot * keep - b)
  }

  lemma DsParts(exp: real -> real, ts: seq<Token>, dy: seq<real>, t: Token, dot: real, delta: real)
    requires t.allowed && Total(Weight(exp, 0.0), ts) > 0.0 && dot == Dot(dy, t.value, |dy|) && delta == Expected(exp, ts, dy)
    ensures GradientOf(Prob(exp, ts, t), Total(Weight(exp, 0.0), ts), exp(t.score), dot, t.keep, delta, Ds(exp, ts, dy, t))
  {
  }

  lemma Rearranged(a: real, b: real, after: real, c: real, w: real, dot: real, keep: real, den: real, p: real, g: real)
    requires Moved(a, b, after, c, w, dot, keep) && GradientOf(p, den, w, dot, keep, b, g)
    ensures Sloped(a, b, c, g, den, after)
  {
    var m := dot * keep - b;
    assert c * (p * m) * den == c * ((p * den) * m);
  }

  ghost predicate GrewBy(before: real, after: real, c: real, p: real) {
    before > 0.0 && after > 0.0 && after == before * (1.0 + c * p)
  }

  ghost predicate IsRatio(a: real, b: real, c: real, g: real, p: real) {
    1.0 + c * p > 0.0 && a - b == c * g / (1.0 + c * p)
  }

  lemma WeightsGrow(exp: real -> real, ts: seq<Token>, i: nat, h: real, c: real, before: real, after: real, p: real)
    requires IsExp(exp) && i < |ts| && ts[i].allowed && c == exp(h) - 1.0 && p == Prob(exp, ts, ts[i])
    requires before == Total(Weight(exp, 0.0), ts) && after == Total(Weight(exp, 0.0), Raised(ts, i, h))
    ensures GrewBy(before, after, c, p)
  {
    var w, e, r := exp(ts[i].score), exp(h), exp(Raised(ts, i, h)[i].score);
    SomeWeight(exp, ts, i);
    SomeWeight(exp, Raised(ts, i, h), i);
    RaisedExp(exp, ts, i, h, w, e, r);
    ExchangedWeight(exp, ts, i, h);
    GrownBy(before, w, e, r, c, after);
    ShareOfWeight(exp, ts, ts[i], before, w, p);
    WeightShare(before, c, w, p, after);
  }

  lemma GrownBy(total: real, w: real, e: real, r: real, c: real, after: real)
    requires r == w * e && after == total - w + r && c == e - 1.0
    ensures after == total + c * w
  {
    GrownWeight(total, w, e, r, after);
  }

  lemma ShareOfWeight(exp: real -> real, ts: seq<Token>, t: Token, before: real, w: real, p: real)
    requires t.allowed && before == Total(Weight(exp, 0.0), ts) && before > 0.0 && w == exp(t.score) && p == Prob(exp, ts, t)
    ensures p == w / before
  {
  }

  lemma WeightShare(before: real, c: real, w: real, p: real, after: real)
    requires before > 0.0 && after > 0.0 && p == w / before && after == before + c * w
    ensures GrewBy(before, after, c, p)
  {
    assert p * before == w;
    assert before * (1.0 + c * p) == before + c * (p * before);
  }

  /** The same as a quotient: the slope over how much the token's own weight makes the sum grow. */
  lemma SlopeRatio(exp: real -> real, ts: seq<Token>, dy: seq<real>, i: nat, g: real, h: real)
    requires IsExp(exp) && i < |ts| && ts[i].allowed && SlopeAt(exp, ts, dy, i, g, h)
    ensures IsRatio(Delta(exp, Raised(ts, i, h), dy, |dy|), Delta(exp, ts, dy, |dy|), exp(h) - 1.0, g, Prob(exp, ts, ts[i]))
  {
    var c, p := exp(h) - 1.0, Prob(exp, ts, ts[i]);
    var before, after := Total(Weight(exp, 0.0), ts), Total(Weight(exp, 0.0), Raised(ts, i, h));
    WeightsGrow(exp, ts, i, h, c, before, after, p);
    Ratio(Delta(exp, Raised(ts, i, h), dy, |dy|), Delta(exp, ts, dy, |dy|), c, g, before, after, p);
  }

  lemma Ratio(a: real, b: real, c: real, g: real, before: real, after: real, p: real)
    requires Sloped(a, b, c, g, before, after) && GrewBy(before, after, c, p)
    ensures IsRatio(a, b, c, g, p)
  {
    var q := 1.0 + c * p;
    Positive(q, before, after);
    Divided((a - b) * q, c * g, before);
    assert ((a - b) * q) * before == (a - b) * after;
    Quotient(a - b, c * g, q);
  }

  lemma Positive(q: real, before: real, after: real)
    requires before > 0.0 && after > 0.0 && after == before * q
    ensures q > 0.0
  {
    assert q == after / before;
  }

  lemma Divided(x: real, y: real, d: real)
    requires d > 0.0
    ensures x * d == y * d ==> x == y
  {
    assert x * d - y * d == (x - y) * d;
  }

  lemma Quotient(x: real, y: real, q: real)
    requires q > 0.0
    ensures x * q == y ==> x == y / q
  {
  }

  lemma {:induction false} SameDelta(exp: real -> real, a: seq<Token>, b: seq<Token>, dy: seq<real>, n: nat)
    requires n <= |dy| && forall d: nat :: Attention(exp, a, d) == Attention(exp, b, d)
    ensures Delta(exp, a, dy, n) == Delta(exp, b, dy, n)
    decreases n
  {
    if n > 0 {
      SameDelta(exp, a, b, dy, n - 1);
    }
  }

  lemma NothingMoves(exp: real -> real, ts: seq<Token>, dy: seq<real>, i: nat, h: real)
    requires i < |ts| && !ts[i].allowed
    ensures SlopeAt(exp, ts, dy, i, Ds(exp, ts, dy, ts[i]), h)
  {
    var t := ts[i].(score := ts[i].score + h);
    TotalUpdate(Weight(exp, 0.0), ts, i, t);
    forall d: nat
      ensures Attention(exp, Raised(ts, i, h), d) == Attention(exp, ts, d)
    {
      TotalUpdate(Share(exp, 0.0, d), ts, i, t);
    }
    SameDelta(exp, Raised(ts, i, h), ts, dy, |dy|);
  }

  /** What the scores do when the query moves by `v`. */
  ghost function ChangeTerm(exp: real -> real, ts: seq<Token>, dy: seq<real>, scale: real, v: seq<real>, n: nat): Token -> real
    requires n <= |v|
  {
    (t: Token) => Ds(exp, ts, dy, t) * (scale * Dot(v, t.key, n))
  }

  /** The query gradient along any direction is the score gradients times the changes of the scores. */
  ghost predicate QuerySlope(exp: real -> real, ts: seq<Token>, dy: seq<real>, scale: real, q: seq<real>) {
    forall v: seq<real> :: |v| == |q| ==> Dot(v, q, |v|) == Total(ChangeTerm(exp, ts, dy, scale, v, |v|), ts)
  }

  lemma {:induction false} QueryAlong(exp: real -> real, ts: seq<Token>, dy: seq<real>, scale: real, q: seq<real>, v: seq<real>, n: nat)
    requires n <= |v| == |q| && forall d: nat :: d < |q| ==> q[d] == Total(QueryTerm(exp, ts, dy, scale, d), ts)
    ensures Dot(v, q, n) == Total(ChangeTerm(exp, ts, dy, scale, v, n), ts)
    decreases n
  {
    if n == 0 {
      forall t | t in ts
        ensures ChangeTerm(exp, ts, dy, scale, v, 0)(t) == 0.0
      {
        assert scale * 0.0 == 0.0;
      }
      TotalZero(ChangeTerm(exp, ts, dy, scale, v, 0), ts);
    } else {
      var p: nat := n - 1;
      QueryAlong(exp, ts, dy, scale, q, v, p);
      DotStep(v, q, p);
      OneMoreDirection(exp, ts, dy, scale, v, p);
    }
  }

  lemma OneMoreDirection(exp: real -> real, ts: seq<Token>, dy: seq<real>, scale: real, v: seq<real>, p: nat)
    requires p < |v|
    ensures Total(ChangeTerm(exp, ts, dy, scale, v, p + 1), ts) ==
      Total(ChangeTerm(exp, ts, dy, scale, v, p), ts) + v[p] * Total(QueryTerm(exp, ts, dy, scale, p), ts)
  {
    var g := QueryTerm(exp, ts, dy, scale, p);
    TotalScaled(g, Scaled(g, v[p]), v[p], ts);
    forall t | t in ts
      ensures ChangeTerm(exp, ts, dy, scale, v, p + 1)(t) == ChangeTerm(exp, ts, dy, scale, v, p)(t) + Scaled(g, v[p])(t)
    {
      DotStep(v, t.key, p);
      AlongSplits(Ds(exp, ts, dy, t), scale, Dot(v, t.key, p), v[p], Coord(t.key, p));
    }
    TotalPlus(ChangeTerm(exp, ts, dy, scale, v, p), Scaled(g, v[p]), ChangeTerm(exp, ts, dy, scale, v, p + 1), ts);
  }

  lemma AlongSplits(s: real, scale: real, dot: real, v: real, k: real)
    ensures s * (scale * (dot + v * k)) == s * (scale * dot) + v * (s * scale * k)
  {
  }

  lemma QueryIsSlope(exp: real -> real, ts: seq<Token>, dy: seq<real>, scale: real, q: seq<real>)
    requires forall d: nat :: d < |q| ==> q[d] == Total(QueryTerm(exp, ts, dy, scale, d), ts)
    ensures QuerySlope(exp, ts, dy, scale, q)
  {
    forall v: seq<real> | |v| == |q|
      ensures Dot(v, q, |v|) == Total(ChangeTerm(exp, ts, dy, scale, v, |v|), ts)
    {
      QueryAlong(exp, ts, dy, scale, q, v, |v|);
    }
  }

  // ----- the kernels -----

  ghost function QueryTerm(exp: real -> real, ts: seq<Token>, dy: seq<real>, scale: real, d: nat): Token -> real {
    (t: Token) => Ds(exp, ts, dy, t) * scale * Coord(t.key, d)
  }

  method DotOf(a: seq<real>, b: seq<real>) returns (r: real)
    ensures r == Dot(a, b, |a|)
  {
    r := 0.0;
    for j := 0 to |a|
      invariant r == Dot(a, b, j)
    {
      r := a[j] * Coord(b, j) + r;
    }
  }

  method AddKey(dq: array<real>, c: real, key: seq<real>)
    modifies dq
    ensures forall d: nat :: d < dq.Length ==> dq[d] == old(dq[d]) + c * Coord(key, d)
  {
    for j := 0 to dq.Length
      invariant forall d: nat :: d < j ==> dq[d] == old(dq[d]) + c * Coord(key, d)
      invariant forall d: nat :: j <= d < dq.Length ==> dq[d] == old(dq[d])
    {
      dq[j] := c * Coord(key, j) + dq[j];
    }
  }

  /** The query gradient holds `base` and the terms of the tokens done. */
  ghost predicate Gathered(q: seq<real>, base: seq<real>, exp: real -> real, ts: seq<Token>, dy: seq<real>, scale: real, done: seq<Token>) {
    && |q| == |base|
    && forall d: nat :: d < |q| ==> q[d] == base[d] + Total(QueryTerm(exp, ts, dy, scale, d), done)
  }

  lemma GatherNext(q: seq<real>, r: seq<real>, base: seq<real>, exp: real -> real, ts: seq<Token>, dy: seq<real>, scale: real, done: seq<Token>, t: Token, c: real)
    requires Gathered(q, base, exp, ts, dy, scale, done) && c == Ds(exp, ts, dy, t) * scale
    requires |r| == |q| && forall d: nat :: d < |q| ==> r[d] == q[d] + c * Coord(t.key, d)
    ensures Gathered(r, base, exp, ts, dy, scale, done + [t])
  {
    forall d: nat | d < |q|
      ensures r[d] == base[d] + Total(QueryTerm(exp, ts, dy, scale, d), done + [t])
    {
      TotalAppend(QueryTerm(exp, ts, dy, scale, d), done, t);
    }
  }

  /** Adds one token's term to the query gradient. */
  method Gather(dq: array<real>, s: real, scale: real, t: Token, ghost base: seq<real>, ghost exp: real -> real, ghost ts: seq<Token>, ghost dy: seq<real>, ghost done: seq<Token>)
    requires s == Ds(exp, ts, dy, t) && Gathered(dq[..], base, exp, ts, dy, scale, done)
    modifies dq
    ensures Gathered(dq[..], base, exp, ts, dy, scale, done + [t])
  {
    ghost var before := dq[..];
    AddKey(dq, s * scale, t.key);
    GatherNext(before, dq[..], base, exp, ts, dy, scale, done, t, s * scale);
  }

  /** A token whose score gradient is zero adds nothing. */
  lemma GatherNothing(q: seq<real>, base: seq<real>, exp: real -> real, ts: seq<Token>, dy: seq<real>, scale: real, done: seq<Token>, t: Token)
    requires Gathered(q, base, exp, ts, dy, scale, done) && Ds(exp, ts, dy, t) == 0.0
    ensures Gathered(q, base, exp, ts, dy, scale, done + [t])
  {
    assert 0.0 * scale == 0.0;
    GatherNext(q, q, base, exp, ts, dy, scale, done, t, 0.0);
  }

  /** A token's score gradient from the saved statistics and the expectation, however it was found. */
  method ScoreGradient(exp: real -> real, ghost ts: seq<Token>, dy: seq<real>, maximum: real, denominator: real, expected: real, t: Token)
    returns (s: real)
    requires IsExp(exp) && denominator == Total(Weight(exp, maximum), ts) && expected == Expected(exp, ts, dy)
    ensures s == Ds(exp, ts, dy, t)
    ensures denominator == 0.0 || !t.allowed ==> s == 0.0
  {
    var p, dp := Probability(exp, ts, dy, maximum, denominator, t);
    ProbAt(exp, ts, maximum, denominator, t);
    s := p * (dp - expected);
  }

  /** `dense_attention::backward` for one row: the first pass finds the expectation, the second the gradients. */
  method DenseBackward(exp: real -> real, ts: seq<Token>, dy: seq<real>, maximum: real, denominator: real, scale: real, width: nat)
    returns (dq: array<real>, ds: seq<real>)
    requires IsExp(exp) && denominator == Total(Weight(exp, maximum), ts)
    ensures fresh(dq) && dq.Length == width && |ds| == |ts|
    ensures forall i: nat :: i < |ts| ==> ds[i] == Ds(exp, ts, dy, ts[i]) && ScoreSlope(exp, ts, dy, i, ds[i])
    ensures forall d: nat :: d < width ==> dq[d] == Total(QueryTerm(exp, ts, dy, scale, d), ts)
    ensures QuerySlope(exp, ts, dy, scale, dq[..])
  {
    var expected := FirstPass(exp, ts, dy, maximum, denominator);
    dq := new real[width](_ => 0.0);
    ds := [];
    ghost var base := dq[..];
    for i := 0 to |ts|
      invariant |ds| == i && forall j: nat :: j < i ==> ds[j] == Ds(exp, ts, dy, ts[j])
      invariant Gathered(dq[..], base, exp, ts, dy, scale, ts[..i])
    {
      var s := ScoreGradient(exp, ts, dy, maximum, denominator, expected, ts[i]);
      Gather(dq, s, scale, ts[i], base, exp, ts, dy, ts[..i]);
      assert ts[..i + 1] == ts[..i] + [ts[i]];
      ds := ds + [s];
    }
    assert ts[..|ts|] == ts;
    forall i: nat | i < |ts|
      ensures ScoreSlope(exp, ts, dy, i, ds[i])
    {
      DsIsSlope(exp, ts, dy, i);
    }
    QueryIsSlope(exp, ts, dy, scale, dq[..]);
  }

  method Probability(exp: real -> real, ghost ts: seq<Token>, dy: seq<real>, maximum: real, denominator: real, t: Token)
    returns (p: real, dp: real)
    requires IsExp(exp) && denominator == Total(Weight(exp, maximum), ts)
    ensures p == Prob(exp, ts, t) && dp == Dp(dy, t)
  {
    ProbAt(exp, ts, maximum, denominator, t);
    p := 0.0;
    if t.allowed && denominator != 0.0 {
      p := exp(t.score - maximum) / denominator;
    }
    var dot := DotOf(dy, t.value);
    dp := dot * t.keep;
  }

  method FirstPass(exp: real -> real, ts: seq<Token>, dy: seq<real>, maximum: real, denominator: real) returns (expected: real)
    requires IsExp(exp) && denominator == Total(Weight(exp, maximum), ts)
    ensures expected == Expected(exp, ts, dy)
  {
    expected := 0.0;
    for i := 0 to |ts|
      invariant expected == Total(ExpectedTerm(exp, ts, dy), ts[..i])
    {
      var p, dp := Probability(exp, ts, dy, maximum, denominator, ts[i]);
      TotalAppend(ExpectedTerm(exp, ts, dy), ts[..i], ts[i]);
      assert ts[..i + 1] == ts[..i] + [ts[i]];
      expected := expected + p * dp;
    }
    assert ts[..|ts|] == ts;
  }

  /** The ring's contraction of the incoming gradient with the saved output. */
  method OutputDelta(exp: real -> real, ghost ts: seq<Token>, dy: seq<real>, output: seq<real>) returns (delta: real)
    requires IsExp(exp) && |output| == |dy| && forall d: nat :: d < |dy| ==> output[d] == Attention(exp, ts, d)
    ensures delta == Expected(exp, ts, dy)
  {
    delta := 0.0;
    for d := 0 to |dy|
      invariant delta == Delta(exp, ts, dy, d)
    {
      delta := dy[d] * output[d] + delta;
    }
    DeltaIsExpected(exp, ts, dy);
  }

  /** `ring_attention::backward` on one block: the block's terms are added to the query gradient. */
  method RingBackward(exp: real -> real, block: seq<Token>, dy: seq<real>, output: seq<real>, maximum: real, denominator: real, scale: real, dq: array<real>, ghost ts: seq<Token>)
    returns (ds: seq<real>)
    requires IsExp(exp) && denominator == Total(Weight(exp, maximum), ts)
    requires |output| == |dy| && forall d: nat :: d < |dy| ==> output[d] == Attention(exp, ts, d)
    modifies dq
    ensures |ds| == |block| && forall i: nat :: i < |block| ==> ds[i] == Ds(exp, ts, dy, block[i])
    ensures forall i: nat, j: nat :: i < |block| && j < |ts| && block[i] == ts[j] ==> ScoreSlope(exp, ts, dy, j, ds[i])
    ensures Gathered(dq[..], old(dq[..]), exp, ts, dy, scale, block)
  {
    var delta := OutputDelta(exp, ts, dy, output);
    ghost var base := dq[..];
    ds := [];
    for i := 0 to |block|
      invariant |ds| == i && forall j: nat :: j < i ==> ds[j] == Ds(exp, ts, dy, block[j])
      invariant Gathered(dq[..], base, exp, ts, dy, scale, block[..i])
    {
      var s := ScoreGradient(exp, ts, dy, maximum, denominator, delta, block[i]);
      if denominator != 0.0 && block[i].allowed {
        Gather(dq, s, scale, block[i], base, exp, ts, dy, block[..i]);
      } else {
        GatherNothing(dq[..], base, exp, ts, dy, scale, block[..i], block[i]);
      }
      assert block[..i + 1] == block[..i] + [block[i]];
      ds := ds + [s];
    }
    assert block[..|block|] == block;
    forall i: nat, j: nat | i < |block| && j < |ts| && block[i] == ts[j]
      ensures ScoreSlope(exp, ts, dy, j, ds[i])
    {
      DsIsSlope(exp, ts, dy, j);
    }
  }

  lemma GatherBlock(q: seq<real>, r: seq<real>, exp: real -> real, ts: seq<Token>, dy: seq<real>, scale: real, done: seq<Token>, block: seq<Token>, base: seq<real>)
    requires Gathered(q, base, exp, ts, dy, scale, done) && Gathered(r, q, exp, ts, dy, scale, block)
    ensures Gathered(r, base, exp, ts, dy, scale, done + block)
  {
    forall d: nat | d < |q|
      ensures r[d] == base[d] + Total(QueryTerm(exp, ts, dy, scale, d), done + block)
    {
      TotalConcat(QueryTerm(exp, ts, dy, scale, d), done, block);
    }
  }

  /** Over any partition of the keys into blocks, in any order, the query gradient is the dense one. */
  method RingGradient(exp: real -> real, blocks: seq<seq<Token>>, dy: seq<real>, output: seq<real>, maximum: real, denominator: real, scale: real, width: nat, ghost ts: seq<Token>)
    returns (dq: array<real>)
    requires IsExp(exp) && denominator == Total(Weight(exp, maximum), ts) && multiset(Concat(blocks)) == multiset(ts)
    requires |output| == |dy| && forall d: nat :: d < |dy| ==> output[d] == Attention(exp, ts, d)
    ensures fresh(dq) && dq.Length == width
    ensures forall d: nat :: d < width ==> dq[d] == Total(QueryTerm(exp, ts, dy, scale, d), ts)
    ensures QuerySlope(exp, ts, dy, scale, dq[..])
  {
    dq := new real[width](_ => 0.0);
    ghost var base := dq[..];
    for i := 0 to |blocks|
      invariant Gathered(dq[..], base, exp, ts, dy, scale, Concat(blocks[..i]))
    {
      ghost var before := dq[..];
      var _ := RingBackward(exp, blocks[i], dy, output, maximum, denominator, scale, dq, ts);
      GatherBlock(before, dq[..], exp, ts, dy, scale, Concat(blocks[..i]), blocks[i], base);
      assert blocks[..i + 1] == blocks[..i] + [blocks[i]];
      ConcatAppend(blocks[..i], blocks[i]);
    }
    assert blocks[..|blocks|] == blocks;
    forall d: nat | d < width
      ensures dq[d] == Total(QueryTerm(exp, ts, dy, scale, d), ts)
    {
      TotalPermuted(QueryTerm(exp, ts, dy, scale, d), Concat(blocks), ts);
    }
    QueryIsSlope(exp, ts, dy, scale, dq[..]);
  }
}
