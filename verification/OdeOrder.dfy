/** What makes the integration method one of fifth order: its weights, quadrature of quartics, and the linear equation. */
module OdeOrder {
  import opened Wrappers
  import opened Events
  import opened EventLog
  import opened Ode

  // ----- the order conditions -----

  type Vector = v: seq<real> | |v| == 7 witness [0.0, 0.0, 0.0, 0.0, 0.0, 0.0, 0.0]

  function Times(a: Vector, b: Vector): Vector {
    [a[0] * b[0], a[1] * b[1], a[2] * b[2], a[3] * b[3], a[4] * b[4], a[5] * b[5], a[6] * b[6]]
  }

  /** The rows of the tableau applied to a vector. */
  function Through(v: Vector): Vector {
    [0.0,
     A[1][0] * v[0],
     A[2][0] * v[0] + A[2][1] * v[1],
     A[3][0] * v[0] + A[3][1] * v[1] + A[3][2] * v[2],
     A[4][0] * v[0] + A[4][1] * v[1] + A[4][2] * v[2] + A[4][3] * v[3],
     A[5][0] * v[0] + A[5][1] * v[1] + A[5][2] * v[2] + A[5][3] * v[3] + A[5][4] * v[4],
     High(v)]
  }

  /** The weights of the result. */
  function High(v: Vector): real {
    A[6][0] * v[0] + A[6][1] * v[1] + A[6][2] * v[2] + A[6][3] * v[3] + A[6][4] * v[4] + A[6][5] * v[5]
  }

  /** The weights of the embedded result, for the error estimate. */
  function Low(v: Vector): real {
    B4[0] * v[0] + B4[1] * v[1] + B4[2] * v[2] + B4[3] * v[3] + B4[4] * v[4] + B4[5] * v[5] + B4[6] * v[6]
  }

  const Ones: Vector := [1.0, 1.0, 1.0, 1.0, 1.0, 1.0, 1.0]
  const Squares: Vector := [0.0, 1.0 / 25.0, 9.0 / 100.0, 16.0 / 25.0, 64.0 / 81.0, 1.0, 1.0]
  const Cubes: Vector := [0.0, 1.0 / 125.0, 27.0 / 1000.0, 64.0 / 125.0, 512.0 / 729.0, 1.0, 1.0]
  const Fourths: Vector := [0.0, 1.0 / 625.0, 81.0 / 10000.0, 256.0 / 625.0, 4096.0 / 6561.0, 1.0, 1.0]
  const Ac: Vector := [0.0, 0.0, 9.0 / 200.0, 8.0 / 25.0, 32.0 / 81.0, 1.0 / 2.0, 1.0 / 2.0]
  const Ac2: Vector := [0.0, 0.0, 9.0 / 1000.0, 64.0 / 375.0, 512.0 / 2187.0, 1.0 / 3.0, 1.0 / 3.0]
  const AAc: Vector := [0.0, 0.0, 0.0, 4.0 / 25.0, 424.0 / 1215.0, 21.0 / 55.0, 1.0 / 6.0]

  lemma NodePowers()
    ensures |C| == 7 && Times(C, C) == Squares && Times(Squares, C) == Cubes && Times(Cubes, C) == Fourths
  {
  }

  lemma ThroughNodes()
    ensures Through(Ones) == C && Through(C) == Ac
  {
  }

  lemma ThroughMore()
    ensures Through(Squares) == Ac2 && Through(Ac) == AAc
  {
  }

  /** Both sets of weights meet the conditions through order four. */
  lemma OrderFour()
    ensures |C| == 7
    ensures High(Ones) == 1.0 == Low(Ones) && High(C) == 1.0 / 2.0 == Low(C)
    ensures High(Times(C, C)) == 1.0 / 3.0 == Low(Times(C, C)) && High(Through(C)) == 1.0 / 6.0 == Low(Through(C))
    ensures High(Times(Times(C, C), C)) == 1.0 / 4.0 == Low(Times(Times(C, C), C))
    ensures High(Times(C, Through(C))) == 1.0 / 8.0 == Low(Times(C, Through(C)))
    ensures High(Through(Times(C, C))) == 1.0 / 12.0 == Low(Through(Times(C, C)))
    ensures High(Through(Through(C))) == 1.0 / 24.0 == Low(Through(Through(C)))
  {
    NodePowers();
    ThroughNodes();
    ThroughMore();
    assert Times(C, Ac) == [0.0, 0.0, 27.0 / 2000.0, 32.0 / 125.0, 256.0 / 729.0, 1.0 / 2.0, 1.0 / 2.0];
  }

  /** The result's weights meet the nine further conditions of order five. */
  lemma OrderFive()
    ensures |C| == 7 && High(Times(Times(C, C), Times(C, C))) == 1.0 / 5.0
    ensures High(Times(Times(C, C), Through(C))) == 1.0 / 10.0 && High(Times(C, Through(Times(C, C)))) == 1.0 / 15.0
    ensures High(Times(C, Through(Through(C)))) == 1.0 / 30.0 && High(Times(Through(C), Through(C))) == 1.0 / 20.0
    ensures High(Through(Times(Times(C, C), C))) == 1.0 / 20.0 && High(Through(Times(C, Through(C)))) == 1.0 / 40.0
    ensures High(Through(Through(Times(C, C)))) == 1.0 / 60.0 && High(Through(Through(Through(C)))) == 1.0 / 120.0
  {
    NodePowers();
    ThroughNodes();
    ThroughMore();
  }

  // ----- quartics are integrated exactly -----

  function Poly(q: seq<real>, x: real): real
    requires |q| == 5
  {
    q[0] + q[1] * x + q[2] * (x * x) + q[3] * (x * x * x) + q[4] * (x * x * x * x)
  }

  /** The antiderivative that vanishes at zero. */
  function Primitive(q: seq<real>, x: real): real
    requires |q| == 5
  {
    q[0] * x + q[1] / 2.0 * (x * x) + q[2] / 3.0 * (x * x * x) + q[3] / 4.0 * (x * x * x * x) + q[4] / 5.0 * (x * x * x * x * x)
  }

  /** The derivative depends on time alone, as a polynomial of degree four. */
  ghost predicate IsQuartic(f: Derivative, n: nat, q: seq<real>) {
    |q| == 5 && forall t, y {:trigger f(t, y)} :: |y| == n ==> |f(t, y)| == n && forall i: nat :: i < n ==> f(t, y)[i] == Poly(q, t)
  }

  lemma Unrolled(row: seq<real>, k: seq<seq<real>>, i: nat)
    requires |row| >= 6 && |k| >= 6 && forall l :: 0 <= l < |k| ==> i < |k[l]|
    ensures WeightedSum(row, k, i, 6) ==
      row[0] * k[0][i] + row[1] * k[1][i] + row[2] * k[2][i] + row[3] * k[3][i] + row[4] * k[4][i] + row[5] * k[5][i]
  {
    assert WeightedSum(row, k, i, 1) == row[0] * k[0][i];
    assert WeightedSum(row, k, i, 2) == WeightedSum(row, k, i, 1) + row[1] * k[1][i];
    assert WeightedSum(row, k, i, 3) == WeightedSum(row, k, i, 2) + row[2] * k[2][i];
    assert WeightedSum(row, k, i, 4) == WeightedSum(row, k, i, 3) + row[3] * k[3][i];
    assert WeightedSum(row, k, i, 5) == WeightedSum(row, k, i, 4) + row[4] * k[4][i];
  }

  /** A value of a polynomial in the node, by its coefficients. */
  ghost predicate NodeHolds(v: real, e: seq<real>, j: nat) {
    |e| == 5 && |C| == 7 && j < 7 && v == e[0] + e[1] * C[j] + e[2] * Squares[j] + e[3] * Cubes[j] + e[4] * Fourths[j]
  }

  ghost predicate InNodes(v: Vector, e: seq<real>) {
    |e| == 5 && forall j: nat :: j < 7 ==> NodeHolds(v[j], e, j)
  }

  /** The weights integrate such a polynomial from zero to one. */
  lemma HighIntegrates(v: Vector, e: seq<real>)
    requires InNodes(v, e)
    ensures |e| == 5 && High(v) == e[0] + e[1] / 2.0 + e[2] / 3.0 + e[3] / 4.0 + e[4] / 5.0
  {
    assert NodeHolds(v[0], e, 0) && NodeHolds(v[1], e, 1) && NodeHolds(v[2], e, 2) && NodeHolds(v[3], e, 3) && NodeHolds(v[4], e, 4) && NodeHolds(v[5], e, 5);
  }

  /** Without the fourth power the embedded weights do so too. */
  lemma LowIntegrates(v: Vector, e: seq<real>)
    requires InNodes(v, e) && e[4] == 0.0
    ensures Low(v) == e[0] + e[1] / 2.0 + e[2] / 3.0 + e[3] / 4.0
  {
    assert NodeHolds(v[0], e, 0) && NodeHolds(v[1], e, 1) && NodeHolds(v[2], e, 2) && NodeHolds(v[3], e, 3) && NodeHolds(v[4], e, 4) && NodeHolds(v[5], e, 5) && NodeHolds(v[6], e, 6);
  }

  lemma NodeValue(q: seq<real>, x: real, h: real, j: nat)
    requires |q| == 5 && j < 7
    ensures |C| == 7 && NodeHolds(Poly(q, x + h * C[j]), Recentered(q, x, h), j)
  {
    match j
    case 0 => Node0(q, x, h);
    case 1 => Node1(q, x, h);
    case 2 => Node2(q, x, h);
    case 3 => Node3(q, x, h);
    case 4 => Node4(q, x, h);
    case 5 => Node5(q, x, h);
    case _ => Node6(q, x, h);
  }

  lemma Node0(q: seq<real>, x: real, h: real)
    requires |q| == 5
    ensures |C| == 7 && NodeHolds(Poly(q, x + h * C[0]), Recentered(q, x, h), 0)
  {
    Taylor(q[0], q[1], q[2], q[3], q[4], x, h, 0.0);
  }

  lemma Node1(q: seq<real>, x: real, h: real)
    requires |q| == 5
    ensures |C| == 7 && NodeHolds(Poly(q, x + h * C[1]), Recentered(q, x, h), 1)
  {
    Taylor(q[0], q[1], q[2], q[3], q[4], x, h, 1.0 / 5.0);
  }

  lemma Node2(q: seq<real>, x: real, h: real)
    requires |q| == 5
    ensures |C| == 7 && NodeHolds(Poly(q, x + h * C[2]), Recentered(q, x, h), 2)
  {
    Taylor(q[0], q[1], q[2], q[3], q[4], x, h, 3.0 / 10.0);
  }

  lemma Node3(q: seq<real>, x: real, h: real)
    requires |q| == 5
    ensures |C| == 7 && NodeHolds(Poly(q, x + h * C[3]), Recentered(q, x, h), 3)
  {
    Taylor(q[0], q[1], q[2], q[3], q[4], x, h, 4.0 / 5.0);
  }

  lemma Node4(q: seq<real>, x: real, h: real)
    requires |q| == 5
    ensures |C| == 7 && NodeHolds(Poly(q, x + h * C[4]), Recentered(q, x, h), 4)
  {
    Taylor(q[0], q[1], q[2], q[3], q[4], x, h, 8.0 / 9.0);
  }

  lemma Node5(q: seq<real>, x: real, h: real)
    requires |q| == 5
    ensures |C| == 7 && NodeHolds(Poly(q, x + h * C[5]), Recentered(q, x, h), 5)
  {
    Taylor(q[0], q[1], q[2], q[3], q[4], x, h, 1.0);
  }

  lemma Node6(q: seq<real>, x: real, h: real)
    requires |q| == 5
    ensures |C| == 7 && NodeHolds(Poly(q, x + h * C[6]), Recentered(q, x, h), 6)
  {
    Taylor(q[0], q[1], q[2], q[3], q[4], x, h, 1.0);
  }

  /** The coefficients of `Poly(q, x + h * c)` as a polynomial in `c`. */
  function Recentered(q: seq<real>, x: real, h: real): (e: seq<real>)
    requires |q| == 5
    ensures |e| == 5
  {
    [Poly(q, x),
     h * (q[1] + 2.0 * q[2] * x + 3.0 * q[3] * (x * x) + 4.0 * q[4] * (x * x * x)),
     h * h * (q[2] + 3.0 * q[3] * x + 6.0 * q[4] * (x * x)),
     h * h * h * (q[3] + 4.0 * q[4] * x),
     h * h * h * h * q[4]]
  }

  lemma Taylor(a: real, b: real, c: real, d: real, e: real, x: real, h: real, t: real)
    ensures var y := x + h * t;
      a + b * y + c * (y * y) + d * (y * y * y) + e * (y * y * y * y) ==
      (a + b * x + c * (x * x) + d * (x * x * x) + e * (x * x * x * x))
      + h * (b + 2.0 * c * x + 3.0 * d * (x * x) + 4.0 * e * (x * x * x)) * t
      + h * h * (c + 3.0 * d * x + 6.0 * e * (x * x)) * (t * t)
      + h * h * h * (d + 4.0 * e * x) * (t * t * t)
      + h * h * h * h * e * (t * t * t * t)
  {
  }

  /** Integrating from zero to one in `c` is integrating over the step. */
  lemma RecenteredIntegral(q: seq<real>, x: real, h: real)
    requires |q| == 5
    ensures var e := Recentered(q, x, h);
      h * (e[0] + e[1] / 2.0 + e[2] / 3.0 + e[3] / 4.0 + e[4] / 5.0) == Primitive(q, x + h) - Primitive(q, x)
  {
  }

  /** The slopes of one component at the seven stages. */
  function Slopes(k: seq<seq<real>>, i: nat): Vector
    requires |k| == 7 && forall l :: 0 <= l < 7 ==> i < |k[l]|
  {
    [k[0][i], k[1][i], k[2][i], k[3][i], k[4][i], k[5][i], k[6][i]]
  }

  lemma SlopesWeighed(k: seq<seq<real>>, i: nat)
    requires |k| == 7 && forall l :: 0 <= l < 7 ==> i < |k[l]|
    ensures |A| == 7 && |A[6]| == 6 && |B4| == 7
    ensures WeightedSum(A[6], k[..6], i, 6) == High(Slopes(k, i)) == WeightedSum(A[6], k, i, 6)
    ensures WeightedSum(B4, k, i, 7) == Low(Slopes(k, i))
  {
    RowLengths(6);
    Unrolled(A[6], k[..6], i);
    Unrolled(A[6], k, i);
    Unrolled(B4, k, i);
    assert WeightedSum(B4, k, i, 7) == WeightedSum(B4, k, i, 6) + B4[6] * k[6][i];
  }

  lemma NodeTime(time: real, tNext: real, j: nat)
    requires j < 7
    ensures |C| == 7 && StageTime(time, tNext, j) == time + (tNext - time) * C[j]
  {
  }

  lemma SlopeAtNode(f: Derivative, q: seq<real>, time: real, state: seq<real>, tNext: real, k: seq<seq<real>>, i: nat, j: nat)
    requires IsQuartic(f, |state|, q) && |k| == 7 && Stages(f, time, state, tNext, k) && k[0] == f(time, state) && i < |state| && j < 7
    ensures |C| == 7 && k[j][i] == Poly(q, time + (tNext - time) * C[j])
  {
    NodeTime(time, tNext, j);
    if j == 0 {
      assert time + (tNext - time) * C[0] == time;
    } else {
      assert StageAt(f, time, state, tNext, k, j);
    }
  }

  lemma SlopesInNodes(f: Derivative, q: seq<real>, time: real, state: seq<real>, tNext: real, k: seq<seq<real>>, i: nat)
    requires IsQuartic(f, |state|, q) && |k| == 7 && Stages(f, time, state, tNext, k) && k[0] == f(time, state) && i < |state|
    ensures InNodes(Slopes(k, i), Recentered(q, time, tNext - time))
  {
    forall j: nat | j < 7
      ensures NodeHolds(Slopes(k, i)[j], Recentered(q, time, tNext - time), j)
    {
      SlopeAtNode(f, q, time, state, tNext, k, i, j);
      NodeValue(q, time, tNext - time, j);
      assert Slopes(k, i)[j] == k[j][i];
    }
  }

  /** An attempt integrates every quartic exactly. */
  lemma AttemptIntegrates(f: Derivative, q: seq<real>, time: real, state: seq<real>, tNext: real, k: seq<seq<real>>, candidate: seq<real>)
    requires IsQuartic(f, |state|, q) && |k| == 7 && Stages(f, time, state, tNext, k) && k[0] == f(time, state)
    requires |A| == 7 && |A[6]| == 6 && candidate == StageState(state, k[..6], tNext - time, 6)
    ensures forall i: nat :: i < |state| ==> candidate[i] == state[i] + (Primitive(q, tNext) - Primitive(q, time))
  {
    forall i: nat | i < |state|
      ensures candidate[i] == state[i] + (Primitive(q, tNext) - Primitive(q, time))
    {
      SlopesWeighed(k, i);
      SlopesInNodes(f, q, time, state, tNext, k, i);
      StepIntegral(q, time, tNext, Slopes(k, i));
    }
  }

  lemma StepIntegral(q: seq<real>, time: real, tNext: real, v: Vector)
    requires |q| == 5 && InNodes(v, Recentered(q, time, tNext - time))
    ensures (tNext - time) * High(v) == Primitive(q, tNext) - Primitive(q, time)
  {
    HighIntegrates(v, Recentered(q, time, tNext - time));
    RecenteredIntegral(q, time, tNext - time);
    assert time + (tNext - time) == tNext;
  }

  lemma SameIntegral(q: seq<real>, x: real, h: real, v: Vector)
    requires |q| == 5 && q[4] == 0.0 && InNodes(v, Recentered(q, x, h))
    ensures High(v) == Low(v)
  {
    var e := Recentered(q, x, h);
    assert e[4] == 0.0;
    HighIntegrates(v, e);
    LowIntegrates(v, e);
  }

  /** Cubics have no estimated error. */
  lemma CubicsHaveNoError(f: Derivative, q: seq<real>, time: real, state: seq<real>, tNext: real, k: seq<seq<real>>, i: nat)
    requires IsQuartic(f, |state|, q) && q[4] == 0.0 && |k| == 7 && Stages(f, time, state, tNext, k) && k[0] == f(time, state) && i < |state|
    ensures |A| == 7 && |A[6]| == 6 && |B4| == 7 && ErrorAt(k, tNext - time, i) == 0.0
  {
    SlopesInNodes(f, q, time, state, tNext, k, i);
    SameIntegral(q, time, tNext - time, Slopes(k, i));
    NoError(k, tNext - time, i);
  }

  lemma NoError(k: seq<seq<real>>, h: real, i: nat)
    requires |k| == 7 && (forall l :: 0 <= l < 7 ==> i < |k[l]|) && High(Slopes(k, i)) == Low(Slopes(k, i))
    ensures |A| == 7 && |A[6]| == 6 && |B4| == 7 && ErrorAt(k, h, i) == 0.0
  {
    SlopesWeighed(k, i);
    assert h * 0.0 == 0.0;
  }

  // ----- whole runs -----

  ghost predicate IntegralOf(q: seq<real>, from: Sample, to: Sample)
    requires |q| == 5
  {
    && |to.state| == |from.state|
    && forall i: nat :: i < |from.state| ==> to.state[i] == from.state[i] + (Primitive(q, to.time) - Primitive(q, from.time))
  }

  lemma StepIntegrates(f: Derivative, o: Rk45, q: seq<real>, p: Step)
    requires Accurate(f, o, p) && IsQuartic(f, |p.y0|, q)
    ensures IntegralOf(q, Sample(p.t0, p.y0), Sample(p.t1, p.y1))
  {
    var k :| GoodStep(f, o, p.t0, p.y0, p.f0, p.t1, p.y1, k);
    AttemptIntegrates(f, q, p.t0, p.y0, p.t1, k, p.y1);
  }

  /** However many steps a run takes, it integrates every quartic exactly. */
  lemma {:induction false} ChainIntegrates(f: Derivative, o: Rk45, q: seq<real>, forward: bool, start: Sample, steps: seq<Step>)
    requires Chained(forward, start, steps) && (forall j :: 0 <= j < |steps| ==> Accurate(f, o, steps[j])) && IsQuartic(f, |start.state|, q)
    ensures IntegralOf(q, start, Reach(start, steps))
    decreases |steps|
  {
    if steps != [] {
      var last := |steps| - 1;
      var front := steps[..last];
      forall j | 0 <= j < last
        ensures LinkAt(forward, start, front, j)
      {
        assert LinkAt(forward, start, steps, j) && front[..j] == steps[..j];
      }
      ChainIntegrates(f, o, q, forward, start, front);
      assert LinkAt(forward, start, steps, last);
      StepIntegrates(f, o, q, steps[last]);
    }
  }

  /** A finished run on a quartic returns its exact integral at every time it stops between events. */
  lemma RunIntegrates(f: Derivative, o: Rk45, q: seq<real>, forward: bool, start: Sample, steps: seq<Step>, r: Report)
    requires Followed(f, o, forward, start, steps, r) && IsQuartic(f, |start.state|, q) && r.status != Status.Event
    ensures IntegralOf(q, start, Sample(r.time, r.state))
  {
    ChainIntegrates(f, o, q, forward, start, steps);
  }

  // ----- the linear equation -----

  ghost predicate IsLinear(f: Derivative, n: nat, c: real) {
    forall t, y {:trigger f(t, y)} :: |y| == n ==> |f(t, y)| == n && forall i: nat :: i < n ==> f(t, y)[i] == c * y[i]
  }

  /** The exponential's series through the fifth power, and a sixth term of the method's own. */
  function Growth(z: real): real {
    1.0 + z + z * z / 2.0 + z * z * z / 6.0 + z * z * z * z / 24.0 + z * z * z * z * z / 120.0 + z * z * z * z * z * z / 600.0
  }

  ghost predicate Grows(r: real, z: real, y: real) {
    r == Growth(z) * y
  }

  lemma SumIsThrough(k: seq<seq<real>>, i: nat, s: nat)
    requires |k| == 7 && 1 <= s <= 6 && forall l :: 0 <= l < 7 ==> i < |k[l]|
    ensures |A| == 7 && |A[s]| == s && WeightedSum(A[s], k[..s], i, s) == Through(Slopes(k, i))[s]
  {
    RowLengths(s);
    var row, ks := A[s], k[..s];
    assert WeightedSum(row, ks, i, 1) == row[0] * k[0][i];
    assert s >= 2 ==> WeightedSum(row, ks, i, 2) == WeightedSum(row, ks, i, 1) + row[1] * k[1][i];
    assert s >= 3 ==> WeightedSum(row, ks, i, 3) == WeightedSum(row, ks, i, 2) + row[2] * k[2][i];
    assert s >= 4 ==> WeightedSum(row, ks, i, 4) == WeightedSum(row, ks, i, 3) + row[3] * k[3][i];
    assert s >= 5 ==> WeightedSum(row, ks, i, 5) == WeightedSum(row, ks, i, 4) + row[4] * k[4][i];
    assert s >= 6 ==> WeightedSum(row, ks, i, 6) == WeightedSum(row, ks, i, 5) + row[5] * k[5][i];
  }

  function Scaled(h: real, v: Vector): Vector {
    [h * v[0], h * v[1], h * v[2], h * v[3], h * v[4], h * v[5], h * v[6]]
  }

  lemma ThroughScaled(h: real, v: Vector, s: nat)
    requires s < 7
    ensures IsProduct(Through(Scaled(h, v))[s], h, Through(v)[s])
  {
  }

  ghost predicate IsProduct(r: real, z: real, x: real) {
    r == z * x
  }

  lemma StageLinear(f: Derivative, c: real, time: real, state: seq<real>, tNext: real, k: seq<seq<real>>, i: nat, s: nat, x: real)
    requires IsLinear(f, |state|, c) && |k| == 7 && Stages(f, time, state, tNext, k) && i < |state| && 1 <= s <= 6
    requires |A| == 7 && |A[s]| == s && x == StageState(state, k[..s], tNext - time, s)[i]
    ensures IsProduct(k[s][i], c, x)
  {
    assert StageAt(f, time, state, tNext, k, s);
  }

  lemma StageComponent(state: seq<real>, k: seq<seq<real>>, h: real, i: nat, s: nat, sum: real, t: real)
    requires 1 <= s <= 6 && s <= |k| && (forall l :: 0 <= l < |k| ==> |k[l]| == |state|) && i < |state| && |A| == 7 && |A[s]| == s
    requires sum == WeightedSum(A[s], k[..s], i, s) && IsProduct(t, h, sum)
    ensures StageState(state, k[..s], h, s)[i] == state[i] + t
  {
  }

  lemma ProductScaled(r: real, c: real, x: real, h: real, u: real, z: real)
    requires IsProduct(r, c, x) && IsProduct(u, h, r) && z == c * h
    ensures IsProduct(u, z, x)
  {
    assert h * (c * x) == (c * h) * x;
  }

  /** Stage `s` of a linear equation, in multiples of the step. */
  lemma StageProduct(f: Derivative, c: real, time: real, state: seq<real>, tNext: real, k: seq<seq<real>>, i: nat, s: nat, u: real, z: real, t: real)
    requires IsLinear(f, |state|, c) && |k| == 7 && Stages(f, time, state, tNext, k) && i < |state| && 1 <= s <= 6
    requires |A| == 7 && |A[s]| == s && IsProduct(t, tNext - time, WeightedSum(A[s], k[..s], i, s))
    requires IsProduct(u, tNext - time, k[s][i]) && z == c * (tNext - time)
    ensures IsProduct(u, z, state[i] + t)
  {
    var x := state[i] + t;
    StageComponent(state, k, tNext - time, i, s, WeightedSum(A[s], k[..s], i, s), t);
    StageLinear(f, c, time, state, tNext, k, i, s, x);
    ProductScaled(k[s][i], c, x, tNext - time, u, z);
  }

  // Combinations of y, z * y, z * (z * y) and so on, by their coefficients.

  function Combination(m: Vector, a: Vector): real {
    a[0] * m[0] + a[1] * m[1] + a[2] * m[2] + a[3] * m[3] + a[4] * m[4] + a[5] * m[5] + a[6] * m[6]
  }

  ghost predicate MultipleAt(m: Vector, z: real, s: nat)
    requires s < 6
  {
    IsProduct(m[s + 1], z, m[s])
  }

  ghost predicate AreMultiples(m: Vector, z: real) {
    forall s: nat {:trigger MultipleAt(m, z, s)} :: s < 6 ==> MultipleAt(m, z, s)
  }

  /** Multiplying a combination by `z` shifts it. */
  lemma Shifted(m: Vector, z: real, a: Vector, x: real, r: real)
    requires AreMultiples(m, z) && x == Combination(m, a) && a[6] == 0.0 && IsProduct(r, z, x)
    ensures r == Combination(m, [0.0, a[0], a[1], a[2], a[3], a[4], a[5]])
  {
    assert MultipleAt(m, z, 0) && MultipleAt(m, z, 1) && MultipleAt(m, z, 2) && MultipleAt(m, z, 3) && MultipleAt(m, z, 4) && MultipleAt(m, z, 5);
    Termwise(z, m, a);
  }

  lemma Termwise(z: real, m: Vector, a: Vector)
    ensures z * Combination(m, a) ==
      a[0] * (z * m[0]) + a[1] * (z * m[1]) + a[2] * (z * m[2]) + a[3] * (z * m[3]) + a[4] * (z * m[4]) + a[5] * (z * m[5]) + a[6] * (z * m[6])
  {
  }

  /** The arguments of the stages on the linear equation, as series; the last is the result. */
  const Series: seq<Vector> := [
    [1.0, 0.0, 0.0, 0.0, 0.0, 0.0, 0.0],
    [1.0, 1.0 / 5.0, 0.0, 0.0, 0.0, 0.0, 0.0],
    [1.0, 3.0 / 10.0, 9.0 / 200.0, 0.0, 0.0, 0.0, 0.0],
    [1.0, 4.0 / 5.0, 8.0 / 25.0, 4.0 / 25.0, 0.0, 0.0, 0.0],
    [1.0, 8.0 / 9.0, 32.0 / 81.0, 424.0 / 1215.0, -848.0 / 18225.0, 0.0, 0.0],
    [1.0, 1.0, 1.0 / 2.0, 21.0 / 55.0, -14.0 / 275.0, 7.0 / 550.0, 0.0],
    [1.0, 1.0, 1.0 / 2.0, 1.0 / 6.0, 1.0 / 24.0, 1.0 / 120.0, 1.0 / 600.0]
  ]

  function Shift(a: Vector): Vector {
    [0.0, a[0], a[1], a[2], a[3], a[4], a[5]]
  }

  lemma Argument1(u: Vector, m: Vector)
    requires u[0] == Combination(m, Shift(Series[0]))
    ensures m[0] + Through(u)[1] == Combination(m, Series[1])
  {
  }

  lemma Argument2(u: Vector, m: Vector)
    requires u[0] == Combination(m, Shift(Series[0])) && u[1] == Combination(m, Shift(Series[1]))
    ensures m[0] + Through(u)[2] == Combination(m, Series[2])
  {
  }

  lemma Argument3(u: Vector, m: Vector)
    requires u[0] == Combination(m, Shift(Series[0])) && u[1] == Combination(m, Shift(Series[1])) && u[2] == Combination(m, Shift(Series[2]))
    ensures m[0] + Through(u)[3] == Combination(m, Series[3])
  {
  }

  lemma Argument4(u: Vector, m: Vector)
    requires u[0] == Combination(m, Shift(Series[0])) && u[1] == Combination(m, Shift(Series[1])) && u[2] == Combination(m, Shift(Series[2])) && u[3] == Combination(m, Shift(Series[3]))
    ensures m[0] + Through(u)[4] == Combination(m, Series[4])
  {
  }

  lemma Argument5(u: Vector, m: Vector)
    requires u[0] == Combination(m, Shift(Series[0])) && u[1] == Combination(m, Shift(Series[1])) && u[2] == Combination(m, Shift(Series[2])) && u[3] == Combination(m, Shift(Series[3])) && u[4] == Combination(m, Shift(Series[4]))
    ensures m[0] + Through(u)[5] == Combination(m, Series[5])
  {
  }

  lemma Argument6(u: Vector, m: Vector)
    requires u[0] == Combination(m, Shift(Series[0])) && u[1] == Combination(m, Shift(Series[1])) && u[2] == Combination(m, Shift(Series[2])) && u[3] == Combination(m, Shift(Series[3])) && u[4] == Combination(m, Shift(Series[4])) && u[5] == Combination(m, Shift(Series[5]))
    ensures m[0] + Through(u)[6] == Combination(m, Series[6])
  {
  }

  /** Every stage of the linear equation is `z` times its argument. */
  ghost predicate LinearStages(u: Vector, t: Vector, y: real, z: real) {
    forall s: nat {:trigger LinearAt(u, t, y, z, s)} :: s < 6 ==> LinearAt(u, t, y, z, s)
  }

  ghost predicate LinearAt(u: Vector, t: Vector, y: real, z: real, s: nat)
    requires s < 6
  {
    IsProduct(u[s], z, if s == 0 then y else y + t[s])
  }

  lemma StageSeries(u: Vector, m: Vector, z: real, s: nat)
    requires AreMultiples(m, z) && s < 6 && IsProduct(u[s], z, Combination(m, Series[s]))
    ensures u[s] == Combination(m, Shift(Series[s]))
  {
    assert Series[s][6] == 0.0;
    Shifted(m, z, Series[s], Combination(m, Series[s]), u[s]);
  }

  lemma EarlySeries(u: Vector, m: Vector, z: real)
    requires AreMultiples(m, z) && LinearStages(u, Through(u), m[0], z)
    ensures forall j: nat :: j <= 2 ==> u[j] == Combination(m, Shift(Series[j]))
  {
    assert Combination(m, Series[0]) == m[0];
    assert LinearAt(u, Through(u), m[0], z, 0) && LinearAt(u, Through(u), m[0], z, 1) && LinearAt(u, Through(u), m[0], z, 2);
    StageSeries(u, m, z, 0);
    Argument1(u, m);
    StageSeries(u, m, z, 1);
    Argument2(u, m);
    StageSeries(u, m, z, 2);
  }

  lemma LateSeries(u: Vector, m: Vector, z: real)
    requires AreMultiples(m, z) && LinearStages(u, Through(u), m[0], z)
    ensures m[0] + Through(u)[6] == Combination(m, Series[6])
  {
    EarlySeries(u, m, z);
    assert LinearAt(u, Through(u), m[0], z, 3) && LinearAt(u, Through(u), m[0], z, 4) && LinearAt(u, Through(u), m[0], z, 5);
    Argument3(u, m);
    StageSeries(u, m, z, 3);
    Argument4(u, m);
    StageSeries(u, m, z, 4);
    Argument5(u, m);
    StageSeries(u, m, z, 5);
    Argument6(u, m);
  }

  function Powers(y: real, z: real): Vector {
    [y, z * y, z * z * y, z * z * z * y, z * z * z * z * y, z * z * z * z * z * y, z * z * z * z * z * z * y]
  }

  lemma PowersAreMultiples(y: real, z: real)
    ensures AreMultiples(Powers(y, z), z)
  {
    forall s: nat | s < 6
      ensures MultipleAt(Powers(y, z), z, s)
    {
      PowerAt(y, z, s);
    }
  }

  lemma PowerAt(y: real, z: real, s: nat)
    requires s < 6
    ensures MultipleAt(Powers(y, z), z, s)
  {
    if s == 1 {
      OneMorePower(z, z, y);
    } else if s == 2 {
      OneMorePower(z, z * z, y);
    } else if s == 3 {
      OneMorePower(z, z * z * z, y);
    } else if s == 4 {
      OneMorePower(z, z * z * z * z, y);
    } else if s == 5 {
      OneMorePower(z, z * z * z * z * z, y);
    }
  }

  lemma OneMorePower(z: real, p: real, y: real)
    ensures IsProduct(p * z * y, z, p * y)
  {
  }

  lemma GrowthSeries(y: real, z: real)
    ensures Combination(Powers(y, z), Series[6]) == Growth(z) * y
  {
  }

  lemma LinearGrows(u: Vector, y: real, z: real)
    requires LinearStages(u, Through(u), y, z)
    ensures Grows(y + Through(u)[6], z, y)
  {
    PowersAreMultiples(y, z);
    LateSeries(u, Powers(y, z), z);
    GrowthSeries(y, z);
  }

  lemma SumScaled(k: seq<seq<real>>, i: nat, h: real, s: nat)
    requires |k| == 7 && 1 <= s <= 6 && forall l :: 0 <= l < 7 ==> i < |k[l]|
    ensures |A| == 7 && |A[s]| == s && IsProduct(Through(Scaled(h, Slopes(k, i)))[s], h, WeightedSum(A[s], k[..s], i, s))
  {
    SumIsThrough(k, i, s);
    ThroughScaled(h, Slopes(k, i), s);
  }

  lemma ScaledAt(k: seq<seq<real>>, i: nat, h: real, s: nat)
    requires |k| == 7 && s < 7 && forall l :: 0 <= l < 7 ==> i < |k[l]|
    ensures IsProduct(Scaled(h, Slopes(k, i))[s], h, k[s][i])
  {
  }

  /** The slopes `u` and the weighted sums `t` of one component, in multiples of the step. */
  ghost predicate InSteps(k: seq<seq<real>>, i: nat, h: real, u: Vector, t: Vector)
    requires |k| == 7 && forall l :: 0 <= l < 7 ==> i < |k[l]|
  {
    && |A| == 7 && (forall s: nat :: s < 7 ==> IsProduct(u[s], h, k[s][i]))
    && (forall s: nat :: 1 <= s <= 6 ==> |A[s]| == s && IsProduct(t[s], h, WeightedSum(A[s], k[..s], i, s)))
  }

  lemma AllInSteps(k: seq<seq<real>>, i: nat, h: real)
    requires |k| == 7 && forall l :: 0 <= l < 7 ==> i < |k[l]|
    ensures InSteps(k, i, h, Scaled(h, Slopes(k, i)), Through(Scaled(h, Slopes(k, i))))
  {
    RowLengths(6);
    forall s: nat | s < 7
      ensures IsProduct(Scaled(h, Slopes(k, i))[s], h, k[s][i])
    {
      ScaledAt(k, i, h, s);
    }
    forall s: nat | 1 <= s <= 6
      ensures |A[s]| == s && IsProduct(Through(Scaled(h, Slopes(k, i)))[s], h, WeightedSum(A[s], k[..s], i, s))
    {
      SumScaled(k, i, h, s);
    }
  }

  lemma SlopesLinear(f: Derivative, c: real, time: real, state: seq<real>, tNext: real, k: seq<seq<real>>, i: nat, u: Vector, t: Vector)
    requires IsLinear(f, |state|, c) && |k| == 7 && Stages(f, time, state, tNext, k) && k[0] == f(time, state) && i < |state|
    requires InSteps(k, i, tNext - time, u, t)
    ensures LinearStages(u, t, state[i], c * (tNext - time))
    ensures StageState(state, k[..6], tNext - time, 6)[i] == state[i] + t[6]
  {
    forall s: nat | 1 <= s <= 5
      ensures IsProduct(u[s], c * (tNext - time), state[i] + t[s])
    {
      StageProduct(f, c, time, state, tNext, k, i, s, u[s], c * (tNext - time), t[s]);
    }
    ProductScaled(k[0][i], c, state[i], tNext - time, u[0], c * (tNext - time));
    StageComponent(state, k, tNext - time, i, 6, WeightedSum(A[6], k[..6], i, 6), t[6]);
  }

  /** An attempt on the linear equation multiplies every component by the series. */
  lemma AttemptGrows(f: Derivative, c: real, time: real, state: seq<real>, tNext: real, k: seq<seq<real>>, candidate: seq<real>, i: nat)
    requires IsLinear(f, |state|, c) && |k| == 7 && Stages(f, time, state, tNext, k) && k[0] == f(time, state) && i < |state|
    requires |A| == 7 && |A[6]| == 6 && candidate == StageState(state, k[..6], tNext - time, 6)
    ensures Grows(candidate[i], c * (tNext - time), state[i])
  {
    AllInSteps(k, i, tNext - time);
    var u := Scaled(tNext - time, Slopes(k, i));
    SlopesLinear(f, c, time, state, tNext, k, i, u, Through(u));
    LinearGrows(u, state[i], c * (tNext - time));
  }

  /** So does every accepted step. */
  lemma StepGrows(f: Derivative, o: Rk45, c: real, p: Step)
    requires Accurate(f, o, p) && IsLinear(f, |p.y0|, c)
    ensures |p.y1| == |p.y0| && forall i: nat :: i < |p.y0| ==> Grows(p.y1[i], c * (p.t1 - p.t0), p.y0[i])
  {
    var k :| GoodStep(f, o, p.t0, p.y0, p.f0, p.t1, p.y1, k);
    forall i: nat | i < |p.y0|
      ensures Grows(p.y1[i], c * (p.t1 - p.t0), p.y0[i])
    {
      AttemptGrows(f, c, p.t0, p.y0, p.t1, k, p.y1, i);
    }
  }

  // ----- the interpolant between two accepted points -----

  /** On a quadratic right-hand side the interpolant of every accepted step is the exact integral throughout. */
  lemma InterpolantIntegrates(f: Derivative, o: Rk45, q: seq<real>, p: Step, i: nat, s: real)
    requires Accurate(f, o, p) && Shaped(p) && IsQuartic(f, |p.y0|, q) && q[3] == 0.0 && q[4] == 0.0 && i < |p.y0|
    ensures Hermite(p, s)[i] == p.y0[i] + (Primitive(q, TimeAt(p, s)) - Primitive(q, p.t0))
  {
    StepIntegrates(f, o, q, p);
    var a := p.y0[i] - Primitive(q, p.t0);
    var cubic := [a, q[0], q[1] / 2.0, q[2] / 3.0];
    CubicPrimitive(q, a, p.t0);
    CubicPrimitive(q, a, p.t1);
    CubicPrimitive(q, a, TimeAt(p, s));
    HermiteIsCubic(p, i, cubic, s);
  }

  lemma CubicPrimitive(q: seq<real>, a: real, t: real)
    requires |q| == 5 && q[3] == 0.0 && q[4] == 0.0
    ensures var cubic := [a, q[0], q[1] / 2.0, q[2] / 3.0];
      Cubic(cubic, t) == a + Primitive(q, t) && CubicSlope(cubic, t) == Poly(q, t)
  {
  }
}
