/** Adaptive Dormand-Prince integration, observed by an event tracker. */
module Ode {
  import opened Wrappers
  import opened Arithmetic
  import opened Events
  import opened EventLog

  datatype Rk45 = Rk45(
    absolute: real, relative: real,
    initialStep: Option<real>, minStep: real, maxStep: Option<real>,
    maxSteps: nat, maxEvaluations: nat,
    save: bool, maxOutput: nat)

  datatype Status = ReachedEnd | Event | MaxSteps | MaxEvaluations | StepTooSmall | OutputLimit

  datatype Report = Report(
    time: real, state: seq<real>, accepted: nat, rejected: nat, evaluations: nat, status: Status, samples: seq<Sample>)

  type Derivative = (real, seq<real>) -> seq<real>

  ghost predicate KeepsSize(f: Derivative, n: nat) {
    forall t, y :: |y| == n ==> |f(t, y)| == n
  }

  // ----- the tableau -----

  const C: seq<real> := [0.0, 1.0 / 5.0, 3.0 / 10.0, 4.0 / 5.0, 8.0 / 9.0, 1.0, 1.0]

  const A: seq<seq<real>> := [
    [],
    [1.0 / 5.0],
    [3.0 / 40.0, 9.0 / 40.0],
    [44.0 / 45.0, -56.0 / 15.0, 32.0 / 9.0],
    [19372.0 / 6561.0, -25360.0 / 2187.0, 64448.0 / 6561.0, -212.0 / 729.0],
    [9017.0 / 3168.0, -355.0 / 33.0, 46732.0 / 5247.0, 49.0 / 176.0, -5103.0 / 18656.0],
    [35.0 / 384.0, 0.0, 500.0 / 1113.0, 125.0 / 192.0, -2187.0 / 6784.0, 11.0 / 84.0]
  ]

  const B4: seq<real> := [
    5179.0 / 57600.0, 0.0, 7571.0 / 16695.0, 393.0 / 640.0, -92097.0 / 339200.0, 187.0 / 2100.0, 1.0 / 40.0
  ]

  /** The tableau is consistent: each row adds up to its node, and both weights add up to one. */
  lemma TableauConsistent()
    ensures A[1][0] == C[1] && A[2][0] + A[2][1] == C[2] && A[3][0] + A[3][1] + A[3][2] == C[3]
    ensures A[4][0] + A[4][1] + A[4][2] + A[4][3] == C[4] && A[5][0] + A[5][1] + A[5][2] + A[5][3] + A[5][4] == C[5]
    ensures A[6][0] + A[6][1] + A[6][2] + A[6][3] + A[6][4] + A[6][5] == C[6] == 1.0
    ensures B4[0] + B4[1] + B4[2] + B4[3] + B4[4] + B4[5] + B4[6] == 1.0
  {
  }

  // ----- one attempt -----

  function WeightedSum(row: seq<real>, k: seq<seq<real>>, i: nat, j: nat): real
    requires j <= |row| && j <= |k| && forall l :: 0 <= l < |k| ==> i < |k[l]|
  {
    if j == 0 then 0.0 else WeightedSum(row, k, i, j - 1) + row[j - 1] * k[j - 1][i]
  }

  function StageState(state: seq<real>, k: seq<seq<real>>, h: real, stage: nat): (y: seq<real>)
    requires stage < |A| && stage <= |k| && |A[stage]| == stage && forall l :: 0 <= l < |k| ==> |k[l]| == |state|
    ensures |y| == |state|
  {
    seq(|state|, (i: nat) requires i < |state| => h * WeightedSum(A[stage], k, i, stage) + state[i])
  }

  lemma RowLengths(stage: nat)
    requires 1 <= stage < 7
    ensures |A| == |C| == 7 && |A[stage]| == stage && |B4| == 7
  {
  }

  /** The time of a stage; the last two are at the end of the step. */
  function StageTime(time: real, tNext: real, stage: nat): real
    requires stage < |C|
  {
    if stage >= 5 then tNext else time + (tNext - time) * C[stage]
  }

  /** The slopes follow the tableau. */
  ghost predicate Stages(f: Derivative, time: real, state: seq<real>, tNext: real, k: seq<seq<real>>) {
    && |k| <= 7 && (forall l :: 0 <= l < |k| ==> |k[l]| == |state|)
    && forall s: nat :: 1 <= s < |k| ==> StageAt(f, time, state, tNext, k, s)
  }

  ghost predicate StageAt(f: Derivative, time: real, state: seq<real>, tNext: real, k: seq<seq<real>>, s: nat) {
    && 1 <= s < |k| && s < 7 && |A| == |C| == 7 && |A[s]| == s && (forall l :: 0 <= l < |k| ==> |k[l]| == |state|)
    && k[s] == f(StageTime(time, tNext, s), StageState(state, k[..s], tNext - time, s))
  }

  lemma StageNext(f: Derivative, time: real, state: seq<real>, tNext: real, k: seq<seq<real>>)
    requires Stages(f, time, state, tNext, k) && 1 <= |k| < 7 && |A| == |C| == 7 && |A[|k|]| == |k|
    requires |f(StageTime(time, tNext, |k|), StageState(state, k, tNext - time, |k|))| == |state|
    ensures Stages(f, time, state, tNext, k + [f(StageTime(time, tNext, |k|), StageState(state, k, tNext - time, |k|))])
  {
    var longer := k + [f(StageTime(time, tNext, |k|), StageState(state, k, tNext - time, |k|))];
    forall s: nat | 1 <= s < |longer|
      ensures StageAt(f, time, state, tNext, longer, s)
    {
      if s < |k| {
        assert StageAt(f, time, state, tNext, k, s) && longer[..s] == k[..s];
      } else {
        assert longer[..s] == k;
      }
    }
  }

  /** Six evaluations: the last is the derivative at the candidate itself. */
  method Attempt(f: Derivative, n: nat, time: real, state: seq<real>, first: seq<real>, tNext: real)
    returns (candidate: seq<real>, k: seq<seq<real>>, evaluations: nat)
    requires KeepsSize(f, n) && |state| == |first| == n
    ensures |candidate| == n && |k| == 7 && (forall l :: 0 <= l < 7 ==> |k[l]| == n) && evaluations == 6
    ensures k[0] == first && k[6] == f(tNext, candidate)
    ensures Stages(f, time, state, tNext, k) && |A| == 7 && |A[6]| == 6 && candidate == StageState(state, k[..6], tNext - time, 6)
  {
    var h := tNext - time;
    k, evaluations, candidate := [first], 0, state;
    for stage := 1 to 7
      invariant |k| == stage && k[0] == first && evaluations == stage - 1 && |candidate| == n
      invariant forall l :: 0 <= l < |k| ==> |k[l]| == n
      invariant Stages(f, time, state, tNext, k)
      invariant stage == 7 ==> k[6] == f(tNext, candidate) && |A| == 7 && |A[6]| == 6
      invariant stage == 7 ==> candidate == StageState(state, k[..6], h, 6)
    {
      RowLengths(stage);
      var temp := StageState(state, k, h, stage);
      var at := StageTime(time, tNext, stage);
      StageNext(f, time, state, tNext, k);
      assert (k + [f(at, temp)])[..stage] == k;
      k := k + [f(at, temp)];
      evaluations := evaluations + 1;
      if stage == 6 {
        candidate := temp;
      }
    }
  }

  // ----- error control -----

  function Larger(a: real, b: real): real {
    if a >= b then a else b
  }

  function Smaller(a: real, b: real): real {
    if a <= b then a else b
  }

  /** The embedded error estimate of a component. */
  function ErrorAt(k: seq<seq<real>>, h: real, i: nat): real
    requires |k| == 7 && |A[6]| == 6 && |B4| == 7 && forall l :: 0 <= l < 7 ==> i < |k[l]|
  {
    Abs(h * (WeightedSum(A[6], k, i, 6) - WeightedSum(B4, k, i, 7)))
  }

  function ScaleAt(o: Rk45, state: seq<real>, candidate: seq<real>, i: nat): real
    requires i < |state| && i < |candidate|
  {
    o.absolute + o.relative * Larger(Abs(state[i]), Abs(candidate[i]))
  }

  lemma RatioMeans(error: real, scale: real)
    requires error >= 0.0 && scale > 0.0
    ensures error / scale <= 1.0 <==> error <= scale
  {
    var q := error / scale;
    assert error == q * scale;
    if q <= 1.0 {
      assert (1.0 - q) * scale >= 0.0;
    } else {
      assert (q - 1.0) * scale > 0.0;
    }
  }

  lemma ScaleNonnegative(o: Rk45, state: seq<real>, candidate: seq<real>, i: nat)
    requires o.absolute >= 0.0 && o.relative >= 0.0 && i < |state| && i < |candidate|
    ensures ScaleAt(o, state, candidate, i) >= 0.0
  {
    assert o.relative * Larger(Abs(state[i]), Abs(candidate[i])) >= 0.0;
  }

  /** The largest ratio of error to scale; `None` stands for infinity. */
  method ErrorNorm(o: Rk45, n: nat, state: seq<real>, candidate: seq<real>, k: seq<seq<real>>, h: real) returns (norm: Option<real>)
    requires o.absolute >= 0.0 && o.relative >= 0.0 && |state| == |candidate| == n && |k| == 7
    requires |A[6]| == 6 && |B4| == 7 && forall l :: 0 <= l < 7 ==> |k[l]| == n
    ensures (norm.Some? && norm.value <= 1.0) <==> forall i: nat :: i < n ==> ErrorAt(k, h, i) <= ScaleAt(o, state, candidate, i)
  {
    norm := Some(0.0);
    for i := 0 to n
      invariant norm.Some? ==> norm.value >= 0.0
      invariant (norm.Some? && norm.value <= 1.0) <==> forall j: nat :: j < i ==> ErrorAt(k, h, j) <= ScaleAt(o, state, candidate, j)
    {
      var error, scale := ErrorAt(k, h, i), ScaleAt(o, state, candidate, i);
      ScaleNonnegative(o, state, candidate, i);
      if scale == 0.0 {
        if error != 0.0 {
          norm := None;
        }
      } else {
        RatioMeans(error, scale);
        norm := if norm.Some? then Some(Larger(norm.value, error / scale)) else None;
      }
    }
  }

  // ----- what every loop head keeps -----

  ghost predicate Increasing(forward: bool, samples: seq<Sample>) {
    forall i, j :: 0 <= i < j < |samples| ==> Ahead(forward, samples[i].time) < Ahead(forward, samples[j].time)
  }

  ghost predicate SamplesOk(o: Rk45, forward: bool, start: real, r: Report) {
    if o.save then
      && 1 <= |r.samples| <= o.maxOutput && r.samples[0].time == start && Increasing(forward, r.samples)
      && r.samples[|r.samples| - 1] == Sample(r.time, r.state)
    else r.samples == []
  }

  ghost predicate Counted(o: Rk45, r: Report) {
    r.evaluations == 1 + 6 * (r.accepted + r.rejected) && r.evaluations <= o.maxEvaluations
  }

  ghost predicate Head(f: Derivative, o: Rk45, start: real, end: real, n: nat, r: Report, first: seq<real>) {
    var forward := end > start;
    && |r.state| == n && first == f(r.time, r.state) && Counted(o, r) && SamplesOk(o, forward, start, r)
    && Ahead(forward, start) <= Ahead(forward, r.time) < Ahead(forward, end)
  }

  /** What a returned report promises. */
  ghost predicate Done(o: Rk45, start: real, end: real, r: Report) {
    var forward := end > start;
    && (r.evaluations == r.accepted == r.rejected == 0 || Counted(o, r)) && r.accepted + r.rejected <= o.maxSteps
    && SamplesOk(o, forward, start, r)
    && Ahead(forward, start) <= Ahead(forward, r.time) <= Ahead(forward, end)
    && (r.status == ReachedEnd ==> r.time == end) && Justified(o, r, r.status)
  }

  /** Why a run was given up. */
  ghost predicate Justified(o: Rk45, r: Report, status: Status) {
    match status
    case ReachedEnd => true
    case Event => true
    case MaxSteps => r.accepted + r.rejected == o.maxSteps
    case MaxEvaluations => r.evaluations + 6 > o.maxEvaluations
    case StepTooSmall => o.minStep > 0.0
    case OutputLimit => o.save && |r.samples| == o.maxOutput
  }

  /** A step forward keeps the samples in order. */
  lemma Recorded(o: Rk45, start: real, end: real, r: Report, time: real, state: seq<real>)
    requires o.save && SamplesOk(o, end > start, start, r) && |r.samples| < o.maxOutput
    requires Ahead(end > start, r.time) < Ahead(end > start, time)
    ensures SamplesOk(o, end > start, start, r.(time := time, state := state, samples := r.samples + [Sample(time, state)]))
  {
    var forward, longer := end > start, r.samples + [Sample(time, state)];
    forall i, j | 0 <= i < j < |longer|
      ensures Ahead(forward, longer[i].time) < Ahead(forward, longer[j].time)
    {
      var last := |r.samples| - 1;
      if j == |r.samples| && i < last {
        assert Ahead(forward, r.samples[i].time) < Ahead(forward, r.samples[last].time);
      }
    }
  }

  function Moved(o: Rk45, r: Report, time: real, state: seq<real>, status: Status): Report {
    r.(time := time, state := state, accepted := r.accepted + 1, status := status,
       samples := if o.save then r.samples + [Sample(time, state)] else r.samples)
  }

  // ----- the step size -----

  function Clamp(x: real, low: real, high: real): real
    requires low <= high
  {
    if x < low then low else if x > high then high else x
  }

  function Capped(h: real, most: Option<real>): real {
    if most.Some? then Smaller(h, most.value) else h
  }

  /** The factor is nine tenths of the predicted one, kept between a fifth and `most`. */
  ghost predicate Aims(factor: real, predicted: real, most: real) {
    && 0.2 <= factor <= most
    && (factor > 0.2 ==> factor <= 0.9 * predicted) && (factor < most ==> factor >= 0.9 * predicted)
  }

  /** With the fifth root, the error predicted for the next step is nine tenths to the fifth of the tolerance. */
  lemma AimsBelowTolerance(norm: real, predicted: real, factor: real)
    requires factor == 0.9 * predicted && norm * (predicted * predicted * predicted * predicted * predicted) == 1.0
    ensures norm * (factor * factor * factor * factor * factor) == 0.59049
  {
    var p := predicted * predicted * predicted * predicted * predicted;
    assert factor * factor * factor * factor * factor == 0.59049 * p;
    assert norm * (0.59049 * p) == 0.59049 * (norm * p);
  }

  /** After an accepted step: at most five times longer, and not longer at all after a rejection. */
  method Grown(o: Rk45, h: real, norm: real, power: Option<real> -> real, rejectedBefore: bool) returns (next: real, ghost factor: real)
    requires h > 0.0 && (o.maxStep.Some? ==> o.maxStep.value > 0.0)
    ensures 0.0 < next && next == Capped(h * factor, o.maxStep) && (o.maxStep.Some? ==> next <= o.maxStep.value)
    ensures norm == 0.0 ==> factor == if rejectedBefore then 1.0 else 5.0
    ensures norm != 0.0 ==> Aims(factor, power(Some(norm)), if rejectedBefore then 1.0 else 5.0)
  {
    var scale := if norm == 0.0 then 5.0 else Clamp(0.9 * power(Some(norm)), 0.2, 5.0);
    if rejectedBefore {
      scale := Smaller(scale, 1.0);
    }
    factor := scale;
    GrownPart(h, scale);
    next := Capped(h * scale, o.maxStep);
  }

  lemma GrownPart(h: real, factor: real)
    requires h > 0.0 && factor > 0.0
    ensures 0.0 < h * factor && (factor <= 1.0 ==> h * factor <= h)
  {
    PositiveProduct(h, factor, h * factor);
    if factor < 1.0 {
      ShorterPart(h, factor, h * factor);
    }
  }

  method Shrunk(h: real, norm: Option<real>, power: Option<real> -> real) returns (next: real, ghost factor: real)
    requires h > 0.0
    ensures 0.0 < next < h && next == h * factor && Aims(factor, power(norm), 0.9)
  {
    var scale := Clamp(0.9 * power(norm), 0.2, 0.9);
    factor := scale;
    next := PartOfStep(h, scale);
  }

  method PartOfStep(h: real, factor: real) returns (next: real)
    requires h > 0.0 && 0.0 < factor < 1.0
    ensures 0.0 < next < h && next == h * factor
  {
    next := h * factor;
    ShorterPart(h, factor, next);
  }

  lemma ShorterPart(h: real, x: real, m: real)
    requires h > 0.0 && 0.0 < x < 1.0 && m == h * x
    ensures 0.0 < m < h
  {
    PositiveProduct(h, x, m);
    Complement(h, x, m, h * (1.0 - x));
    PositiveProduct(h, 1.0 - x, h * (1.0 - x));
  }

  lemma Complement(h: real, x: real, m: real, c: real)
    requires m == h * x && c == h * (1.0 - x)
    ensures c == h - m
  {
  }

  // ----- the loop -----

  predicate ValidOptions(o: Rk45) {
    && o.absolute >= 0.0 && o.relative >= 0.0 && !(o.absolute == 0.0 && o.relative == 0.0)
    && o.minStep >= 0.0 && (o.maxStep.Some? ==> o.maxStep.value > 0.0 && o.maxStep.value >= o.minStep)
    && (o.initialStep.Some? ==> o.initialStep.value > 0.0) && o.maxOutput > 0
  }

  /** A step of the method: the slopes follow the tableau and every component's error is within its tolerance. */
  ghost predicate GoodStep(f: Derivative, o: Rk45, time: real, state: seq<real>, first: seq<real>, tNext: real, candidate: seq<real>, k: seq<seq<real>>) {
    && |k| == 7 && k[0] == first && |A| == 7 && |A[6]| == 6 && |B4| == 7 && |candidate| == |state|
    && Stages(f, time, state, tNext, k) && candidate == StageState(state, k[..6], tNext - time, 6)
    && forall i: nat :: i < |state| ==> ErrorAt(k, tNext - time, i) <= ScaleAt(o, state, candidate, i)
  }

  /** An accepted step: the slopes at its ends, and a good attempt between them. */
  ghost predicate Accurate(f: Derivative, o: Rk45, p: Step) {
    && p.f0 == f(p.t0, p.y0) && p.f1 == f(p.t1, p.y1)
    && exists k :: GoodStep(f, o, p.t0, p.y0, p.f0, p.t1, p.y1, k)
  }

  /** The saved samples are the start and the ends of the steps, but for the last, which may be an event. */
  ghost predicate Saved(start: Sample, steps: seq<Step>, samples: seq<Sample>) {
    |samples| == |steps| + 1 && forall j :: 0 <= j < |steps| ==> samples[j] == Reach(start, steps[..j])
  }

  /** The final time lies inside the last step. */
  ghost predicate EndsInside(forward: bool, steps: seq<Step>, time: real) {
    steps != [] && var p := steps[|steps| - 1]; Ahead(forward, p.t0) < Ahead(forward, time) <= Ahead(forward, p.t1)
  }

  /**
   The run is a chain of accurate steps from the start, as many as it counts; it ends where the last one
   ends, or inside it at an event.
   */
  ghost predicate Followed(f: Derivative, o: Rk45, forward: bool, start: Sample, steps: seq<Step>, r: Report) {
    && Chained(forward, start, steps) && |steps| == r.accepted
    && (forall j :: 0 <= j < |steps| ==> Accurate(f, o, steps[j]))
    && (o.save ==> Saved(start, steps, r.samples))
    && (Sample(r.time, r.state) == Reach(start, steps) || (r.status == Status.Event && EndsInside(forward, steps, r.time)))
  }

  lemma SavedNext(start: Sample, steps: seq<Step>, p: Step, samples: seq<Sample>, sample: Sample)
    requires Saved(start, steps, samples) && samples[|steps|] == Reach(start, steps)
    ensures Saved(start, steps + [p], samples + [sample])
  {
    var longer := steps + [p];
    forall j | 0 <= j < |longer|
      ensures (samples + [sample])[j] == Reach(start, longer[..j])
    {
      assert longer[..j] == steps[..j];
      assert steps[..|steps|] == steps;
    }
  }

  /** An accepted step extends the chain. */
  lemma FollowedNext(f: Derivative, o: Rk45, start: real, end: real, y0: seq<real>, steps: seq<Step>, p: Step, r: Report, at: Sample, status: Status)
    requires Followed(f, o, end > start, Sample(start, y0), steps, r) && SamplesOk(o, end > start, start, r) && r.status != Status.Event
    requires Shaped(p) && (end > start) == (p.t1 > p.t0) && Sample(p.t0, p.y0) == Sample(r.time, r.state) && Accurate(f, o, p)
    requires at == Sample(p.t1, p.y1) || (status == Status.Event && EndsInside(end > start, [p], at.time))
    ensures Followed(f, o, end > start, Sample(start, y0), steps + [p], Moved(o, r, at.time, at.state, status))
  {
    ChainedNext(end > start, Sample(start, y0), steps, p);
    if o.save {
      SavedNext(Sample(start, y0), steps, p, r.samples, at);
    }
    var longer := steps + [p];
    forall j | 0 <= j < |longer|
      ensures Accurate(f, o, longer[j])
    {
      assert if j < |steps| then longer[j] == steps[j] else longer[j] == p;
    }
  }

  /** An attempt whose error is beyond the tolerance in some component. */
  ghost predicate Refused(f: Derivative, o: Rk45, p: Step) {
    exists k, i: nat :: RefusedBy(f, o, p, k, i)
  }

  ghost predicate RefusedBy(f: Derivative, o: Rk45, p: Step, k: seq<seq<real>>, i: nat) {
    && |k| == 7 && k[0] == p.f0 && |A| == 7 && |A[6]| == 6 && |B4| == 7 && |p.y1| == |p.y0|
    && Stages(f, p.t0, p.y0, p.t1, k) && p.y1 == StageState(p.y0, k[..6], p.t1 - p.t0, 6)
    && i < |p.y0| && ErrorAt(k, p.t1 - p.t0, i) > ScaleAt(o, p.y0, p.y1, i)
  }

  /** What a turn that goes on has done: a refused attempt or one more step, of the length that was due. */
  ghost predicate Moves(f: Derivative, o: Rk45, r: Report, steps: seq<Step>, next: Report, longer: seq<Step>, length: real) {
    || (next.rejected == r.rejected + 1 && next.accepted == r.accepted && next.time == r.time && next.state == r.state
        && next.samples == r.samples && longer == steps
        && exists p: Step :: p.t0 == r.time && p.y0 == r.state && Abs(p.t1 - p.t0) == length && Refused(f, o, p))
    || (next.accepted == r.accepted + 1 && next.rejected == r.rejected && |longer| == |steps| + 1 && longer[..|steps|] == steps
        && Abs(longer[|steps|].t1 - longer[|steps|].t0) == length)
  }

  datatype Turn = Continue(report: Report, first: seq<real>, step: real, rejectedBefore: bool) | Stop(report: Report) | Fail

  /** The tracker stands at the end of the steps and its log is that of a run that goes on. */
  ghost predicate Watching(forward: bool, tracker: Tracker?, start: Sample, steps: seq<Step>)
    reads tracker
  {
    tracker != null ==>
      && tracker.Valid() && tracker.previous == tracker.event(Reach(start, steps).time, Reach(start, steps).state)
      && Running(tracker.Setup(), forward, start, steps, tracker.hits)
  }

  /** The log of a finished run: an event has ended it, or none of its events is terminal. */
  ghost predicate Logged(w: Watch, forward: bool, start: Sample, steps: seq<Step>, hits: seq<Occurrence>, r: Report)
    requires Fit(w)
  {
    if r.status == Status.Event then Halted(w, forward, start, steps, hits, Sample(r.time, r.state))
    else Running(w, forward, start, steps, hits)
  }

  ghost predicate Watched(forward: bool, tracker: Tracker?, start: Sample, steps: seq<Step>, r: Report)
    reads tracker
  {
    if tracker == null then r.status != Status.Event
    else tracker.Valid() && Logged(tracker.Setup(), forward, start, steps, tracker.hits, r)
  }

  /** A run between two attempts. */
  ghost predicate Going(f: Derivative, o: Rk45, start: real, end: real, y0: seq<real>, n: nat, r: Report, first: seq<real>, steps: seq<Step>, tracker: Tracker?)
    reads tracker
  {
    && Head(f, o, start, end, n, r, first) && r.status != Status.Event
    && Followed(f, o, end > start, Sample(start, y0), steps, r) && Watching(end > start, tracker, Sample(start, y0), steps)
  }

  /** A finished run. */
  ghost predicate Over(f: Derivative, o: Rk45, start: real, end: real, y0: seq<real>, r: Report, steps: seq<Step>, tracker: Tracker?)
    reads tracker
  {
    && Done(o, start, end, r) && Followed(f, o, end > start, Sample(start, y0), steps, r)
    && Watched(end > start, tracker, Sample(start, y0), steps, r)
  }

  /** The length of an attempt: the step, but neither beyond its maximum nor beyond the end. */
  function Length(o: Rk45, step: real, remaining: real): real {
    Smaller(Capped(step, o.maxStep), remaining)
  }

  /** The next grid time: the end if the step reaches it. */
  method NextTime(o: Rk45, time: real, end: real, step: real) returns (tNext: real, tooSmall: bool)
    requires time != end && step > 0.0 && ValidOptions(o)
    ensures !tooSmall ==> Ahead(end > time, time) < Ahead(end > time, tNext) <= Ahead(end > time, end)
    ensures !tooSmall ==> Abs(tNext - time) == Length(o, step, Abs(end - time))
    ensures tooSmall ==> Capped(step, o.maxStep) < o.minStep && Capped(step, o.maxStep) < Abs(end - time)
  {
    var remaining := Abs(end - time);
    var h := Smaller(Capped(step, o.maxStep), remaining);
    if h < o.minStep && h < remaining {
      return time, true;
    }
    tNext := if h == remaining then end else if end > time then time + h else time - h;
    tooSmall := tNext == time;
  }

  /** An attempt with its error norm: if that is at most one, the step is accurate. */
  method Judged(f: Derivative, o: Rk45, n: nat, time: real, state: seq<real>, first: seq<real>, tNext: real)
    returns (p: Step, norm: Option<real>, evaluations: nat)
    requires KeepsSize(f, n) && ValidOptions(o) && |state| == |first| == n && first == f(time, state)
    ensures p == Step(time, state, first, tNext, p.y1, p.f1) && |p.y1| == |p.f1| == n && evaluations == 6
    ensures norm.Some? && norm.value <= 1.0 ==> Accurate(f, o, p)
    ensures !(norm.Some? && norm.value <= 1.0) ==> Refused(f, o, p)
  {
    var candidate, k, used := Attempt(f, n, time, state, first, tNext);
    RowLengths(6);
    norm := ErrorNorm(o, n, state, candidate, k, tNext - time);
    p, evaluations := Step(time, state, first, tNext, candidate, k[6]), used;
    if norm.Some? && norm.value <= 1.0 {
      assert GoodStep(f, o, time, state, first, tNext, candidate, k);
    } else {
      ghost var i: nat :| i < n && ErrorAt(k, tNext - time, i) > ScaleAt(o, state, candidate, i);
      assert RefusedBy(f, o, p, k, i);
    }
  }

  /** A refused attempt costs six evaluations and changes nothing else. */
  lemma StillGoing(f: Derivative, o: Rk45, start: real, end: real, y0: seq<real>, n: nat, r: Report, first: seq<real>, steps: seq<Step>, tracker: Tracker?)
    requires Going(f, o, start, end, y0, n, r, first, steps, tracker) && r.evaluations + 6 <= o.maxEvaluations
    ensures Going(f, o, start, end, y0, n, r.(evaluations := r.evaluations + 6, rejected := r.rejected + 1), first, steps, tracker)
  {
  }

  /** Giving up between two steps. */
  lemma GivesUp(f: Derivative, o: Rk45, start: real, end: real, y0: seq<real>, n: nat, r: Report, first: seq<real>, steps: seq<Step>, tracker: Tracker?, status: Status)
    requires Going(f, o, start, end, y0, n, r, first, steps, tracker) && r.accepted + r.rejected <= o.maxSteps
    requires status != Status.Event && status != ReachedEnd && Justified(o, r, status)
    ensures Over(f, o, start, end, y0, r.(status := status), steps, tracker)
  {
  }

  /** One round of the loop. */
  method OneTurn(f: Derivative, o: Rk45, start: real, end: real, ghost y0: seq<real>, n: nat, r: Report, first: seq<real>, step: real, rejectedBefore: bool, power: Option<real> -> real, tracker: Tracker?, ghost steps: seq<Step>)
    returns (turn: Turn, ghost longer: seq<Step>)
    requires KeepsSize(f, n) && ValidOptions(o) && start != end && step > 0.0
    requires Going(f, o, start, end, y0, n, r, first, steps, tracker) && r.accepted + r.rejected < o.maxSteps
    modifies tracker
    ensures turn.Continue? ==> Going(f, o, start, end, y0, n, turn.report, turn.first, longer, tracker) && turn.step > 0.0
    ensures turn.Continue? ==> Moves(f, o, r, steps, turn.report, longer, Length(o, step, Abs(end - r.time)))
    ensures turn.Stop? ==> Over(f, o, start, end, y0, turn.report, longer, tracker)
    ensures turn.Stop? && turn.report.status == StepTooSmall ==> Capped(step, o.maxStep) < o.minStep
    ensures turn.Fail? ==> tracker != null && Exhausted(tracker)
  {
    longer := steps;
    var stop, tNext := Gate(o, end, r, step);
    if stop.Some? {
      GivesUp(f, o, start, end, y0, n, r, first, steps, tracker, stop.value);
      turn := Stop(r.(status := stop.value));
    } else {
      turn, longer := Advance(f, o, start, end, y0, n, r, first, tNext, rejectedBefore, power, tracker, steps);
    }
  }

  /** The checks before an attempt: room for a sample, a step that is not too small, and evaluations left. */
  method Gate(o: Rk45, end: real, r: Report, step: real) returns (stop: Option<Status>, tNext: real)
    requires ValidOptions(o) && r.time != end && step > 0.0 && (o.save ==> |r.samples| <= o.maxOutput)
    ensures stop.Some? ==> stop.value != Status.Event && stop.value != ReachedEnd && Justified(o, r, stop.value)
    ensures stop == Some(StepTooSmall) ==> Capped(step, o.maxStep) < o.minStep
    ensures stop.None? ==> (o.save ==> |r.samples| < o.maxOutput) && r.evaluations + 6 <= o.maxEvaluations
    ensures stop.None? ==> Ahead(end > r.time, r.time) < Ahead(end > r.time, tNext) <= Ahead(end > r.time, end)
    ensures stop.None? ==> Abs(tNext - r.time) == Length(o, step, Abs(end - r.time))
  {
    if o.save && |r.samples| >= o.maxOutput {
      return Some(OutputLimit), r.time;
    }
    var next, tooSmall := NextTime(o, r.time, end, step);
    if tooSmall {
      return Some(StepTooSmall), r.time;
    }
    if o.maxEvaluations - r.evaluations < 6 {
      return Some(MaxEvaluations), r.time;
    }
    return None, next;
  }

  /** The attempt of a round: an accepted step, or a shorter one to try. */
  method Advance(f: Derivative, o: Rk45, start: real, end: real, ghost y0: seq<real>, n: nat, r: Report, first: seq<real>, tNext: real, rejectedBefore: bool, power: Option<real> -> real, tracker: Tracker?, ghost steps: seq<Step>)
    returns (turn: Turn, ghost longer: seq<Step>)
    requires KeepsSize(f, n) && ValidOptions(o) && start != end && (o.save ==> |r.samples| < o.maxOutput)
    requires Going(f, o, start, end, y0, n, r, first, steps, tracker)
    requires r.accepted + r.rejected < o.maxSteps && r.evaluations + 6 <= o.maxEvaluations
    requires Ahead(end > start, r.time) < Ahead(end > start, tNext) <= Ahead(end > start, end)
    modifies tracker
    ensures turn.Continue? ==> Going(f, o, start, end, y0, n, turn.report, turn.first, longer, tracker) && turn.step > 0.0
    ensures turn.Continue? ==> Moves(f, o, r, steps, turn.report, longer, Abs(tNext - r.time))
    ensures turn.Stop? ==> Over(f, o, start, end, y0, turn.report, longer, tracker)
    ensures turn.Stop? ==> turn.report.status == ReachedEnd || turn.report.status == Status.Event
    ensures turn.Fail? ==> tracker != null && Exhausted(tracker)
  {
    longer := steps;
    var p, norm, used := Judged(f, o, n, r.time, r.state, first, tNext);
    var tried := r.(evaluations := r.evaluations + used);
    if norm.Some? && norm.value <= 1.0 {
      turn, longer := Accept(f, o, start, end, y0, n, tried, p, norm.value, rejectedBefore, power, tracker, steps);
    } else {
      var shorter, factor := Shrunk(Abs(tNext - r.time), norm, power);
      StillGoing(f, o, start, end, y0, n, r, first, steps, tracker);
      turn := Continue(tried.(rejected := r.rejected + 1), first, shorter, true);
    }
  }

  /** An accepted step: the tracker sees it first and may end the run inside it. */
  method Accept(f: Derivative, o: Rk45, start: real, end: real, ghost y0: seq<real>, n: nat, r: Report, p: Step, norm: real, rejectedBefore: bool, power: Option<real> -> real, tracker: Tracker?, ghost steps: seq<Step>)
    returns (turn: Turn, ghost longer: seq<Step>)
    requires ValidOptions(o) && start != end && |p.y0| == |p.f0| == |p.y1| == |p.f1| == n && Accurate(f, o, p)
    requires Sample(p.t0, p.y0) == Sample(r.time, r.state) && r.status != Status.Event
    requires SamplesOk(o, end > start, start, r) && (o.save ==> |r.samples| < o.maxOutput)
    requires r.evaluations == 7 + 6 * (r.accepted + r.rejected) <= o.maxEvaluations && r.accepted + r.rejected < o.maxSteps
    requires Ahead(end > start, start) <= Ahead(end > start, p.t0) < Ahead(end > start, p.t1) <= Ahead(end > start, end)
    requires Followed(f, o, end > start, Sample(start, y0), steps, r) && Watching(end > start, tracker, Sample(start, y0), steps)
    modifies tracker
    ensures longer == steps + [p]
    ensures turn.Continue? ==> Going(f, o, start, end, y0, n, turn.report, turn.first, longer, tracker) && turn.step > 0.0
    ensures turn.Continue? ==> turn.report.accepted == r.accepted + 1 && turn.report.rejected == r.rejected
    ensures turn.Stop? ==> Over(f, o, start, end, y0, turn.report, longer, tracker)
    ensures turn.Stop? ==> turn.report.status == ReachedEnd || turn.report.status == Status.Event
    ensures turn.Fail? ==> tracker != null && Exhausted(tracker)
  {
    longer := steps + [p];
    if tracker != null {
      var seen := Observe(end > start, Sample(start, y0), steps, p, tracker);
      if seen.Failure? {
        turn := Fail;
        return;
      }
      if seen.value.Some? {
        var stop := seen.value.value;
        MovedOn(o, start, end, r, stop.time, stop.state, Status.Event);
        FollowedNext(f, o, start, end, y0, steps, p, r, stop, Status.Event);
        turn := Stop(Moved(o, r, stop.time, stop.state, Status.Event));
        return;
      }
    }
    turn := Proceed(f, o, start, end, y0, n, r, p, norm, rejectedBefore, power, steps);
  }

  /** An accepted step that no event ends. */
  method Proceed(f: Derivative, o: Rk45, start: real, end: real, ghost y0: seq<real>, n: nat, r: Report, p: Step, norm: real, rejectedBefore: bool, power: Option<real> -> real, ghost steps: seq<Step>)
    returns (turn: Turn)
    requires ValidOptions(o) && start != end && |p.y0| == |p.f0| == |p.y1| == |p.f1| == n && Accurate(f, o, p)
    requires Sample(p.t0, p.y0) == Sample(r.time, r.state) && r.status != Status.Event
    requires SamplesOk(o, end > start, start, r) && (o.save ==> |r.samples| < o.maxOutput)
    requires r.evaluations == 7 + 6 * (r.accepted + r.rejected) <= o.maxEvaluations && r.accepted + r.rejected < o.maxSteps
    requires Ahead(end > start, start) <= Ahead(end > start, p.t0) < Ahead(end > start, p.t1) <= Ahead(end > start, end)
    requires Followed(f, o, end > start, Sample(start, y0), steps, r)
    ensures !turn.Fail? && Followed(f, o, end > start, Sample(start, y0), steps + [p], turn.report) && turn.report.status != Status.Event
    ensures turn.report.accepted == r.accepted + 1 && turn.report.rejected == r.rejected
    ensures turn.Continue? ==> Head(f, o, start, end, n, turn.report, turn.first) && turn.step > 0.0
    ensures turn.Stop? ==> Done(o, start, end, turn.report) && turn.report.status == ReachedEnd
  {
    MovedOn(o, start, end, r, p.t1, p.y1, ReachedEnd);
    FollowedNext(f, o, start, end, y0, steps, p, r, Sample(p.t1, p.y1), ReachedEnd);
    var moved := Moved(o, r, p.t1, p.y1, ReachedEnd);
    if p.t1 == end {
      return Stop(moved);
    }
    var next, factor := Grown(o, Abs(p.t1 - r.time), norm, power, rejectedBefore);
    return Continue(moved, p.f1, next, false);
  }

  lemma MovedOn(o: Rk45, start: real, end: real, r: Report, time: real, state: seq<real>, status: Status)
    requires SamplesOk(o, end > start, start, r) && (o.save ==> |r.samples| < o.maxOutput)
    requires Ahead(end > start, r.time) < Ahead(end > start, time)
    ensures SamplesOk(o, end > start, start, Moved(o, r, time, state, status))
  {
    if o.save {
      Recorded(o, start, end, r, time, state);
    }
  }

  /** The tracker has used up one of its budgets. */
  ghost predicate Exhausted(tracker: Tracker)
    reads tracker
  {
    || tracker.eval == tracker.options.maxEvaluations || tracker.eval >= tracker.options.maxRoot
    || |tracker.hits| == tracker.options.maxEvents
  }

  /** The tracker on one step: its log goes on, or ends inside the step. */
  method Observe(forward: bool, ghost start: Sample, ghost steps: seq<Step>, p: Step, tracker: Tracker) returns (r: Result<Option<Sample>>)
    requires Shaped(p) && forward == (p.t1 > p.t0) && Sample(p.t0, p.y0) == Reach(start, steps)
    requires Watching(forward, tracker, start, steps)
    modifies tracker
    ensures r.Success? ==> tracker.Valid()
    ensures r.Failure? ==> Exhausted(tracker)
    ensures r.Success? && r.value.None? ==> Watching(forward, tracker, start, steps + [p])
    ensures r.Success? && r.value.Some? ==> Halted(tracker.Setup(), forward, start, steps + [p], tracker.hits, r.value.value)
    ensures r.Success? && r.value.Some? ==> EndsInside(forward, [p], r.value.value.time)
  {
    ghost var before, last := tracker.hits, tracker.last;
    r := tracker.Track(p);
    if r.Success? {
      ghost var added := tracker.hits[|before|..];
      assert tracker.hits == before + added;
      if r.value.Some? {
        HaltsInside(tracker.Setup(), forward, start, steps, p, last, before, added, r.value.value);
      } else {
        RunsOn(tracker.Setup(), forward, start, steps, p, last, before, added);
      }
    }
  }

  /** `solve_ivp_observed`, with or without a tracker: the accepted steps are a chain of accurate ones. */
  method Solve(f: Derivative, start: real, end: real, y0: seq<real>, o: Rk45, power: Option<real> -> real, tracker: Tracker?)
    returns (r: Result<Report>, ghost steps: seq<Step>)
    requires KeepsSize(f, |y0|) && Watching(end > start, tracker, Sample(start, y0), [])
    modifies tracker
    ensures r.Success? ==> ValidOptions(o) && y0 != [] && Done(o, start, end, r.value)
    ensures r.Success? ==> Followed(f, o, end > start, Sample(start, y0), steps, r.value)
    ensures r.Success? ==> Watched(end > start, tracker, Sample(start, y0), steps, r.value)
    ensures r.Failure? ==> !ValidOptions(o) || y0 == [] || (tracker != null && Exhausted(tracker))
    ensures tracker == null ==> (r.Success? <==> ValidOptions(o) && y0 != [])
  {
    steps := [];
    if !ValidOptions(o) || y0 == [] {
      r := Failure;
      return;
    }
    var report := Report(start, y0, 0, 0, 0, ReachedEnd, if o.save then [Sample(start, y0)] else []);
    if start == end {
      r := Success(report);
      return;
    }
    if o.maxSteps == 0 {
      r := Success(report.(status := MaxSteps));
      return;
    }
    if o.maxEvaluations < 1 {
      r := Success(report.(status := MaxEvaluations));
      return;
    }
    var n := |y0|;
    var first := f(start, y0);
    report := report.(evaluations := 1);
    var span := Abs(end - start);
    var step := Smaller(Capped(if o.initialStep.Some? then o.initialStep.value else span * 0.01, o.maxStep), span);
    var rejectedBefore := false;
    for attempt := 0 to o.maxSteps
      invariant Going(f, o, start, end, y0, n, report, first, steps, tracker) && step > 0.0
      invariant report.accepted + report.rejected == attempt
    {
      var turn;
      turn, steps := OneTurn(f, o, start, end, y0, n, report, first, step, rejectedBefore, power, tracker, steps);
      match turn
      case Continue(next, k, h, rejected) =>
        report, first, step, rejectedBefore := next, k, h, rejected;
      case Stop(final) =>
        r := Success(final);
        return;
      case Fail =>
        r := Failure;
        return;
    }
    GivesUp(f, o, start, end, y0, n, report, first, steps, tracker, MaxSteps);
    r := Success(report.(status := MaxSteps));
  }

  predicate ValidTracking(specs: seq<Spec>, e: Options) {
    specs != [] && e.absolute > 0.0 && e.relative >= 0.0 && e.maxRoot > 0 && e.maxEvents > 0
  }

  /**
   `solve_ivp_events`: over the whole run the reported events are in order, each a zero at the start or located
   on an accepted step, no crossing goes unanswered, and the run ends at the first terminal event or has none.
   */
  method SolveEvents(f: Derivative, start: real, end: real, y0: seq<real>, o: Rk45, power: Option<real> -> real, event: Events.Event, specs: seq<Spec>, e: Options)
    returns (r: Result<(Report, seq<Occurrence>)>, ghost steps: seq<Step>)
    requires KeepsSize(f, |y0|) && Sized(event, |specs|)
    ensures r.Success? ==> ValidOptions(o) && y0 != [] && ValidTracking(specs, e)
    ensures r.Success? ==> Done(o, start, end, r.value.0) && |r.value.1| <= e.maxEvents
    ensures r.Success? ==> Followed(f, o, end > start, Sample(start, y0), steps, r.value.0)
    ensures r.Success? ==> Logged(Watch(event, specs, e), end > start, Sample(start, y0), steps, r.value.1, r.value.0)
  {
    steps := [];
    if !ValidOptions(o) || y0 == [] || !ValidTracking(specs, e) || e.maxEvaluations == 0 {
      r := Failure;
      return;
    }
    var tracker := new Tracker(event, specs, e, start, y0);
    var stop := tracker.Initial(start, y0);
    if stop.Failure? {
      r := Failure;
      return;
    }
    LogStarts(tracker.Setup(), end > start, Sample(start, y0), tracker.hits);
    if stop.value {
      var report := Report(start, y0, 0, 0, 0, Status.Event, if o.save then [Sample(start, y0)] else []);
      r := Success((report, tracker.hits));
      return;
    }
    var solved;
    solved, steps := Solve(f, start, end, y0, o, power, tracker);
    r := if solved.Success? then Success((solved.value, tracker.hits)) else Failure;
  }
}
