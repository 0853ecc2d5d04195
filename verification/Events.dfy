/** Sign-change events on accepted integration steps. */
module Events {
  import opened Wrappers

  datatype Direction = Any | Increasing | Decreasing

  datatype Spec = Spec(direction: Direction, terminal: bool)

  datatype Options = Options(absolute: real, relative: real, maxRoot: nat, maxEvaluations: nat, maxEvents: nat)

  datatype Occurrence = Occurrence(index: nat, time: real, state: seq<real>, value: real)

  datatype Sample = Sample(time: real, state: seq<real>)

  /** One accepted step: both ends with their states and derivatives. */
  datatype Step = Step(t0: real, y0: seq<real>, f0: seq<real>, t1: real, y1: seq<real>, f1: seq<real>)

  type Event = (real, seq<real>) -> seq<real>

  function Abs(x: real): real {
    if x >= 0.0 then x else -x
  }

  function Signum(x: real): real {
    if x >= 0.0 then 1.0 else -1.0
  }

  // ----- interpolation -----

  function Blend(s: real, h: real, y0: real, f0: real, y1: real, f1: real): real {
    var s2 := s * s;
    var s3 := s2 * s;
    (2.0 * s3 - 3.0 * s2 + 1.0) * y0 + (s3 - 2.0 * s2 + s) * h * f0
      + (-2.0 * s3 + 3.0 * s2) * y1 + (s3 - s2) * h * f1
  }

  predicate Shaped(p: Step) {
    |p.y0| == |p.f0| == |p.y1| == |p.f1| && p.t0 != p.t1
  }

  function Hermite(p: Step, s: real): (y: seq<real>)
    requires Shaped(p)
    ensures |y| == |p.y0|
  {
    seq(|p.y0|, (i: nat) requires i < |p.y0| => Blend(s, p.t1 - p.t0, p.y0[i], p.f0[i], p.y1[i], p.f1[i]))
  }

  /** The interpolant meets both ends. */
  lemma HermiteEnds(p: Step)
    requires Shaped(p)
    ensures Hermite(p, 0.0) == p.y0 && Hermite(p, 1.0) == p.y1
  {
  }

  /** A cubic by its coefficients, and its slope. */
  function Cubic(q: seq<real>, t: real): real
    requires |q| == 4
  {
    q[0] + q[1] * t + q[2] * (t * t) + q[3] * (t * t * t)
  }

  function CubicSlope(q: seq<real>, t: real): real
    requires |q| == 4
  {
    q[1] + 2.0 * q[2] * t + 3.0 * q[3] * (t * t)
  }

  lemma BlendIdentity(a: real, b: real, c: real, d: real, t: real, h: real, s: real)
    ensures var u, y := t + h, t + h * s;
      Blend(s, h, a + b * t + c * (t * t) + d * (t * t * t), b + 2.0 * c * t + 3.0 * d * (t * t),
            a + b * u + c * (u * u) + d * (u * u * u), b + 2.0 * c * u + 3.0 * d * (u * u)) ==
      a + b * y + c * (y * y) + d * (y * y * y)
  {
  }

  /** The interpolant is the cubic that has the step's values and slopes at both ends. */
  lemma HermiteIsCubic(p: Step, i: nat, q: seq<real>, s: real)
    requires Shaped(p) && i < |p.y0| && |q| == 4
    requires p.y0[i] == Cubic(q, p.t0) && p.f0[i] == CubicSlope(q, p.t0) && p.y1[i] == Cubic(q, p.t1) && p.f1[i] == CubicSlope(q, p.t1)
    ensures Hermite(p, s)[i] == Cubic(q, TimeAt(p, s))
  {
    BlendIdentity(q[0], q[1], q[2], q[3], p.t0, p.t1 - p.t0, s);
    assert p.t0 + (p.t1 - p.t0) == p.t1;
  }

  function TimeAt(p: Step, theta: real): real {
    p.t0 + (p.t1 - p.t0) * theta
  }

  lemma TimeEnds(p: Step)
    ensures TimeAt(p, 0.0) == p.t0 && TimeAt(p, 1.0) == p.t1
  {
  }

  // ----- where a reported event lies -----

  /** The event's value along the interpolant. */
  ghost function ValueAt(event: Event, p: Step, i: nat, theta: real): real
    requires Shaped(p) && i < |event(TimeAt(p, theta), Hermite(p, theta))|
  {
    event(TimeAt(p, theta), Hermite(p, theta))[i]
  }

  ghost predicate Sized(event: Event, n: nat) {
    forall t, y :: |event(t, y)| == n
  }

  /** The value changes its sign between two places. */
  ghost predicate Bracket(event: Event, p: Step, i: nat, n: nat, lo: real, hi: real)
    requires Shaped(p) && Sized(event, n) && i < n
  {
    && 0.0 <= lo < hi <= 1.0 && ValueAt(event, p, i, lo) != 0.0 && ValueAt(event, p, i, hi) != 0.0
    && Signum(ValueAt(event, p, i, lo)) != Signum(ValueAt(event, p, i, hi))
  }

  function Tolerance(o: Options, t: real): real {
    o.absolute + o.relative * Abs(t)
  }

  /** A zero, or the middle of a bracket no wider than the tolerance. */
  ghost predicate Pinned(event: Event, p: Step, o: Options, n: nat, hit: Occurrence, theta: real, lo: real, hi: real)
    requires Shaped(p) && Sized(event, n) && hit.index < n
  {
    && 0.0 < theta <= 1.0 && hit.time == TimeAt(p, theta) && hit.state == Hermite(p, theta)
    && hit.value == ValueAt(event, p, hit.index, theta)
    && (hit.value == 0.0 || (Bracket(event, p, hit.index, n, lo, hi) && lo < theta < hi && (hi - lo) * Abs(p.t1 - p.t0) <= o.absolute + o.relative * Abs(hit.time)))
  }

  ghost predicate Located(event: Event, p: Step, o: Options, n: nat, hit: Occurrence)
    requires Shaped(p) && Sized(event, n)
  {
    hit.index < n && exists theta, lo, hi :: Pinned(event, p, o, n, hit, theta, lo, hi)
  }

  // ----- order -----

  /** Time along the direction of integration: the sign of the step times `t`. */
  function Along(p: Step, t: real): real {
    if p.t1 >= p.t0 then t else -t
  }

  predicate NotAfter(p: Step, a: Occurrence, b: Occurrence) {
    Along(p, a.time) < Along(p, b.time) || (a.time == b.time && a.index <= b.index)
  }

  /** A located event lies inside the step. */
  lemma LocatedInside(event: Event, p: Step, o: Options, n: nat, hit: Occurrence)
    requires Shaped(p) && Sized(event, n) && Located(event, p, o, n, hit)
    ensures Along(p, p.t0) < Along(p, hit.time) <= Along(p, p.t1)
  {
    var theta, lo, hi :| Pinned(event, p, o, n, hit, theta, lo, hi);
    TimeInside(p, theta);
  }

  lemma TimeInside(p: Step, theta: real)
    requires p.t0 != p.t1 && 0.0 < theta <= 1.0
    ensures Along(p, p.t0) < Along(p, TimeAt(p, theta)) <= Along(p, p.t1)
  {
    var h := p.t1 - p.t0;
    PartOf(h, theta);
    PlacedAt(p, h, h * theta, TimeAt(p, theta));
  }

  lemma PlacedAt(p: Step, h: real, m: real, t: real)
    requires p.t0 != p.t1 && h == p.t1 - p.t0 && t == p.t0 + m
    requires (h > 0.0 ==> 0.0 < m <= h) && (h < 0.0 ==> h <= m < 0.0)
    ensures Along(p, p.t0) < Along(p, t) <= Along(p, p.t1)
  {
  }

  lemma PartOf(h: real, theta: real)
    requires 0.0 < theta <= 1.0
    ensures h > 0.0 ==> 0.0 < h * theta <= h
    ensures h < 0.0 ==> h <= h * theta < 0.0
  {
    if h > 0.0 {
      SmallerPart(h, theta);
    } else if h < 0.0 {
      SmallerPart(-h, theta);
      Mirrored(h, theta);
    }
  }

  lemma Mirrored(h: real, theta: real)
    ensures (-h) * theta == -(h * theta)
  {
  }

  lemma SmallerPart(h: real, theta: real)
    requires h > 0.0 && 0.0 < theta <= 1.0
    ensures 0.0 < h * theta <= h
  {
    assert h * (1.0 - theta) >= 0.0;
    assert h * (1.0 - theta) == h - h * theta;
  }

  predicate Sorted(p: Step, hits: seq<Occurrence>) {
    forall i, j :: 0 <= i < j < |hits| ==> NotAfter(p, hits[i], hits[j])
  }

  /** No event twice. */
  ghost predicate OnePerEvent(hits: seq<Occurrence>) {
    forall a, b :: 0 <= a < b < |hits| ==> hits[a].index != hits[b].index
  }

  /** Sorting by time along the integration, then by index. */
  method SortHits(p: Step, hits: seq<Occurrence>) returns (r: seq<Occurrence>)
    ensures multiset(r) == multiset(hits) && Sorted(p, r) && (OnePerEvent(hits) ==> OnePerEvent(r))
  {
    r := [];
    for i := 0 to |hits|
      invariant multiset(r) == multiset(hits[..i]) && Sorted(p, r) && (OnePerEvent(hits) ==> OnePerEvent(r))
    {
      NewIndex(hits, i, r);
      r := Insert(p, r, hits[i]);
      assert hits[..i + 1] == hits[..i] + [hits[i]];
    }
    assert hits[..|hits|] == hits;
  }

  method Insert(p: Step, sorted: seq<Occurrence>, hit: Occurrence) returns (r: seq<Occurrence>)
    requires Sorted(p, sorted)
    ensures multiset(r) == multiset(sorted) + multiset{hit} && Sorted(p, r)
    ensures OnePerEvent(sorted) && (forall j :: 0 <= j < |sorted| ==> sorted[j].index != hit.index) ==> OnePerEvent(r)
  {
    var at := |sorted|;
    while at > 0 && !NotAfter(p, sorted[at - 1], hit)
      invariant 0 <= at <= |sorted|
      invariant forall j :: at <= j < |sorted| ==> NotAfter(p, hit, sorted[j])
    {
      OrderTotal(p, sorted[at - 1], hit);
      at := at - 1;
    }
    r := sorted[..at] + [hit] + sorted[at..];
    InsertedAll(sorted, hit, at);
    InsertedSorted(p, sorted, hit, at);
  }

  lemma NewIndex(hits: seq<Occurrence>, i: nat, r: seq<Occurrence>)
    requires i < |hits| && multiset(r) == multiset(hits[..i])
    ensures OnePerEvent(hits) ==> forall j :: 0 <= j < |r| ==> r[j].index != hits[i].index
  {
    forall j | 0 <= j < |r|
      ensures exists l :: 0 <= l < i && hits[l] == r[j]
    {
      assert r[j] in multiset(r);
      assert r[j] in hits[..i];
      var l :| 0 <= l < i && hits[..i][l] == r[j];
      assert hits[l] == r[j];
    }
  }

  lemma InsertedAll(sorted: seq<Occurrence>, hit: Occurrence, at: nat)
    requires at <= |sorted|
    ensures multiset(sorted[..at] + [hit] + sorted[at..]) == multiset(sorted) + multiset{hit}
  {
    assert sorted == sorted[..at] + sorted[at..];
  }

  lemma OrderTotal(p: Step, a: Occurrence, b: Occurrence)
    ensures NotAfter(p, a, b) || NotAfter(p, b, a)
  {
  }

  lemma OrderTransitive(p: Step, a: Occurrence, b: Occurrence, c: Occurrence)
    requires NotAfter(p, a, b) && NotAfter(p, b, c)
    ensures NotAfter(p, a, c)
  {
  }

  lemma InsertedSorted(p: Step, sorted: seq<Occurrence>, hit: Occurrence, at: nat)
    requires Sorted(p, sorted) && at <= |sorted|
    requires at > 0 ==> NotAfter(p, sorted[at - 1], hit)
    requires forall j :: at <= j < |sorted| ==> NotAfter(p, hit, sorted[j])
    ensures Sorted(p, sorted[..at] + [hit] + sorted[at..])
  {
    var r := sorted[..at] + [hit] + sorted[at..];
    forall i, j | 0 <= i < j < |r|
      ensures NotAfter(p, r[i], r[j])
    {
      if j == at && i < at - 1 {
        assert NotAfter(p, sorted[i], sorted[at - 1]);
        OrderTransitive(p, sorted[i], sorted[at - 1], hit);
      }
    }
  }

  // ----- the tracker -----

  /** A crossing that counts: it leaves a nonzero value, and in the wanted direction of physical time. */
  predicate Crosses(spec: Spec, p: Step, g0: real, g1: real) {
    && g0 != 0.0 && (g1 == 0.0 || Signum(g0) != Signum(g1))
    && var low, high := if p.t1 > p.t0 then g0 else g1, if p.t1 > p.t0 then g1 else g0;
      match spec.direction
      case Any => true
      case Increasing => high > low
      case Decreasing => high < low
  }

  /** The direction is that of physical time, whichever way the integration goes. */
  lemma DirectionMeans(spec: Spec, p: Step, g0: real, g1: real, earlier: real, later: real)
    requires p.t0 < p.t1 ==> earlier == g0 && later == g1
    requires p.t1 < p.t0 ==> earlier == g1 && later == g0
    requires p.t0 != p.t1
    ensures Crosses(spec, p, g0, g1) <==>
      && g0 != 0.0 && (g1 == 0.0 || (g0 > 0.0) != (g1 > 0.0))
      && (spec.direction == Increasing ==> earlier < later) && (spec.direction == Decreasing ==> later < earlier)
  {
  }

  /** What is watched: the event values, their specifications and the limits. */
  datatype Watch = Watch(event: Event, specs: seq<Spec>, options: Options)

  ghost predicate Fit(w: Watch) {
    Sized(w.event, |w.specs|) && w.options.absolute > 0.0 && w.options.relative >= 0.0
  }

  /** The event has an entry in the list. */
  ghost predicate Listed(found: seq<Occurrence>, i: nat) {
    exists k :: 0 <= k < |found| && found[k].index == i
  }

  /** The crossing was reported just before: it lies within the tolerance of the event's last report. */
  ghost predicate Reported(w: Watch, p: Step, last: seq<Option<real>>, i: nat)
    requires Shaped(p) && Fit(w)
  {
    i < |last| && last[i].Some? &&
    exists hit: Occurrence :: hit.index == i && Located(w.event, p, w.options, |w.specs|, hit)
      && Abs(hit.time - last[i].value) <= Tolerance(w.options, hit.time)
  }

  /** Farther from the event's last report than the tolerance. */
  ghost predicate Fresh(w: Watch, last: seq<Option<real>>, hit: Occurrence) {
    hit.index < |last| && (last[hit.index].Some? ==>
      Abs(hit.time - last[hit.index].value) > w.options.absolute + w.options.relative * Abs(hit.time))
  }

  ghost predicate AllFresh(w: Watch, last: seq<Option<real>>, hits: seq<Occurrence>) {
    OnePerEvent(hits) && forall k :: 0 <= k < |hits| ==> Fresh(w, last, hits[k])
  }

  /** The crossing lies beyond the stop. */
  ghost predicate Later(w: Watch, p: Step, stop: Option<Sample>, i: nat)
    requires Shaped(p) && Fit(w)
  {
    stop.Some? &&
    exists hit: Occurrence :: hit.index == i && Located(w.event, p, w.options, |w.specs|, hit)
      && Along(p, hit.time) > Along(p, stop.value.time)
  }

  predicate Terminal(specs: seq<Spec>, hit: Occurrence) {
    hit.index < |specs| && specs[hit.index].terminal
  }

  /** No report asks for a stop. */
  ghost predicate Quiet(specs: seq<Spec>, hits: seq<Occurrence>) {
    forall k :: 0 <= k < |hits| ==> !Terminal(specs, hits[k])
  }

  /** A terminal event stands at the sample, and none elsewhere. */
  ghost predicate Halts(specs: seq<Spec>, hits: seq<Occurrence>, at: Sample) {
    && (exists k :: 0 <= k < |hits| && Terminal(specs, hits[k]) && Sample(hits[k].time, hits[k].state) == at)
    && forall k :: 0 <= k < |hits| && Terminal(specs, hits[k]) ==> hits[k].time == at.time
  }

  /** The step's value changes in the wanted direction. */
  ghost predicate Crossing(w: Watch, p: Step, i: nat)
    requires Fit(w)
  {
    i < |w.specs| && Crosses(w.specs[i], p, w.event(p.t0, p.y0)[i], w.event(p.t1, p.y1)[i])
  }

  /** A report of the step: it stands for a crossing and is located on the interpolant. */
  ghost predicate Found(w: Watch, p: Step, hit: Occurrence)
    requires Shaped(p) && Fit(w)
  {
    Crossing(w, p, hit.index) && Located(w.event, p, w.options, |w.specs|, hit)
  }

  ghost predicate AllFound(w: Watch, p: Step, hits: seq<Occurrence>)
    requires Shaped(p) && Fit(w)
  {
    forall k :: 0 <= k < |hits| ==> Found(w, p, hits[k])
  }

  lemma FoundIndexes(w: Watch, p: Step, hits: seq<Occurrence>)
    requires Shaped(p) && Fit(w) && AllFound(w, p, hits)
    ensures forall k :: 0 <= k < |hits| ==> hits[k].index < |w.specs|
  {
    forall k | 0 <= k < |hits|
      ensures hits[k].index < |w.specs|
    {
      assert Found(w, p, hits[k]);
    }
  }

  lemma FoundPart(w: Watch, p: Step, hits: seq<Occurrence>, m: nat)
    requires Shaped(p) && Fit(w) && AllFound(w, p, hits) && m <= |hits|
    ensures AllFound(w, p, hits[..m])
  {
  }

  /** The step's events in the order of integration, all of them but those reported just before. */
  ghost predicate StepFound(w: Watch, p: Step, last: seq<Option<real>>, found: seq<Occurrence>)
    requires Shaped(p) && Fit(w)
  {
    && Sorted(p, found) && AllFound(w, p, found) && AllFresh(w, last, found)
    && forall i: nat :: Crossing(w, p, i) ==> Listed(found, i) || Reported(w, p, last, i)
  }

  /**
   The reports of one step: at most one of each event, none a repetition of its last report, each a zero or the middle of a narrow sign-change bracket of the interpolant, in
   the order of integration; the first terminal one stops the run and no report lies beyond it; and every
   crossing is reported, was reported just before, or lies beyond the stop.
   */
  ghost predicate StepReports(w: Watch, p: Step, last: seq<Option<real>>, added: seq<Occurrence>, stop: Option<Sample>)
    requires Shaped(p) && Fit(w)
  {
    && Sorted(p, added) && AllFound(w, p, added) && AllFresh(w, last, added)
    && (stop.None? ==> Quiet(w.specs, added))
    && (stop.Some? ==> Halts(w.specs, added, stop.value) && forall k :: 0 <= k < |added| ==> Along(p, added[k].time) <= Along(p, stop.value.time))
    && forall i: nat :: Crossing(w, p, i) ==> Listed(added, i) || Reported(w, p, last, i) || Later(w, p, stop, i)
  }

  ghost predicate FirstAt(specs: seq<Spec>, found: seq<Occurrence>, q: nat) {
    && q < |found| && Terminal(specs, found[q])
    && forall j :: 0 <= j < q ==> !Terminal(specs, found[j])
  }

  /** The time of the first terminal event in the sorted list. */
  ghost predicate FirstTerminal(specs: seq<Spec>, found: seq<Occurrence>, terminal: Option<real>) {
    match terminal
    case None => Quiet(specs, found)
    case Some(t) => exists q: nat :: FirstAt(specs, found, q) && found[q].time == t
  }

  /** The list is cut after the events at the first terminal one's time. */
  ghost predicate CutAt(specs: seq<Spec>, p: Step, found: seq<Occurrence>, m: nat, stop: Option<Sample>) {
    && m <= |found|
    && (stop.None? ==> m == |found| && Quiet(specs, found))
    && (stop.Some? ==>
      && (exists q: nat :: q < m && FirstAt(specs, found, q) && Sample(found[q].time, found[q].state) == stop.value)
      && (forall k :: 0 <= k < m ==> Along(p, found[k].time) <= Along(p, stop.value.time))
      && (forall k :: m <= k < |found| ==> Along(p, found[k].time) > Along(p, stop.value.time)))
  }

  lemma FirstUnique(specs: seq<Spec>, found: seq<Occurrence>, a: nat, b: nat)
    requires FirstAt(specs, found, a) && FirstAt(specs, found, b)
    ensures a == b
  {
  }

  /** The first `k` events are not beyond the first terminal one, and `stop` is that one if it is among them. */
  ghost predicate Passed(specs: seq<Spec>, p: Step, found: seq<Occurrence>, terminal: Option<real>, k: nat, stop: Option<Sample>, q: nat) {
    && k <= |found| && (terminal.Some? ==> forall j :: 0 <= j < k ==> Along(p, found[j].time) <= Along(p, terminal.value))
    && (stop.Some? ==> q < k && FirstAt(specs, found, q) && stop.value == Sample(found[q].time, found[q].state))
    && (stop.None? ==> forall j :: 0 <= j < k ==> !Terminal(specs, found[j]))
  }

  lemma StoppedBefore(specs: seq<Spec>, p: Step, found: seq<Occurrence>, terminal: Option<real>, m: nat, stop: Option<Sample>, q: nat)
    requires Sorted(p, found) && FirstTerminal(specs, found, terminal) && m < |found| && Passed(specs, p, found, terminal, m, stop, q)
    requires terminal.Some? && Along(p, found[m].time) > Along(p, terminal.value)
    ensures CutAt(specs, p, found, m, stop)
  {
    var first: nat :| FirstAt(specs, found, first) && found[first].time == terminal.value;
    assert forall j :: m < j < |found| ==> NotAfter(p, found[m], found[j]);
    assert stop.Some?;
    FirstUnique(specs, found, first, q);
    forall k | m <= k < |found|
      ensures Along(p, found[k].time) > Along(p, stop.value.time)
    {
      assert m < k ==> NotAfter(p, found[m], found[k]);
    }
  }

  lemma StoppedWithin(specs: seq<Spec>, p: Step, found: seq<Occurrence>, terminal: Option<real>, stop: Option<Sample>, q: nat)
    requires FirstTerminal(specs, found, terminal) && Passed(specs, p, found, terminal, |found|, stop, q)
    ensures CutAt(specs, p, found, |found|, stop)
  {
    if stop.Some? {
      var first: nat :| FirstAt(specs, found, first) && found[first].time == terminal.value;
      FirstUnique(specs, found, first, q);
    }
  }

  /** The part of the sorted events up to the stop is what a step reports. */
  lemma CutReports(w: Watch, p: Step, last: seq<Option<real>>, found: seq<Occurrence>, added: seq<Occurrence>, stop: Option<Sample>)
    requires Shaped(p) && Fit(w) && StepFound(w, p, last, found) && |added| <= |found| && added == found[..|added|]
    requires CutAt(w.specs, p, found, |added|, stop)
    ensures StepReports(w, p, last, added, stop)
  {
    var m := |added|;
    if stop.Some? {
      CutHalts(w.specs, p, found, m, stop.value);
    }
    forall i: nat | Crossing(w, p, i)
      ensures Listed(added, i) || Reported(w, p, last, i) || Later(w, p, stop, i)
    {
      if Listed(found, i) {
        var k :| 0 <= k < |found| && found[k].index == i;
        assert k < m ==> added[k].index == i;
        assert Found(w, p, found[k]);
      }
    }
  }

  lemma CutHalts(specs: seq<Spec>, p: Step, found: seq<Occurrence>, m: nat, stop: Sample)
    requires Sorted(p, found) && CutAt(specs, p, found, m, Some(stop))
    ensures Halts(specs, found[..m], stop)
  {
    var added := found[..m];
    var q: nat :| q < m && FirstAt(specs, found, q) && Sample(found[q].time, found[q].state) == stop;
    assert added[q] == found[q];
    forall k | 0 <= k < |added| && Terminal(specs, added[k])
      ensures added[k].time == stop.time
    {
      assert q < k ==> NotAfter(p, found[q], found[k]);
    }
  }

  ghost predicate Accounted(w: Watch, p: Step, last: seq<Option<real>>, found: seq<Occurrence>)
    requires Shaped(p) && Fit(w)
  {
    forall i: nat :: Crossing(w, p, i) ==> Listed(found, i) || Reported(w, p, last, i)
  }

  lemma SameHits(found: seq<Occurrence>, sorted: seq<Occurrence>, k: nat)
    requires multiset(sorted) == multiset(found) && k < |sorted|
    ensures exists l :: 0 <= l < |found| && found[l] == sorted[k]
  {
    assert sorted[k] in multiset(sorted);
    assert sorted[k] in found;
  }

  /** Sorting changes nothing of what was found. */
  lemma SortedFound(w: Watch, p: Step, last: seq<Option<real>>, found: seq<Occurrence>, sorted: seq<Occurrence>)
    requires Shaped(p) && Fit(w) && multiset(sorted) == multiset(found) && Sorted(p, sorted) && OnePerEvent(sorted)
    requires AllFound(w, p, found) && AllFresh(w, last, found) && Accounted(w, p, last, found)
    ensures StepFound(w, p, last, sorted)
  {
    forall k | 0 <= k < |sorted|
      ensures Found(w, p, sorted[k]) && Fresh(w, last, sorted[k])
    {
      SameHits(found, sorted, k);
      var l :| 0 <= l < |found| && found[l] == sorted[k];
      assert Found(w, p, found[l]) && Fresh(w, last, found[l]);
    }
    forall i: nat | Crossing(w, p, i)
      ensures Listed(sorted, i) || Reported(w, p, last, i)
    {
      if Listed(found, i) {
        var k: nat :| k < |found| && found[k].index == i;
        SameHits(sorted, found, k);
      }
    }
  }

  /** Every last report is in the list. */
  ghost predicate Backed(hits: seq<Occurrence>, last: seq<Option<real>>) {
    forall i: nat :: i < |last| && last[i].Some? ==> Shown(hits, i, last[i].value)
  }

  ghost predicate Shown(hits: seq<Occurrence>, i: nat, t: real) {
    exists k :: 0 <= k < |hits| && hits[k].index == i && hits[k].time == t
  }

  lemma BackedAppend(hits: seq<Occurrence>, last: seq<Option<real>>, hit: Occurrence)
    requires Backed(hits, last) && hit.index < |last|
    ensures Backed(hits + [hit], last[hit.index := Some(hit.time)])
  {
    var longer, after := hits + [hit], last[hit.index := Some(hit.time)];
    assert longer[|hits|] == hit;
    forall i: nat | i < |after| && after[i].Some?
      ensures Shown(longer, i, after[i].value)
    {
      if i != hit.index {
        var k :| 0 <= k < |hits| && hits[k].index == i && hits[k].time == last[i].value;
        assert longer[k] == hits[k];
      }
    }
  }

  class Tracker {
    const event: Event
    const specs: seq<Spec>
    const options: Options
    var previous: seq<real>
    var last: seq<Option<real>>
    var hits: seq<Occurrence>
    var eval: nat

    ghost function Setup(): Watch {
      Watch(event, specs, options)
    }

    ghost predicate Valid()
      reads this
    {
      && Fit(Setup()) && |previous| == |last| == |specs|
      && eval <= options.maxEvaluations && |hits| <= options.maxEvents && Backed(hits, last)
      && forall i :: 0 <= i < |hits| ==> hits[i].index < |specs|
    }

    constructor (event: Event, specs: seq<Spec>, options: Options, t: real, y: seq<real>)
      requires Sized(event, |specs|) && options.absolute > 0.0 && options.relative >= 0.0 && options.maxEvaluations > 0
      ensures Valid() && hits == [] && previous == event(t, y) && this.event == event && this.specs == specs && this.options == options
    {
      this.event, this.specs, this.options := event, specs, options;
      previous, last, hits, eval := event(t, y), seq(|specs|, _ => None), [], 1;
    }

    method Evaluate(t: real, y: seq<real>) returns (r: Result<seq<real>>)
      requires Valid()
      modifies this`eval
      ensures Valid() && (r.Success? <==> old(eval) < options.maxEvaluations)
      ensures r.Success? ==> r.value == event(t, y) && eval == old(eval) + 1
      ensures r.Failure? ==> eval == options.maxEvaluations
    {
      if eval >= options.maxEvaluations {
        return Failure;
      }
      eval := eval + 1;
      return Success(event(t, y));
    }

    method Push(hit: Occurrence) returns (ok: bool)
      requires Valid() && hit.index < |specs|
      modifies this`hits, this`last
      ensures Valid() && (ok <==> |old(hits)| < options.maxEvents)
      ensures hits == if ok then old(hits) + [hit] else old(hits)
      ensures last == if ok then old(last)[hit.index := Some(hit.time)] else old(last)
    {
      if |hits| >= options.maxEvents {
        return false;
      }
      BackedAppend(hits, last, hit);
      last := last[hit.index := Some(hit.time)];
      hits := hits + [hit];
      return true;
    }

    /** `initial`: exact zeros at the start are reported whatever their direction. */
    method Initial(t: real, y: seq<real>) returns (r: Result<bool>)
      requires Valid() && hits == [] && previous == event(t, y)
      modifies this`hits, this`last
      ensures Valid()
      ensures forall i :: 0 <= i < |hits| ==> hits[i].time == t && hits[i].state == y && hits[i].value == 0.0 && event(t, y)[hits[i].index] == 0.0
      ensures r.Success? ==> (r.value <==> exists i :: 0 <= i < |specs| && event(t, y)[i] == 0.0 && specs[i].terminal)
      ensures r.Success? ==> forall i: nat :: i < |specs| && event(t, y)[i] == 0.0 ==> Listed(hits, i)
    {
      var stop := false;
      for i := 0 to |specs|
        invariant Valid()
        invariant forall j :: 0 <= j < |hits| ==> hits[j].time == t && hits[j].state == y && hits[j].value == 0.0 && event(t, y)[hits[j].index] == 0.0
        invariant stop <==> exists j :: 0 <= j < i && event(t, y)[j] == 0.0 && specs[j].terminal
        invariant forall j: nat :: j < i && event(t, y)[j] == 0.0 ==> Listed(hits, j)
      {
        if previous[i] == 0.0 {
          ListedAppend(hits, Occurrence(i, t, y, 0.0));
          var ok := Push(Occurrence(i, t, y, 0.0));
          if !ok {
            return Failure;
          }
          stop := stop || specs[i].terminal;
        }
      }
      return Success(stop);
    }

    /** The evaluation budget is used up, or that of one root since there were `before` evaluations. */
    predicate Spent(before: nat)
      reads this`eval
    {
      eval == options.maxEvaluations || eval >= before + options.maxRoot
    }

    /** Bisection on the interpolant until a zero or a narrow enough bracket. */
    method Bisect(p: Step, i: nat) returns (r: Result<Occurrence>)
      requires Valid() && Shaped(p) && previous == event(p.t0, p.y0) && i < |specs|
      requires Bracket(event, p, i, |specs|, 0.0, 1.0)
      modifies this`eval
      ensures Valid() && eval >= old(eval) && (r.Failure? ==> Spent(old(eval)))
      ensures r.Success? ==> r.value.index == i && Located(event, p, options, |specs|, r.value)
    {
      var lo, hi := 0.0, 1.0;
      HermiteEnds(p);
      TimeEnds(p);
      var gl := previous[i];
      for round := 0 to options.maxRoot
        invariant Valid() && Bracket(event, p, i, |specs|, lo, hi) && gl == ValueAt(event, p, i, lo) && eval == old(eval) + round
      {
        var theta := lo + (hi - lo) * 0.5;
        var t := TimeAt(p, theta);
        var state := Hermite(p, theta);
        var values := Evaluate(t, state);
        if values.Failure? {
          return Failure;
        }
        var g := values.value[i];
        if g == 0.0 || (hi - lo) * Abs(p.t1 - p.t0) <= Tolerance(options, t) {
          var hit := Occurrence(i, t, state, g);
          assert Pinned(event, p, options, |specs|, hit, theta, lo, hi);
          return Success(hit);
        }
        if Signum(g) == Signum(gl) {
          lo, gl := theta, g;
        } else {
          hi := theta;
        }
      }
      return Failure;
    }

    /** One event on a step: where it crosses, unless the crossing was reported just before. */
    method Detect(p: Step, current: seq<real>, i: nat) returns (r: Result<Option<Occurrence>>)
      requires Valid() && Shaped(p) && previous == event(p.t0, p.y0) && current == event(p.t1, p.y1) && i < |specs|
      modifies this`eval
      ensures Valid() && eval >= old(eval) && (r.Failure? ==> Spent(old(eval)))
      ensures r.Success? && r.value.Some? ==> Fresh(Setup(), last, r.value.value)
      ensures r.Success? && r.value.Some? ==> r.value.value.index == i && Located(event, p, options, |specs|, r.value.value)
      ensures r.Success? && r.value.Some? ==> Crosses(specs[i], p, previous[i], current[i])
      ensures r.Success? && r.value.None? && Crosses(specs[i], p, previous[i], current[i]) ==> Reported(Setup(), p, last, i)
    {
      var g0, g1 := previous[i], current[i];
      if !Crosses(specs[i], p, g0, g1) {
        return Success(None);
      }
      HermiteEnds(p);
      TimeEnds(p);
      var hit;
      if g1 == 0.0 {
        hit := Occurrence(i, p.t1, p.y1, g1);
        assert Pinned(event, p, options, |specs|, hit, 1.0, 0.0, 1.0);
      } else {
        var found := Bisect(p, i);
        if found.Failure? {
          return Failure;
        }
        hit := found.value;
      }
      if last[i].Some? && Abs(hit.time - last[i].value) <= Tolerance(options, hit.time) {
        return Success(None);
      }
      return Success(Some(hit));
    }

    method DetectAll(p: Step, current: seq<real>) returns (r: Result<seq<Occurrence>>)
      requires Valid() && Shaped(p) && previous == event(p.t0, p.y0) && current == event(p.t1, p.y1)
      modifies this`eval
      ensures Valid() && eval >= old(eval) && (r.Failure? ==> Spent(old(eval)))
      ensures r.Success? ==> AllFound(Setup(), p, r.value) && AllFresh(Setup(), last, r.value) && Accounted(Setup(), p, last, r.value)
    {
      var found: seq<Occurrence> := [];
      for i := 0 to |specs|
        invariant Valid()
        invariant forall j: nat :: j < i && Crosses(specs[j], p, previous[j], current[j]) ==> Listed(found, j) || Reported(Setup(), p, last, j)
        invariant AllFound(Setup(), p, found) && AllFresh(Setup(), last, found) && eval >= old(eval)
        invariant forall k :: 0 <= k < |found| ==> found[k].index < i
      {
        var one := Detect(p, current, i);
        if one.Failure? {
          return Failure;
        }
        if one.value.Some? {
          ListedAppend(found, one.value.value);
          found := found + [one.value.value];
        }
      }
      return Success(found);
    }

    lemma ListedAppend(found: seq<Occurrence>, hit: Occurrence)
      ensures Listed(found + [hit], hit.index) && forall j: nat :: Listed(found, j) ==> Listed(found + [hit], j)
    {
      var longer := found + [hit];
      assert longer[|found|].index == hit.index;
      forall j: nat | Listed(found, j)
        ensures Listed(longer, j)
      {
        var k :| 0 <= k < |found| && found[k].index == j;
        assert longer[k].index == j;
      }
    }

    /** `hit` comes after the first terminal event. */
    predicate Beyond(p: Step, terminal: Option<real>, hit: Occurrence) {
      terminal.Some? && Along(p, hit.time) > Along(p, terminal.value)
    }

    /** The sorted events are pushed up to the first terminal one. */
    method Report(p: Step, found: seq<Occurrence>, terminal: Option<real>) returns (r: Result<Option<Sample>>)
      requires Valid() && Sorted(p, found) && (forall k :: 0 <= k < |found| ==> found[k].index < |specs|)
      requires FirstTerminal(specs, found, terminal)
      modifies this`hits, this`last
      ensures Valid() && |hits| >= |old(hits)| && hits[..|old(hits)|] == old(hits) && (r.Failure? ==> |hits| == options.maxEvents)
      ensures var m := |hits| - |old(hits)|; m <= |found| && hits[|old(hits)|..] == found[..m]
      ensures r.Success? ==> CutAt(specs, p, found, |hits| - |old(hits)|, r.value)
    {
      var stop: Option<Sample> := None;
      ghost var start := hits;
      ghost var q: nat := 0;
      for k := 0 to |found|
        invariant Reporting(p, found, terminal, start, k, stop, q)
      {
        var hit := found[k];
        if Beyond(p, terminal, hit) {
          StoppedBefore(specs, p, found, terminal, k, stop, q);
          return Success(stop);
        }
        if specs[hit.index].terminal && stop.None? {
          stop := Some(Sample(hit.time, hit.state));
          q := k;
        }
        var ok := Push(hit);
        if !ok {
          return Failure;
        }
        assert found[..k + 1] == found[..k] + [hit];
      }
      assert found[..|found|] == found;
      StoppedWithin(specs, p, found, terminal, stop, q);
      return Success(stop);
    }

    /** The first `k` events are pushed. */
    ghost predicate Reporting(p: Step, found: seq<Occurrence>, terminal: Option<real>, start: seq<Occurrence>, k: nat, stop: Option<Sample>, q: nat)
      reads this
    {
      Valid() && Passed(specs, p, found, terminal, k, stop, q) && hits == start + found[..k]
    }

    method FindTerminal(found: seq<Occurrence>) returns (terminal: Option<real>)
      requires forall k :: 0 <= k < |found| ==> found[k].index < |specs|
      ensures FirstTerminal(specs, found, terminal)
    {
      terminal := None;
      for k := 0 to |found|
        invariant forall j :: 0 <= j < k ==> !specs[found[j].index].terminal
      {
        if specs[found[k].index].terminal {
          assert FirstAt(specs, found, k);
          return Some(found[k].time);
        }
      }
    }

    /** The step's events, reported up to the first terminal one. */
    method ReportAll(p: Step, found: seq<Occurrence>) returns (r: Result<Option<Sample>>)
      requires Valid() && Shaped(p) && StepFound(Setup(), p, last, found)
      modifies this`hits, this`last
      ensures Valid() && |hits| >= |old(hits)| && hits[..|old(hits)|] == old(hits) && (r.Failure? ==> |hits| == options.maxEvents)
      ensures AllFound(Setup(), p, hits[|old(hits)|..])
      ensures r.Success? ==> StepReports(Setup(), p, old(last), hits[|old(hits)|..], r.value)
    {
      FoundIndexes(Setup(), p, found);
      var terminal := FindTerminal(found);
      r := Report(p, found, terminal);
      ghost var added := hits[|old(hits)|..];
      FoundPart(Setup(), p, found, |added|);
      if r.Success? {
        CutReports(Setup(), p, old(last), found, added, r.value);
      }
    }

    /** `step`: the reports of an accepted step. */
    method Track(p: Step) returns (r: Result<Option<Sample>>)
      requires Valid() && Shaped(p) && previous == event(p.t0, p.y0)
      modifies this
      ensures Valid() && |hits| >= |old(hits)| && hits[..|old(hits)|] == old(hits)
      ensures r.Failure? ==> Spent(old(eval)) || |hits| == options.maxEvents
      ensures AllFound(Setup(), p, hits[|old(hits)|..])
      ensures r.Success? ==> previous == event(p.t1, p.y1) && StepReports(Setup(), p, old(last), hits[|old(hits)|..], r.value)
    {
      var current := Evaluate(p.t1, p.y1);
      if current.Failure? {
        return Failure;
      }
      var found := DetectSorted(p, current.value);
      if found.Failure? {
        return Failure;
      }
      r := ReportAll(p, found.value);
      if r.Success? {
        previous := current.value;
      }
    }

    /** The step's events in the order of integration. */
    method DetectSorted(p: Step, current: seq<real>) returns (r: Result<seq<Occurrence>>)
      requires Valid() && Shaped(p) && previous == event(p.t0, p.y0) && current == event(p.t1, p.y1)
      modifies this`eval
      ensures Valid() && eval >= old(eval) && (r.Failure? ==> Spent(old(eval)))
      ensures r.Success? ==> StepFound(Setup(), p, last, r.value)
    {
      var found := DetectAll(p, current);
      if found.Failure? {
        return Failure;
      }
      var sorted := SortHits(p, found.value);
      SortedFound(Setup(), p, last, found.value, sorted);
      return Success(sorted);
    }
  }
}
