/** The events of a whole run, told from its accepted steps. */
module EventLog {
  import opened Wrappers
  import opened Events

  /** Time along the direction of integration. */
  function Ahead(forward: bool, t: real): real {
    if forward then t else -t
  }

  // ----- the steps -----

  /** Where a chain of steps from the start has arrived. */
  function Reach(start: Sample, steps: seq<Step>): Sample {
    if steps == [] then start else Sample(steps[|steps| - 1].t1, steps[|steps| - 1].y1)
  }

  /** Each step starts where the one before it ends, and all go the same way. */
  ghost predicate Chained(forward: bool, start: Sample, steps: seq<Step>) {
    forall j :: 0 <= j < |steps| ==> LinkAt(forward, start, steps, j)
  }

  ghost predicate LinkAt(forward: bool, start: Sample, steps: seq<Step>, j: nat) {
    && j < |steps| && Shaped(steps[j]) && forward == (steps[j].t1 > steps[j].t0)
    && Sample(steps[j].t0, steps[j].y0) == Reach(start, steps[..j])
  }

  lemma ChainedNext(forward: bool, start: Sample, steps: seq<Step>, p: Step)
    requires Chained(forward, start, steps) && Shaped(p) && forward == (p.t1 > p.t0)
    requires Sample(p.t0, p.y0) == Reach(start, steps)
    ensures Chained(forward, start, steps + [p])
  {
    var longer := steps + [p];
    forall j | 0 <= j < |longer|
      ensures LinkAt(forward, start, longer, j)
    {
      if j < |steps| {
        assert LinkAt(forward, start, steps, j) && longer[..j] == steps[..j];
      } else {
        assert longer[..j] == steps;
      }
    }
  }

  // ----- the reports -----

  ghost predicate Ordered(forward: bool, hits: seq<Occurrence>, time: real) {
    && (forall i, j :: 0 <= i < j < |hits| ==> Ahead(forward, hits[i].time) <= Ahead(forward, hits[j].time))
    && forall i :: 0 <= i < |hits| ==> Ahead(forward, hits[i].time) <= Ahead(forward, time)
  }

  /** A zero at the start itself. */
  ghost predicate AtStart(w: Watch, start: Sample, hit: Occurrence)
    requires Fit(w)
  {
    && hit.index < |w.specs| && hit.value == 0.0 == w.event(start.time, start.state)[hit.index]
    && Sample(hit.time, hit.state) == start
  }

  ghost predicate FoundOn(w: Watch, steps: seq<Step>, hit: Occurrence, j: nat)
    requires Fit(w)
  {
    j < |steps| && Shaped(steps[j]) && Found(w, steps[j], hit)
  }

  /** A report is a zero at the start or stands for a crossing on an accepted step. */
  ghost predicate Sourced(w: Watch, start: Sample, steps: seq<Step>, hit: Occurrence)
    requires Fit(w)
  {
    AtStart(w, start, hit) || exists j: nat :: FoundOn(w, steps, hit, j)
  }

  ghost predicate AllSourced(w: Watch, start: Sample, steps: seq<Step>, hits: seq<Occurrence>)
    requires Fit(w)
  {
    forall k :: 0 <= k < |hits| ==> Sourced(w, start, steps, hits[k])
  }

  /** The crossing has a report of its event within the tolerance of where it was located. */
  ghost predicate Answered(w: Watch, p: Step, hits: seq<Occurrence>, i: nat)
    requires Shaped(p) && Fit(w)
  {
    exists k: nat, hit: Occurrence :: Answers(w, p, hits, i, k, hit)
  }

  ghost predicate Answers(w: Watch, p: Step, hits: seq<Occurrence>, i: nat, k: nat, hit: Occurrence)
    requires Shaped(p) && Fit(w)
  {
    && k < |hits| && hits[k].index == hit.index == i && Located(w.event, p, w.options, |w.specs|, hit)
    && Abs(hit.time - hits[k].time) <= Tolerance(w.options, hit.time)
  }

  /** Every crossing of the step is answered, but for those beyond the stop. */
  ghost predicate StepAnswered(w: Watch, p: Step, hits: seq<Occurrence>, stop: Option<Sample>)
    requires Fit(w)
  {
    Shaped(p) && forall i: nat :: Crossing(w, p, i) ==> Answered(w, p, hits, i) || Later(w, p, stop, i)
  }

  /** Every zero at the start is reported, and every crossing of each step is answered. */
  ghost predicate Complete(w: Watch, start: Sample, steps: seq<Step>, hits: seq<Occurrence>)
    requires Fit(w)
  {
    && (forall i: nat :: i < |w.specs| && w.event(start.time, start.state)[i] == 0.0 ==> Shown(hits, i, start.time))
    && forall j :: 0 <= j < |steps| ==> StepAnswered(w, steps[j], hits, None)
  }

  /** The log of a run that goes on: in order, sound, complete, and without a terminal event. */
  ghost predicate Running(w: Watch, forward: bool, start: Sample, steps: seq<Step>, hits: seq<Occurrence>)
    requires Fit(w)
  {
    && Ordered(forward, hits, Reach(start, steps).time) && AllSourced(w, start, steps, hits)
    && Complete(w, start, steps, hits) && Quiet(w.specs, hits)
  }

  /**
   The log of a run that an event has ended: a terminal event stands at the final time and state, no report
   lies beyond it, no terminal event came earlier, and only crossings beyond it may go without a report.
   */
  ghost predicate Halted(w: Watch, forward: bool, start: Sample, steps: seq<Step>, hits: seq<Occurrence>, at: Sample)
    requires Fit(w)
  {
    && Ordered(forward, hits, at.time) && AllSourced(w, start, steps, hits) && Halts(w.specs, hits, at)
    && if steps == [] then Complete(w, start, steps, hits)
       else
         var last := |steps| - 1;
         Complete(w, start, steps[..last], hits) && StepAnswered(w, steps[last], hits, Some(at))
  }

  // ----- one more step -----

  lemma SourcedFurther(w: Watch, start: Sample, steps: seq<Step>, p: Step, before: seq<Occurrence>, added: seq<Occurrence>)
    requires Fit(w) && Shaped(p) && AllSourced(w, start, steps, before) && AllFound(w, p, added)
    ensures AllSourced(w, start, steps + [p], before + added)
  {
    var longer, hits := steps + [p], before + added;
    forall k | 0 <= k < |hits|
      ensures Sourced(w, start, longer, hits[k])
    {
      if k >= |before| {
        assert Found(w, p, added[k - |before|]);
        assert FoundOn(w, longer, hits[k], |steps|);
      } else if !AtStart(w, start, hits[k]) {
        assert Sourced(w, start, steps, before[k]);
        var j: nat :| FoundOn(w, steps, before[k], j);
        assert FoundOn(w, longer, hits[k], j);
      }
    }
  }

  lemma AnsweredLonger(w: Watch, p: Step, before: seq<Occurrence>, added: seq<Occurrence>, i: nat)
    requires Fit(w) && Shaped(p) && Answered(w, p, before, i)
    ensures Answered(w, p, before + added, i)
  {
    var k: nat, hit: Occurrence :| Answers(w, p, before, i, k, hit);
    assert Answers(w, p, before + added, i, k, hit);
  }

  lemma StepAnsweredLonger(w: Watch, p: Step, before: seq<Occurrence>, added: seq<Occurrence>)
    requires Fit(w) && StepAnswered(w, p, before, None)
    ensures StepAnswered(w, p, before + added, None)
  {
    forall i: nat | Crossing(w, p, i)
      ensures Answered(w, p, before + added, i)
    {
      AnsweredLonger(w, p, before, added, i);
    }
  }

  lemma CompleteLonger(w: Watch, start: Sample, steps: seq<Step>, before: seq<Occurrence>, added: seq<Occurrence>)
    requires Fit(w) && Complete(w, start, steps, before)
    ensures Complete(w, start, steps, before + added)
  {
    var hits := before + added;
    forall i: nat | i < |w.specs| && w.event(start.time, start.state)[i] == 0.0
      ensures Shown(hits, i, start.time)
    {
      var k :| 0 <= k < |before| && before[k].index == i && before[k].time == start.time;
      assert hits[k] == before[k];
    }
    forall j | 0 <= j < |steps|
      ensures StepAnswered(w, steps[j], hits, None)
    {
      StepAnsweredLonger(w, steps[j], before, added);
    }
  }

  lemma ToleranceNonnegative(o: Options, t: real)
    requires o.absolute > 0.0 && o.relative >= 0.0
    ensures Tolerance(o, t) >= 0.0
  {
    assert o.relative * Abs(t) >= 0.0;
  }

  /** A step's reports answer its crossings. */
  lemma ReportsAnswer(w: Watch, p: Step, last: seq<Option<real>>, before: seq<Occurrence>, added: seq<Occurrence>, stop: Option<Sample>)
    requires Fit(w) && Shaped(p) && Backed(before, last) && StepReports(w, p, last, added, stop)
    ensures StepAnswered(w, p, before + added, stop)
  {
    forall i: nat | Crossing(w, p, i)
      ensures Answered(w, p, before + added, i) || Later(w, p, stop, i)
    {
      if Listed(added, i) {
        ListedAnswers(w, p, before, added, i);
      } else if Reported(w, p, last, i) {
        ReportedAnswers(w, p, last, before, i);
        AnsweredLonger(w, p, before, added, i);
      }
    }
  }

  lemma ListedAnswers(w: Watch, p: Step, before: seq<Occurrence>, added: seq<Occurrence>, i: nat)
    requires Fit(w) && Shaped(p) && AllFound(w, p, added) && Listed(added, i)
    ensures Answered(w, p, before + added, i)
  {
    var k :| 0 <= k < |added| && added[k].index == i;
    assert Found(w, p, added[k]);
    ToleranceNonnegative(w.options, added[k].time);
    assert Answers(w, p, before + added, i, |before| + k, added[k]);
  }

  lemma ReportedAnswers(w: Watch, p: Step, last: seq<Option<real>>, before: seq<Occurrence>, i: nat)
    requires Fit(w) && Shaped(p) && Backed(before, last) && Reported(w, p, last, i)
    ensures Answered(w, p, before, i)
  {
    var hit: Occurrence :| hit.index == i && Located(w.event, p, w.options, |w.specs|, hit)
      && Abs(hit.time - last[i].value) <= Tolerance(w.options, hit.time);
    assert Shown(before, i, last[i].value);
    var k: nat :| k < |before| && before[k].index == i && before[k].time == last[i].value;
    assert Answers(w, p, before, i, k, hit);
  }

  /** New events of a step come after the earlier ones. */
  lemma OrderedFurther(forward: bool, p: Step, before: seq<Occurrence>, added: seq<Occurrence>, time: real)
    requires Ordered(forward, before, p.t0) && p.t0 != p.t1 && forward == (p.t1 > p.t0) && Sorted(p, added)
    requires forall k :: 0 <= k < |added| ==> Along(p, p.t0) < Along(p, added[k].time) <= Ahead(forward, time)
    requires Ahead(forward, p.t0) <= Ahead(forward, time)
    ensures Ordered(forward, before + added, time)
  {
    var hits := before + added;
    forall i | 0 <= i < |hits|
      ensures hits[i] == if i < |before| then before[i] else added[i - |before|]
    {
    }
  }

  lemma FoundInside(w: Watch, p: Step, added: seq<Occurrence>)
    requires Fit(w) && Shaped(p) && AllFound(w, p, added)
    ensures forall k :: 0 <= k < |added| ==> Along(p, p.t0) < Along(p, added[k].time) <= Along(p, p.t1)
  {
    forall k | 0 <= k < |added|
      ensures Along(p, p.t0) < Along(p, added[k].time) <= Along(p, p.t1)
    {
      assert Found(w, p, added[k]);
      LocatedInside(w.event, p, w.options, |w.specs|, added[k]);
    }
  }

  /** A step without a stop keeps the log. */
  lemma RunsOn(w: Watch, forward: bool, start: Sample, steps: seq<Step>, p: Step, last: seq<Option<real>>, before: seq<Occurrence>, added: seq<Occurrence>)
    requires Fit(w) && Shaped(p) && forward == (p.t1 > p.t0) && Running(w, forward, start, steps, before)
    requires Sample(p.t0, p.y0) == Reach(start, steps) && Backed(before, last) && StepReports(w, p, last, added, None)
    ensures Running(w, forward, start, steps + [p], before + added)
  {
    FoundInside(w, p, added);
    OrderedFurther(forward, p, before, added, p.t1);
    SourcedFurther(w, start, steps, p, before, added);
    CompleteLonger(w, start, steps, before, added);
    ReportsAnswer(w, p, last, before, added, None);
  }

  /** A step with a terminal event ends the run inside it. */
  lemma HaltsInside(w: Watch, forward: bool, start: Sample, steps: seq<Step>, p: Step, last: seq<Option<real>>, before: seq<Occurrence>, added: seq<Occurrence>, at: Sample)
    requires Fit(w) && Shaped(p) && forward == (p.t1 > p.t0) && Running(w, forward, start, steps, before)
    requires Sample(p.t0, p.y0) == Reach(start, steps) && Backed(before, last) && StepReports(w, p, last, added, Some(at))
    ensures Halted(w, forward, start, steps + [p], before + added, at)
    ensures Ahead(forward, p.t0) < Ahead(forward, at.time) <= Ahead(forward, p.t1)
  {
    FoundInside(w, p, added);
    TerminalLater(w.specs, before, added, at);
    OrderedFurther(forward, p, before, added, at.time);
    SourcedFurther(w, start, steps, p, before, added);
    CompleteLonger(w, start, steps, before, added);
    ReportsAnswer(w, p, last, before, added, Some(at));
    assert (steps + [p])[..|steps|] == steps;
  }

  lemma TerminalLater(specs: seq<Spec>, before: seq<Occurrence>, added: seq<Occurrence>, at: Sample)
    requires Quiet(specs, before) && Halts(specs, added, at)
    ensures Halts(specs, before + added, at) && exists k :: 0 <= k < |added| && added[k].time == at.time
  {
    var hits := before + added;
    var q :| 0 <= q < |added| && Terminal(specs, added[q]) && Sample(added[q].time, added[q].state) == at;
    assert hits[|before| + q] == added[q];
    forall k | 0 <= k < |hits|
      ensures hits[k] == if k < |before| then before[k] else added[k - |before|]
    {
    }
  }

  /** The log before the first step. */
  lemma LogStarts(w: Watch, forward: bool, start: Sample, hits: seq<Occurrence>)
    requires Fit(w) && forall k :: 0 <= k < |hits| ==> AtStart(w, start, hits[k])
    requires forall i: nat :: i < |w.specs| && w.event(start.time, start.state)[i] == 0.0 ==> Listed(hits, i)
    ensures Quiet(w.specs, hits) ==> Running(w, forward, start, [], hits)
    ensures !Quiet(w.specs, hits) ==> Halted(w, forward, start, [], hits, start)
  {
    forall i: nat | i < |w.specs| && w.event(start.time, start.state)[i] == 0.0
      ensures Shown(hits, i, start.time)
    {
      var k :| 0 <= k < |hits| && hits[k].index == i;
      assert AtStart(w, start, hits[k]);
    }
    assert AllSourced(w, start, [], hits);
  }
}
