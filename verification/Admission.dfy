/** Which queued requests an admission round takes, and what it leaves in the queue. */
module Admission {
  import opened Wrappers
  import opened Protocol
  import opened PagedKv
  import opened SchedulerTies

  /** A request that may be admitted: not deferred, and below the ceiling if there is one. */
  predicate Ready(deferred: set<nat>, ceiling: Option<nat>, p: Pending) {
    p.id !in deferred && (ceiling.Some? ==> p.id < ceiling.value)
  }

  /** The ready requests in queue order. */
  function ReadyIn(deferred: set<nat>, ceiling: Option<nat>, queue: seq<Pending>): seq<Pending> {
    if queue == [] then []
    else (if Ready(deferred, ceiling, queue[0]) then [queue[0]] else []) + ReadyIn(deferred, ceiling, queue[1..])
  }

  /** The queue without its first `count` ready requests. */
  function Leftover(deferred: set<nat>, ceiling: Option<nat>, queue: seq<Pending>, count: nat): seq<Pending> {
    if queue == [] || count == 0 then queue
    else if Ready(deferred, ceiling, queue[0]) then Leftover(deferred, ceiling, queue[1..], count - 1)
    else [queue[0]] + Leftover(deferred, ceiling, queue[1..], count)
  }

  lemma {:induction false} FirstReadyTaken(deferred: set<nat>, ceiling: Option<nat>, queue: seq<Pending>, position: nat)
    requires position < |queue| && Ready(deferred, ceiling, queue[position])
    requires forall i :: 0 <= i < position ==> !Ready(deferred, ceiling, queue[i])
    ensures var ready := ReadyIn(deferred, ceiling, queue); ready != [] && ready[0] == queue[position]
    ensures Leftover(deferred, ceiling, queue, 1) == Remove(queue, position)
  {
    if position > 0 {
      FirstReadyTaken(deferred, ceiling, queue[1..], position - 1);
      assert [queue[0]] + Remove(queue[1..], position - 1) == Remove(queue, position);
    } else {
      assert Remove(queue, 0) == queue[1..];
    }
  }

  lemma {:induction false} NoneReady(deferred: set<nat>, ceiling: Option<nat>, queue: seq<Pending>)
    requires forall i :: 0 <= i < |queue| ==> !Ready(deferred, ceiling, queue[i])
    ensures ReadyIn(deferred, ceiling, queue) == []
  {
    if queue != [] {
      NoneReady(deferred, ceiling, queue[1..]);
    }
  }

  lemma {:induction false} LeftoverReady(deferred: set<nat>, ceiling: Option<nat>, queue: seq<Pending>, count: nat)
    requires count <= |ReadyIn(deferred, ceiling, queue)|
    ensures ReadyIn(deferred, ceiling, Leftover(deferred, ceiling, queue, count)) == ReadyIn(deferred, ceiling, queue)[count..]
    ensures |Leftover(deferred, ceiling, queue, count)| == |queue| - count
  {
    if queue != [] && count > 0 {
      var rest := queue[1..];
      if Ready(deferred, ceiling, queue[0]) {
        LeftoverReady(deferred, ceiling, rest, count - 1);
      } else {
        LeftoverReady(deferred, ceiling, rest, count);
        var left := Leftover(deferred, ceiling, rest, count);
        assert ([queue[0]] + left)[1..] == left;
      }
    }
  }

  lemma {:induction false} LeftoverNext(deferred: set<nat>, ceiling: Option<nat>, queue: seq<Pending>, count: nat)
    ensures Leftover(deferred, ceiling, Leftover(deferred, ceiling, queue, count), 1) == Leftover(deferred, ceiling, queue, count + 1)
  {
    if queue != [] && count > 0 {
      var rest := queue[1..];
      if Ready(deferred, ceiling, queue[0]) {
        LeftoverNext(deferred, ceiling, rest, count - 1);
      } else {
        LeftoverNext(deferred, ceiling, rest, count);
        var left := Leftover(deferred, ceiling, rest, count);
        assert ([queue[0]] + left)[1..] == left;
      }
    }
  }

  /**
   A round has admitted the first `count` ready requests of the queue, in order and with consecutive admission
   numbers from `first` on; they start from their prompts with nothing cached, and nothing else has changed.
   */
  ghost predicate Promoted(deferred: set<nat>, ceiling: Option<nat>, p: State, first: nat, count: nat, p': State) {
    var ready := ReadyIn(deferred, ceiling, p.pending);
    && count <= |ready| && p'.pending == Leftover(deferred, ceiling, p.pending, count)
    && (forall i :: 0 <= i < count ==> AdmittedAs(p', ready[i], first + i))
    && (forall id :: id in p.active ==> StaysActive(p, p', id))
    && (forall id :: id in p'.active && id !in p.active ==> exists i :: 0 <= i < count && ready[i].id == id)
  }

  lemma PromotedSome(deferred: set<nat>, ceiling: Option<nat>, p: State, first: nat, count: nat, p': State)
    requires Promoted(deferred, ceiling, p, first, count, p')
    ensures p.active.Keys <= p'.active.Keys && (p'.pending == p.pending || p'.active != map[])
  {
    forall id | id in p.active
      ensures id in p'.active
    {
      assert StaysActive(p, p', id);
    }
    if count > 0 {
      assert AdmittedAs(p', ReadyIn(deferred, ceiling, p.pending)[0], first + 0);
    }
  }

  ghost predicate StaysActive(p: State, p': State, id: nat) {
    && id in p.active && id in p'.active && id in p.stored && id in p'.stored
    && p'.active[id] == p.active[id] && p'.stored[id] == p.stored[id]
  }

  ghost predicate AdmittedAs(p: State, request: Pending, admitted: nat) {
    && request.id in p.active && request.id in p.stored && p.stored[request.id] == []
    && p.active[request.id] == ActiveRequest(request.spec, [], request.spec.prompt, admitted, NeedsPrefill)
  }

  lemma PromotedNext(deferred: set<nat>, ceiling: Option<nat>, p: State, first: nat, count: nat, p': State, position: nat)
    requires Promoted(deferred, ceiling, p, first, count, p') && position < |p'.pending|
    requires p'.pending[position].id !in p'.active
    requires Ready(deferred, ceiling, p'.pending[position])
    requires forall i :: 0 <= i < position ==> !Ready(deferred, ceiling, p'.pending[i])
    ensures Promoted(deferred, ceiling, p, first, count + 1, AdmitTo(p', position, 0, first + count))
  {
    var ready := ReadyIn(deferred, ceiling, p.pending);
    FirstReadyTaken(deferred, ceiling, p'.pending, position);
    LeftoverReady(deferred, ceiling, p.pending, count);
    LeftoverNext(deferred, ceiling, p.pending, count);
    assert ready[count] == p'.pending[position];
    var p'' := AdmitTo(p', position, 0, first + count);
    forall i | 0 <= i < count + 1
      ensures AdmittedAs(p'', ready[i], first + i)
    {
      assert i < count ==> AdmittedAs(p', ready[i], first + i);
    }
    forall id | id in p''.active && id !in p.active
      ensures exists i :: 0 <= i < count + 1 && ready[i].id == id
    {
      if id in p'.active {
        var i :| 0 <= i < count && ready[i].id == id;
      } else {
        assert ready[count].id == id;
      }
    }
  }

  /** One admission: the first ready request leaves the queue. */
  ghost predicate Admits(deferred: set<nat>, ceiling: Option<nat>, position: nat, first: nat, count: nat, e: seq<Event>, p: State, k: Cache, e': seq<Event>, p': State, k': Cache) {
    && position < |p.pending| && p.pending[position].id !in p.active && Ready(deferred, ceiling, p.pending[position])
    && (forall i :: 0 <= i < position ==> !Ready(deferred, ceiling, p.pending[i]))
    && p' == AdmitTo(p, position, 0, first + count) && Planned(e, p, k, e', p', k')
  }

  /** A round of `count` admissions, one after the other. */
  ghost predicate Round(deferred: set<nat>, ceiling: Option<nat>, e: seq<Event>, p: State, k: Cache, first: nat, count: nat, e': seq<Event>, p': State, k': Cache)
    decreases count, 0
  {
    if count == 0 then e' == e && p' == p && k' == k
    else RoundThen(deferred, ceiling, e, p, k, first, count - 1, e', p', k')
  }

  ghost predicate RoundThen(deferred: set<nat>, ceiling: Option<nat>, e: seq<Event>, p: State, k: Cache, first: nat, count: nat, e': seq<Event>, p': State, k': Cache)
    decreases count, 1
  {
    exists position: nat, e1, p1, k1 ::
      Round(deferred, ceiling, e, p, k, first, count, e1, p1, k1) &&
      Admits(deferred, ceiling, position, first, count, e1, p1, k1, e', p', k')
  }

  lemma RoundNext(deferred: set<nat>, ceiling: Option<nat>, e: seq<Event>, p: State, k: Cache, first: nat, count: nat, e1: seq<Event>, p1: State, k1: Cache, position: nat, e': seq<Event>, p': State, k': Cache)
    requires Round(deferred, ceiling, e, p, k, first, count, e1, p1, k1)
    requires Admits(deferred, ceiling, position, first, count, e1, p1, k1, e', p', k')
    ensures Round(deferred, ceiling, e, p, k, first, count + 1, e', p', k')
  {
    assert RoundThen(deferred, ceiling, e, p, k, first, count, e', p', k');
  }

  lemma {:induction false} RoundPlanned(deferred: set<nat>, ceiling: Option<nat>, e: seq<Event>, p: State, k: Cache, first: nat, count: nat, e': seq<Event>, p': State, k': Cache)
    requires Tied(p, k) && Round(deferred, ceiling, e, p, k, first, count, e', p', k')
    ensures Planned(e, p, k, e', p', k')
    decreases count, 0
  {
    if count == 0 {
      PlannedNothing(e, p, k);
    } else {
      RoundThenPlanned(deferred, ceiling, e, p, k, first, count - 1, e', p', k');
    }
  }

  lemma RoundThenPlanned(deferred: set<nat>, ceiling: Option<nat>, e: seq<Event>, p: State, k: Cache, first: nat, count: nat, e': seq<Event>, p': State, k': Cache)
    requires Tied(p, k) && RoundThen(deferred, ceiling, e, p, k, first, count, e', p', k')
    ensures Planned(e, p, k, e', p', k')
    decreases count, 1
  {
    var position: nat, e1, p1, k1 :|
      && Round(deferred, ceiling, e, p, k, first, count, e1, p1, k1)
      && Admits(deferred, ceiling, position, first, count, e1, p1, k1, e', p', k');
    RoundPlanned(deferred, ceiling, e, p, k, first, count, e1, p1, k1);
    PlannedThen(e, p, k, e1, p1, k1, e', p', k');
  }

  lemma {:induction false} RoundPromoted(deferred: set<nat>, ceiling: Option<nat>, e: seq<Event>, p: State, k: Cache, first: nat, count: nat, e': seq<Event>, p': State, k': Cache)
    requires Tied(p, k) && Round(deferred, ceiling, e, p, k, first, count, e', p', k')
    ensures Promoted(deferred, ceiling, p, first, count, p')
    decreases count, 0
  {
    if count > 0 {
      RoundThenPromoted(deferred, ceiling, e, p, k, first, count - 1, e', p', k');
    }
  }

  lemma RoundThenPromoted(deferred: set<nat>, ceiling: Option<nat>, e: seq<Event>, p: State, k: Cache, first: nat, count: nat, e': seq<Event>, p': State, k': Cache)
    requires Tied(p, k) && RoundThen(deferred, ceiling, e, p, k, first, count, e', p', k')
    ensures Promoted(deferred, ceiling, p, first, count + 1, p')
    decreases count, 1
  {
    var position: nat, e1, p1, k1 :|
      && Round(deferred, ceiling, e, p, k, first, count, e1, p1, k1)
      && Admits(deferred, ceiling, position, first, count, e1, p1, k1, e', p', k');
    RoundPromoted(deferred, ceiling, e, p, k, first, count, e1, p1, k1);
    PromotedNext(deferred, ceiling, p, first, count, p1, position);
  }
}
