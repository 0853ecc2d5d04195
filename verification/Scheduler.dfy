/**
 The continuous-batching scheduler itself: the loops that admit, preempt, collect rows, and apply
 device results. Every method is proved to perform protocol events, so each object carries a legal
 run (`events`) whose final state is its own, and everything proved about runs holds of it.
 */
module Scheduler {
  import opened Wrappers
  import opened Arithmetic
  import opened Generation
  import opened Protocol
  import opened ProtocolSafety
  import opened ProtocolRuns
  import opened PagedKv
  import opened SchedulerTies
  import opened Admission

  const U64_MAX: nat := 0xFFFF_FFFF_FFFF_FFFF

  datatype Speculative = Speculative(draftTokens: nat, ngram: nat)

  // ----- continuing a run -----

  lemma ExtendRun(events: seq<Event>, e: Event)
    requires Legal(events) && LegalThen(events, e)
    ensures Legal(events + [e]) && After(events + [e]) == AfterThen(events, e)
  {
    assert (events + [e])[..|events|] == events;
  }

  lemma SubmitStep(events: seq<Event>, spec: Spec)
    requires Legal(events) && spec.prompt != []
    ensures LegalThen(events, Submit(spec)) && AfterThen(events, Submit(spec)) == SubmitTo(After(events), spec)
  {
  }

  lemma AdmitStep(events: seq<Event>, position: nat, admitted: nat)
    requires Legal(events) && position < |After(events).pending| && After(events).pending[position].spec.prompt != []
    ensures LegalThen(events, Admit(position, 0, admitted))
    ensures AfterThen(events, Admit(position, 0, admitted)) == AdmitTo(After(events), position, 0, admitted)
  {
  }

  lemma PreemptStep(events: seq<Event>, id: nat)
    requires Legal(events) && id in After(events).active && !After(events).active[id].phase.InFlight?
    ensures LegalThen(events, Preempt(id)) && AfterThen(events, Preempt(id)) == PreemptIn(After(events), id)
  {
  }

  lemma LaunchStep(events: seq<Event>, batch: Batch)
    requires Legal(events) && LaunchEnabled(After(events), batch)
    ensures LegalThen(events, Launch(batch)) && AfterThen(events, Launch(batch)) == LaunchIn(After(events), batch)
  {
  }

  ghost predicate Fits(p: State, maxLength: nat) {
    forall id :: id in p.submitted ==> |p.submitted[id].prompt| + p.submitted[id].maxNew <= maxLength
  }

  /**
   The run ends in the state `p`, and the manager's sequences belong to its requests. Like `Sound` it
   stands behind a recursion; `LinkedMeans` opens it.
   */
  ghost predicate LinkedAt(depth: nat, events: seq<Event>, p: State, k: Cache) {
    if depth == 0 then Legal(events) && After(events) == p && Tied(p, k) && Fits(p, k.config.maxLength)
    else LinkedAt(depth - 1, events, p, k)
  }

  ghost predicate Linked(events: seq<Event>, p: State, k: Cache) {
    LinkedAt(1 + |events|, events, p, k)
  }

  lemma {:induction false} LinkedAtMeans(depth: nat, events: seq<Event>, p: State, k: Cache)
    ensures LinkedAt(depth, events, p, k) <==>
      Legal(events) && After(events) == p && Tied(p, k) && Fits(p, k.config.maxLength)
  {
    if depth > 0 {
      LinkedAtMeans(depth - 1, events, p, k);
    }
  }

  lemma LinkedMeans(events: seq<Event>, p: State, k: Cache)
    ensures Linked(events, p, k) <==> Legal(events) && After(events) == p && Tied(p, k) && Fits(p, k.config.maxLength)
  {
    LinkedAtMeans(1 + |events|, events, p, k);
  }

  // ----- drafting -----

  /** The last `n` tokens of the history also occur at `start`, before the end. */
  ghost predicate Occurs(history: seq<int>, n: nat, start: nat) {
    1 <= n && start + n < |history| && history[start..start + n] == history[|history| - n..]
  }

  ghost predicate NoOccurrence(history: seq<int>, n: nat, from: nat) {
    forall start :: from <= start ==> !Occurs(history, n, start)
  }

  /** The draft continues the latest earlier occurrence of the longest suffix that has one. */
  ghost predicate DraftAt(history: seq<int>, ngram: nat, draftTokens: nat, draft: seq<int>, n: nat, start: nat) {
    && 1 <= n <= ngram && Occurs(history, n, start) && NoOccurrence(history, n, start + 1)
    && (forall m :: n < m <= ngram ==> NoOccurrence(history, m, 0))
    && draft == history[start + n..if start + n + draftTokens < |history| then start + n + draftTokens else |history|]
    && 0 < |draft| <= draftTokens
  }

  ghost predicate NoDraft(history: seq<int>, ngram: nat) {
    forall m :: 1 <= m <= ngram ==> NoOccurrence(history, m, 0)
  }

  function Padded(draft: seq<int>, count: nat): (r: seq<int>)
    requires 0 < |draft| <= count
    ensures |r| == count
  {
    draft + seq(count - |draft|, _ => draft[|draft| - 1])
  }

  /** A verification row: the token to decode, then the request's own draft, its last token repeated up to the width. */
  ghost predicate DraftedRow(r: ActiveRequest, config: Speculative, tokens: seq<int>) {
    r.phase.AwaitingDecode? &&
    exists draft, n: nat, start: nat ::
      DraftAt(r.history, config.ngram, config.draftTokens, draft, n, start) && tokens == [r.phase.token] + Padded(draft, config.draftTokens)
  }

  ghost predicate AllDrafted(active: map<nat, ActiveRequest>, config: Speculative, rows: seq<Row>) {
    forall i :: 0 <= i < |rows| ==> rows[i].id in active && DraftedRow(active[rows[i].id], config, rows[i].tokens)
  }

  /** A request with a draft whose row fits. */
  ghost predicate DraftFits(active: map<nat, ActiveRequest>, k: Cache, config: Speculative, id: nat) {
    && k.config.blockSize > 0 && id in active && active[id].phase.AwaitingDecode?
    && active[id].spec.greedy && |active[id].generated| + 2 <= active[id].spec.maxNew
    && !NoDraft(active[id].history, config.ngram) && CanAppend(k, id, config.draftTokens + 1)
  }

  /**
   `ngram_draft`: the continuation of the most recent earlier occurrence of the longest suffix of at
   most `ngram` tokens that occurs earlier; empty exactly when not even the last token does.
   */
  method NgramDraft(history: seq<int>, ngram: nat, draftTokens: nat) returns (draft: seq<int>, ghost n: nat, ghost start: nat)
    requires draftTokens > 0
    ensures draft != [] ==> DraftAt(history, ngram, draftTokens, draft, n, start) && !NoDraft(history, ngram)
    ensures draft == [] ==> NoDraft(history, ngram)
  {
    draft, n, start := [], 0, 0;
    var limit := if |history| == 0 then 0 else |history| - 1;
    var length := if ngram < limit then ngram else limit;
    while length >= 1
      invariant 0 <= length <= ngram && length <= limit
      invariant forall m :: length < m <= ngram ==> NoOccurrence(history, m, 0)
      decreases length
    {
      var at := |history| - length;
      while at > 0
        invariant 0 <= at <= |history| - length
        invariant NoOccurrence(history, length, at)
        decreases at
      {
        at := at - 1;
        if history[at..at + length] == history[|history| - length..] {
          var from := at + length;
          var to := if from + draftTokens < |history| then from + draftTokens else |history|;
          assert Occurs(history, length, at) && !NoOccurrence(history, length, 0);
          draft, n, start := history[from..to], length, at;
          return;
        }
      }
      length := length - 1;
    }
  }

  // ----- facts about one step, kept away from the heap -----

  lemma SubmitTied(p: State, k: Cache, spec: Spec)
    requires Tied(p, k)
    ensures Tied(SubmitTo(p, spec), k)
  {
  }

  /** Where a pending request stands once it has been admitted with an empty sequence. */
  lemma AdmitTied(p: State, k: Cache, k': Cache, position: nat, admitted: nat)
    requires Tied(p, k) && position < |p.pending| && p.pending[position].id !in p.active
    requires k'.sequences == k.sequences[p.pending[position].id := Sequence(0, [], None)] && k'.reservations == k.reservations
    requires p.inFlight.None?
    ensures Tied(AdmitTo(p, position, 0, admitted), k')
  {
  }

  lemma PendingNotActive(events: seq<Event>, position: nat)
    requires Legal(events) && position < |After(events).pending|
    ensures var p := After(events); p.pending[position].id !in p.active && p.pending[position].spec.prompt != []
  {
    RunsAreSafe(events);
    var p := After(events);
    assert p.pending[position].id in PendingIds(p.pending);
  }

  lemma SubmitFits(p: State, spec: Spec, maxLength: nat)
    requires Fits(p, maxLength) && |spec.prompt| + spec.maxNew <= maxLength
    ensures Fits(SubmitTo(p, spec), maxLength)
  {
  }

  lemma PreemptTied(p: State, k: Cache, k': Cache, id: nat)
    requires Tied(p, k) && p.inFlight.None? && id in p.active
    requires k'.sequences == (k.sequences - {id})[id := Sequence(0, [], None)] && k'.reservations == k.reservations
    ensures Tied(PreemptIn(p, id), k')
    ensures Holders(k') == Holders(k) - {id}
  {
    forall x | x in Holders(k) - {id}
      ensures x in Holders(k')
    {
      assert Holder(k', x);
    }
    forall x | x in Holders(k')
      ensures x in Holders(k) - {id}
    {
      assert Holder(k', x);
      assert x != id && Holder(k, x);
    }
  }

  lemma CompleteStep(events: seq<Event>, tokens: seq<int>)
    requires Legal(events) && After(events).inFlight.Some? && After(events).inFlight.value.kind != Verify
    requires |tokens| == |After(events).inFlight.value.rows|
    ensures LegalThen(events, Complete(tokens))
    ensures AfterThen(events, Complete(tokens)) ==
      CompleteRows(After(events).(inFlight := None), After(events).inFlight.value.rows, tokens, 0)
  {
  }

  lemma CompleteVerifyStep(events: seq<Event>, argmax: seq<int>)
    requires Legal(events) && After(events).inFlight.Some? && After(events).inFlight.value.kind == Verify
    requires |argmax| == |After(events).inFlight.value.rows| * After(events).inFlight.value.Width()
    ensures LegalThen(events, CompleteVerify(argmax))
    ensures AfterThen(events, CompleteVerify(argmax)) ==
      CompleteVerifyRows(After(events).(inFlight := None), After(events).inFlight.value.rows, argmax,
                         After(events).inFlight.value.Width(), 0)
  {
  }

  lemma FailStep(events: seq<Event>)
    requires Legal(events) && After(events).inFlight.Some?
    ensures LegalThen(events, Fail)
    ensures AfterThen(events, Fail) ==
      FailRows(After(events).(inFlight := None), After(events).inFlight.value.kind, After(events).inFlight.value.rows, 0)
  {
  }

  lemma CancelStep(events: seq<Event>, id: nat)
    requires Legal(events)
    requires
      if id in After(events).active then !After(events).active[id].phase.InFlight?
      else exists i :: 0 <= i < |After(events).pending| && After(events).pending[i].id == id
    ensures LegalThen(events, Cancel(id)) && AfterThen(events, Cancel(id)) == CancelIn(After(events), id)
  {
  }

  // ----- one more event keeps the link -----

  /** A batch in flight, as the result-applying loops need it. */
  lemma FlightReady(events: seq<Event>, p: State, k: Cache)
    requires Linked(events, p, k) && p.inFlight.Some?
    ensures var batch := p.inFlight.value;
      && FlightTied(p.(inFlight := None), k, batch.rows) && batch.rows != []
      && batch.Width() > 0 && UniformRows(batch.rows, batch.Width())
  {
    LinkedMeans(events, p, k);
    RunsAreSafe(events);
    InFlightTied(p, k);
    assert FlightTied(p.(inFlight := None), k, p.inFlight.value.rows);
    var batch := p.inFlight.value;
    forall i | 0 <= i < |batch.rows|
      ensures batch.rows[i].tokens != []
    {
      assert InFlightRow(p, batch.kind, batch.id, batch.rows[i]);
    }
  }

  /** Whatever applying the results did, a tied state at the end continues the run. */
  lemma CompleteLinked(events: seq<Event>, p: State, k: Cache, k': Cache, tokens: seq<int>, p': State)
    requires Linked(events, p, k) && p.inFlight.Some? && p.inFlight.value.kind != Verify
    requires |tokens| == |p.inFlight.value.rows| && k'.config == k.config
    requires p' == CompleteRows(p.(inFlight := None), p.inFlight.value.rows, tokens, 0) && Tied(p', k')
    ensures Linked(events + [Complete(tokens)], p', k')
  {
    LinkedMeans(events, p, k);
    CompleteStep(events, tokens);
    ExtendRun(events, Complete(tokens));
    CompleteFits(p.(inFlight := None), p.inFlight.value.rows, tokens, 0);
    LinkedMeans(events + [Complete(tokens)], p', k');
  }

  lemma {:induction false} CompleteFits(p: State, rows: seq<Row>, tokens: seq<int>, i: nat)
    requires |rows| == |tokens|
    ensures CompleteRows(p, rows, tokens, i).submitted == p.submitted
    decreases |rows| - i
  {
    if i < |rows| {
      CompleteFits(CompleteRow(p, rows[i], tokens[i]), rows, tokens, i + 1);
    }
  }

  lemma CompleteVerifyLinked(events: seq<Event>, p: State, k: Cache, k': Cache, argmax: seq<int>, p': State)
    requires Linked(events, p, k) && p.inFlight.Some? && p.inFlight.value.kind == Verify
    requires |argmax| == |p.inFlight.value.rows| * p.inFlight.value.Width() && k'.config == k.config
    requires p' == CompleteVerifyRows(p.(inFlight := None), p.inFlight.value.rows, argmax, p.inFlight.value.Width(), 0)
    requires Tied(p', k')
    ensures Linked(events + [CompleteVerify(argmax)], p', k')
  {
    LinkedMeans(events, p, k);
    CompleteVerifyStep(events, argmax);
    ExtendRun(events, CompleteVerify(argmax));
    CompleteVerifyFits(p.(inFlight := None), p.inFlight.value.rows, argmax, p.inFlight.value.Width(), 0);
    LinkedMeans(events + [CompleteVerify(argmax)], p', k');
  }

  lemma {:induction false} CompleteVerifyFits(p: State, rows: seq<Row>, argmax: seq<int>, width: nat, i: nat)
    ensures CompleteVerifyRows(p, rows, argmax, width, i).submitted == p.submitted
    decreases |rows| - i
  {
    if i < |rows| {
      CompleteVerifyFits(CompleteVerifyRow(p, rows[i], Predictions(argmax, width, i)), rows, argmax, width, i + 1);
    }
  }

  lemma VerifyReady(p: State, k: Cache, rows: seq<Row>)
    requires FlightTied(p, k, rows) && p.inFlight.None?
    ensures TiedRows(p, k, rows, 0)
  {
  }

  lemma FailLinked(events: seq<Event>, p: State, k: Cache, k': Cache)
    requires Linked(events, p, k) && p.inFlight.Some? && k'.config == k.config
    requires GroupOk(k, Group(p.inFlight.value.rows, false))
    requires GroupSettled(k, k', Group(p.inFlight.value.rows, false), |p.inFlight.value.rows|)
    ensures Linked(events + [Fail], FailRows(p.(inFlight := None), p.inFlight.value.kind, p.inFlight.value.rows, 0), k')
  {
    var batch := p.inFlight.value;
    var p' := FailRows(p.(inFlight := None), batch.kind, batch.rows, 0);
    FlightReady(events, p, k);
    LinkedMeans(events, p, k);
    assert forall i :: 0 <= i < |batch.rows| ==> |batch.rows[i].tokens| == batch.Width();
    CancelledTied(p.(inFlight := None), k, k', batch.kind, batch.rows);
    FailStep(events);
    ExtendRun(events, Fail);
    FailRowsEffect(p.(inFlight := None), batch.kind, batch.rows, 0);
    LinkedMeans(events + [Fail], p', k');
  }

  lemma SubmitLinked(events: seq<Event>, p: State, k: Cache, spec: Spec)
    requires Linked(events, p, k) && spec.prompt != [] && |spec.prompt| + spec.maxNew <= k.config.maxLength
    ensures Linked(events + [Submit(spec)], SubmitTo(p, spec), k)
  {
    LinkedMeans(events, p, k);
    SubmitStep(events, spec);
    ExtendRun(events, Submit(spec));
    SubmitTied(p, k, spec);
    SubmitFits(p, spec, k.config.maxLength);
    LinkedMeans(events + [Submit(spec)], SubmitTo(p, spec), k);
  }

  lemma AdmitReady(events: seq<Event>, p: State, k: Cache, position: nat)
    requires Linked(events, p, k) && position < |p.pending|
    ensures p.pending[position].id !in p.active && p.pending[position].id !in k.sequences
    ensures p.pending[position].spec.prompt != []
  {
    LinkedMeans(events, p, k);
    PendingNotActive(events, position);
  }

  lemma AdmitLinked(events: seq<Event>, p: State, k: Cache, k': Cache, position: nat, admitted: nat)
    requires Linked(events, p, k) && p.inFlight.None? && position < |p.pending|
    requires k' == k.(sequences := k.sequences[p.pending[position].id := Sequence(0, [], None)])
    ensures Linked(events + [Admit(position, 0, admitted)], AdmitTo(p, position, 0, admitted), k')
    ensures Planned(events, p, k, events + [Admit(position, 0, admitted)], AdmitTo(p, position, 0, admitted), k')
  {
    AdmitReady(events, p, k, position);
    LinkedMeans(events, p, k);
    AdmitPlanned(events, p, k, k', position, admitted);
    AdmitStaysLinked(events, p, k, k', position, admitted);
  }

  lemma AdmitStaysLinked(events: seq<Event>, p: State, k: Cache, k': Cache, position: nat, admitted: nat)
    requires Linked(events, p, k) && p.inFlight.None? && position < |p.pending|
    requires k' == k.(sequences := k.sequences[p.pending[position].id := Sequence(0, [], None)])
    ensures Linked(events + [Admit(position, 0, admitted)], AdmitTo(p, position, 0, admitted), k')
  {
    AdmitReady(events, p, k, position);
    LinkedMeans(events, p, k);
    AdmitStep(events, position, admitted);
    ExtendRun(events, Admit(position, 0, admitted));
    AdmitTied(p, k, k', position, admitted);
    LinkedMeans(events + [Admit(position, 0, admitted)], AdmitTo(p, position, 0, admitted), k');
  }

  lemma NothingPlanned(events: seq<Event>, p: State, k: Cache)
    requires Linked(events, p, k)
    ensures Planned(events, p, k, events, p, k)
  {
    LinkedMeans(events, p, k);
    PlannedNothing(events, p, k);
  }

  lemma PreemptReady(events: seq<Event>, p: State, k: Cache, id: nat)
    requires Linked(events, p, k) && id in p.active && !p.active[id].phase.InFlight?
    ensures id in k.sequences && k.sequences[id].pending.None?
  {
    LinkedMeans(events, p, k);
  }

  lemma PreemptLinked(events: seq<Event>, p: State, k: Cache, k': Cache, id: nat)
    requires Linked(events, p, k) && p.inFlight.None? && id in p.active && !p.active[id].phase.InFlight? && Holder(k, id)
    requires k'.sequences == (k.sequences - {id})[id := Sequence(0, [], None)] && k'.reservations == k.reservations
    requires k'.config == k.config
    ensures Linked(events + [Preempt(id)], PreemptIn(p, id), k')
    ensures |Holders(k')| < |Holders(k)| && Planned(events, p, k, events + [Preempt(id)], PreemptIn(p, id), k')
  {
    LinkedMeans(events, p, k);
    PreemptPlanned(events, p, k, k', id);
    PreemptStep(events, id);
    ExtendRun(events, Preempt(id));
    PreemptTied(p, k, k', id);
    assert id in Holders(k);
    LinkedMeans(events + [Preempt(id)], PreemptIn(p, id), k');
  }

  lemma LaunchLinked(events: seq<Event>, p: State, k0: Cache, k: Cache, batch: Batch)
    requires Linked(events, p, k0) && p.inFlight.None? && batch.id == p.nextBatch && batch.rows != []
    requires Collected(p, k0, k, batch.kind, batch.rows) && UniformRows(batch.rows, batch.Width())
    ensures Linked(events + [Launch(batch)], LaunchIn(p, batch), k)
    ensures Planned(events, p, k0, events + [Launch(batch)], LaunchIn(p, batch), k)
  {
    LinkedMeans(events, p, k0);
    LaunchPlanned(events, p, k0, k, batch);
    CollectedFlat(p, k0, k, batch.kind, batch.rows);
    ReservedRowsLaunch(p, k0, k, batch.kind, batch.rows, batch.Width());
    LaunchStep(events, batch);
    ExtendRun(events, Launch(batch));
    LaunchTied(p, k0, k, batch);
    LaunchFits(p, batch, k.config.maxLength);
    LinkedMeans(events + [Launch(batch)], LaunchIn(p, batch), k);
  }

  lemma LaunchFits(p: State, batch: Batch, maxLength: nat)
    requires Fits(p, maxLength)
    ensures Fits(LaunchIn(p, batch), maxLength)
  {
    LaunchRowsEffect(p.(inFlight := Some(batch), nextBatch := p.nextBatch + 1), batch.id, batch.rows, 0);
  }

  /** `BTreeMap` iteration order. */
  method SortedIds(ids: set<nat>) returns (sorted: seq<nat>)
    ensures Ascending(sorted) && PageSet(sorted) == ids
  {
    var rest;
    sorted, rest := TakeLowest(ids, |ids|);
    AllTaken(ids, sorted);
  }

  lemma AllTaken(ids: set<nat>, sorted: seq<nat>)
    requires Ascending(sorted) && |sorted| == |ids| && PageSet(sorted) <= ids
    ensures PageSet(sorted) == ids
  {
    AscendingSize(sorted);
    SameSize(PageSet(sorted), ids);
  }

  lemma {:induction false} AscendingSize(sorted: seq<nat>)
    requires Ascending(sorted)
    ensures |PageSet(sorted)| == |sorted|
  {
    if sorted != [] {
      LastPage(sorted);
      AscendingSize(sorted[..|sorted| - 1]);
    }
  }

  lemma {:induction false} SameSize(a: set<nat>, b: set<nat>)
    requires a <= b && |a| == |b|
    ensures a == b
  {
    if x :| x in b && x !in a {
      SubsetSize(a, b - {x});
    }
  }

  /** Which kind of batch goes first, from the two turns and what fits. */
  predicate InTurn(kind: Kind, preferPrefill: bool, speculativeTurn: bool, noPrefill: bool, noDecode: bool, noDraft: bool) {
    match kind
    case Prefill => preferPrefill || noDecode
    case Verify => (preferPrefill ==> noPrefill) && !speculativeTurn
    case Decode => (preferPrefill ==> noPrefill) && (speculativeTurn || noDraft)
  }

  /** A prefill row was able to prefill. */
  lemma FittedThen(v: View, k: Cache, rows: seq<Row>)
    requires rows != [] && FromFullest(v, k, rows)
    ensures exists id :: PrefillFits(v.active, v.k, v.deferred, v.chunk, v.budget, id)
  {
    var buckets: Buckets, best :| FromBucket(v, k, buckets, best, rows);
    assert rows[0].id in buckets[best];
    var i :| 0 <= i < |buckets[best]| && buckets[best][i] == rows[0].id;
    assert KeyOf(v, best, buckets[best][i]);
  }

  // ----- drafts that fit -----

  function Ids(candidates: seq<(nat, seq<int>)>): (ids: seq<nat>)
    ensures |ids| == |candidates|
  {
    seq(|candidates|, (i: nat) requires i < |candidates| => candidates[i].0)
  }

  lemma IdsAppend(candidates: seq<(nat, seq<int>)>, id: nat, draft: seq<int>)
    ensures Ids(candidates + [(id, draft)]) == Ids(candidates) + [id]
  {
  }

  /** The rows are the candidates' in order; unless the batch is full, the candidates are all the requests with a draft. */
  ghost predicate DraftsThorough(active: map<nat, ActiveRequest>, k0: Cache, k: Cache, rows: seq<Row>, ids: seq<nat>, config: Speculative, budget: nat) {
    var width := config.draftTokens + 1;
    && Thoroughly(k, rows, ids, width, budget / width)
    && (Full(rows, width, budget) || forall id :: DraftFits(active, k0, config, id) ==> id in ids)
  }

  /** After a thorough verification batch no request with a draft fits any more, unless the batch is full. */
  lemma NoDraftLeft(p: State, k0: Cache, k: Cache, rows: seq<Row>, ids: seq<nat>, active: map<nat, ActiveRequest>, config: Speculative, budget: nat)
    requires Collected(p, k0, k, Verify, rows) && Marked(p.active, active, rows) && |rows| * (config.draftTokens + 1) <= budget
    requires DraftsThorough(p.active, k0, k, rows, ids, config, budget)
    ensures Ascend(rows) && (Full(rows, config.draftTokens + 1, budget) || forall id :: !DraftFits(active, k, config, id))
    ensures rows == [] && config.draftTokens < budget ==> forall id :: !DraftFits(active, k, config, id)
  {
    var width := config.draftTokens + 1;
    RowsWithin(|rows|, width, budget);
    if config.draftTokens < budget {
      AtLeastOneRow(budget, width);
    }
    if !Full(rows, width, budget) {
      forall id
        ensures !DraftFits(active, k, config, id)
      {
        FittedBefore(p, k0, k, Verify, rows, id, width);
        if DraftFits(p.active, k0, config, id) {
          var j :| 0 <= j < |ids| && ids[j] == id;
          assert Served(rows, k, ids[j], width);
        }
      }
    }
  }

  // ----- prefill buckets -----

  /** What a prefill is planned from. */
  datatype View = View(active: map<nat, ActiveRequest>, k: Cache, deferred: set<nat>, chunk: Option<nat>, budget: nat)

  type Buckets = map<(nat, bool), seq<nat>>

  ghost predicate CanPrefill(v: View, id: nat) {
    PrefillFits(v.active, v.k, v.deferred, v.chunk, v.budget, id)
  }

  ghost predicate Eligible(v: View, id: nat, width: nat) {
    CanPrefill(v, id) && Chunk(v.active[id], v.k.sequences[id].committed, v.chunk, v.budget) == width
  }

  /** The request can prefill now and belongs under this chunk length, and whether it has cached tokens. */
  ghost predicate KeyOf(v: View, key: (nat, bool), id: nat) {
    Eligible(v, id, key.0) && key.1 == (v.k.sequences[id].committed != 0)
  }

  /** Every listed request is in its bucket. */
  ghost predicate BucketsSound(v: View, buckets: Buckets) {
    && (forall key :: key in buckets ==> buckets[key] != [])
    && forall key, i :: key in buckets && 0 <= i < |buckets[key]| ==> KeyOf(v, key, buckets[key][i])
  }

  ghost predicate Bucketed(v: View, buckets: Buckets, id: nat) {
    CanPrefill(v, id) ==> exists key :: key in buckets && id in buckets[key]
  }

  /** Every request that can prefill is listed. */
  ghost predicate BucketsComplete(v: View, buckets: Buckets) {
    forall id :: Bucketed(v, buckets, id)
  }

  lemma BucketAdded(v: View, before: Buckets, after: Buckets, key: (nat, bool), id: nat)
    requires BucketsSound(v, before) && after == before[key := (if key in before then before[key] else []) + [id]]
    requires KeyOf(v, key, id)
    ensures BucketsSound(v, after) && Bucketed(v, after, id)
    ensures forall x :: Bucketed(v, before, x) ==> Bucketed(v, after, x)
  {
    assert after[key][|after[key]| - 1] == id;
    forall k, i | k in after && 0 <= i < |after[k]|
      ensures KeyOf(v, k, after[k][i])
    {
      if k != key || i < |after[key]| - 1 {
        assert KeyOf(v, k, before[k][i]);
      }
    }
    forall x | Bucketed(v, before, x)
      ensures Bucketed(v, after, x)
    {
      if k :| k in before && x in before[k] {
        assert x in after[k];
      }
    }
  }

  lemma NoBuckets(v: View, buckets: Buckets)
    requires buckets == map[] && BucketsComplete(v, buckets)
    ensures forall id :: !CanPrefill(v, id)
  {
    forall id
      ensures !CanPrefill(v, id)
    {
      assert Bucketed(v, buckets, id);
    }
  }

  /** Tokens that a bucket would put on the device. */
  function Useful(budget: nat, width: nat, count: nat): nat
    requires width > 0
  {
    (if count < budget / width then count else budget / width) * width
  }

  /** `a` is less full than `b`, or as full and without an older request. */
  ghost predicate NotFuller(budget: nat, buckets: Buckets, a: (nat, bool), b: (nat, bool)) {
    && a in buckets && b in buckets && a.0 > 0 && b.0 > 0 && buckets[a] != [] && buckets[b] != []
    && var x, y := Useful(budget, a.0, |buckets[a]|), Useful(budget, b.0, |buckets[b]|);
      x < y || (x == y && buckets[b][0] <= buckets[a][0])
  }

  ghost predicate Fullest(budget: nat, buckets: Buckets, best: (nat, bool)) {
    best in buckets && forall key :: key in buckets ==> NotFuller(budget, buckets, key, best)
  }

  /**
   The rows come from the fullest bucket of the requests that can prefill, in order, and unless the batch is full no
   request of that bucket is left that fits in `k`.
   */
  ghost predicate FromFullest(v: View, k: Cache, rows: seq<Row>) {
    exists buckets: Buckets, best :: FromBucket(v, k, buckets, best, rows)
  }

  ghost predicate FromBucket(v: View, k: Cache, buckets: Buckets, best: (nat, bool), rows: seq<Row>) {
    && BucketsSound(v, buckets) && BucketsComplete(v, buckets) && Fullest(v.budget, buckets, best) && best.0 > 0
    && UniformRows(rows, best.0) && Thoroughly(k, rows, buckets[best], best.0, v.budget / best.0)
  }

  ghost predicate BucketParts(buckets: Buckets, ids: seq<nat>, i: nat) {
    forall key :: key in buckets ==> PartOf(buckets[key], ids, i)
  }

  lemma BucketPartsNext(before: Buckets, after: Buckets, ids: seq<nat>, i: nat, key: Option<(nat, bool)>)
    requires BucketParts(before, ids, i) && i < |ids| && PagedKv.Ascending(ids)
    requires after == if key.Some? then before[key.value := (if key.value in before then before[key.value] else []) + [ids[i]]] else before
    ensures BucketParts(after, ids, i + 1)
  {
    PartNext([], ids, i);
    forall k | k in after
      ensures PartOf(after[k], ids, i + 1)
    {
      if k in before {
        PartNext(before[k], ids, i);
      }
    }
  }

  /** The first candidate fits the untouched pool, so there is a row. */
  lemma FirstFits(v: View, k: Cache, p: State, rows: seq<Row>, ids: seq<nat>, width: nat, most: nat)
    requires ids != [] && most > 0 && Eligible(v, ids[0], width) && Thoroughly(k, rows, ids, width, most) && Collected(p, v.k, k, Prefill, rows)
    ensures rows != []
  {
    assert |rows| >= most || Served(rows, k, ids[0], width);
  }

  /** No further row of this width fits the token budget. */
  predicate Full(rows: seq<Row>, width: nat, budget: nat) {
    width > 0 && |rows| == budget / width
  }

  lemma RowsWithin(count: nat, width: nat, budget: nat)
    requires width > 0 && count * width <= budget
    ensures count <= budget / width
  {
    DivMod(budget, width);
    MulAtLeast(count - budget / width, width);
    assert (count - budget / width) * width == count * width - budget / width * width;
  }

  /** The rows of a bucket start where their requests' cached tokens end. */
  lemma BucketStart(p: State, v: View, k: Cache, buckets: Buckets, best: (nat, bool), rows: seq<Row>)
    requires Collected(p, v.k, k, Prefill, rows) && Tied(p, v.k) && FromBucket(v, k, buckets, best, rows) && rows != []
    ensures best == (|rows[0].tokens|, rows[0].start != 0)
  {
    CollectedFlat(p, v.k, k, Prefill, rows);
    assert RowReserved(p, k, Prefill, rows[0]);
    var i :| 0 <= i < |buckets[best]| && buckets[best][i] == rows[0].id;
    assert KeyOf(v, best, buckets[best][i]);
  }

  /** After a thorough prefill batch no request of its bucket fits any more, unless the batch is full. */
  lemma NoPrefillLeft(p: State, v: View, k: Cache, buckets: Buckets, best: (nat, bool), rows: seq<Row>, active: map<nat, ActiveRequest>)
    requires Collected(p, v.k, k, Prefill, rows) && FromBucket(v, k, buckets, best, rows) && Marked(v.active, active, rows)
    requires |rows| * best.0 <= v.budget
    ensures Full(rows, best.0, v.budget) || forall id :: !KeyOf(View(active, k, v.deferred, v.chunk, v.budget), best, id)
  {
    RowsWithin(|rows|, best.0, v.budget);
    var now := View(active, k, v.deferred, v.chunk, v.budget);
    if |rows| < v.budget / best.0 {
      forall id
        ensures !KeyOf(now, best, id)
      {
        FittedBefore(p, v.k, k, Prefill, rows, id, best.0);
        if KeyOf(v, best, id) {
          assert Bucketed(v, buckets, id);
          InItsBucket(v, buckets, best, id);
          var j :| 0 <= j < |buckets[best]| && buckets[best][j] == id;
          assert Served(rows, k, buckets[best][j], best.0);
        }
      }
    }
  }

  lemma InItsBucket(v: View, buckets: Buckets, key: (nat, bool), id: nat)
    requires BucketsSound(v, buckets) && Bucketed(v, buckets, id) && KeyOf(v, key, id)
    ensures key in buckets && id in buckets[key]
  {
    var other :| other in buckets && id in buckets[other];
    var i :| 0 <= i < |buckets[other]| && buckets[other][i] == id;
    assert KeyOf(v, other, buckets[other][i]);
  }

  class BatchScheduler {
    const kv: Manager
    const maxActive: nat
    const maxPending: Option<nat>
    var maxBatchTokens: nat
    var pending: seq<Pending>
    var deferred: set<nat>
    var active: map<nat, ActiveRequest>
    var finished: seq<Finished>
    var inFlight: Option<Batch>
    var preferPrefill: bool
    var nextRequest: nat
    var nextBatch: nat
    var chunkTokens: Option<nat>
    var admissionCeiling: Option<nat>
    var recomputePreemption: bool
    var nextAdmission: nat
    var preemptions: nat
    var speculative: Option<Speculative>
    var speculativeTurn: bool
    var draftedTokens: nat
    var acceptedDraftTokens: nat

    ghost var submitted: map<nat, Spec>
    ghost var stored: map<nat, seq<int>>
    ghost var done: seq<Finished>
    ghost var popped: nat
    ghost var cancelled: set<nat>
    ghost var events: seq<Event>

    ghost function Abs(): State
      reads this`submitted, this`pending, this`active, this`stored, this`inFlight, this`done, this`cancelled, this`nextRequest, this`nextBatch
    {
      State(submitted, pending, active, stored, inFlight, done, cancelled, nextRequest, nextBatch)
    }

    ghost predicate Configured()
      reads this`maxBatchTokens, this`chunkTokens, this`speculative, this`popped, this`done, this`finished, this`nextBatch
    {
      && maxActive > 0 && maxBatchTokens > 0 && kv.config.blockSize > 0
      && (chunkTokens.Some? ==> chunkTokens.value > 0)
      && (speculative.Some? ==> speculative.value.draftTokens > 0 && speculative.value.ngram > 0)
      && popped <= |done| && finished == done[popped..] && nextBatch <= U64_MAX
    }

    ghost predicate Valid()
      reads this`submitted, this`pending, this`active, this`stored, this`inFlight, this`done, this`cancelled, this`nextRequest, this`nextBatch
      reads this`maxBatchTokens, this`chunkTokens, this`speculative, this`popped, this`finished, this`events, kv
    {
      Configured() && kv.Valid() && Linked(events, Abs(), kv.Snapshot())
    }

    /** `new` and `new_paged` (`paged` turns on chunked prefill and recompute preemption). */
    constructor (maxActive: nat, maxBatchTokens: nat, maxPending: Option<nat>, config: PagedKv.Config, paged: bool)
      requires maxActive > 0 && maxBatchTokens > 0
      requires config.blockSize > 0 && config.numPages > 0 && config.maxLength > 0
      ensures Valid() && fresh(kv) && Abs() == Initial && kv.config == config && events == [] && popped == 0
      ensures recomputePreemption == paged && deferred == {} && admissionCeiling == None
      ensures chunkTokens == (if paged then Some(maxBatchTokens) else None) && this.maxPending == maxPending
    {
      this.maxActive := maxActive;
      this.maxBatchTokens := maxBatchTokens;
      this.maxPending := maxPending;
      kv := new Manager(config);
      pending, deferred, active, finished, inFlight := [], {}, map[], [], None;
      preferPrefill, nextRequest, nextBatch := true, 1, 1;
      chunkTokens := if paged then Some(maxBatchTokens) else None;
      admissionCeiling, recomputePreemption := None, paged;
      nextAdmission, preemptions, speculative, speculativeTurn := 0, 0, None, false;
      draftedTokens, acceptedDraftTokens := 0, 0;
      submitted, stored, done, popped, cancelled, events := map[], map[], [], 0, {}, [];
      new;
      LinkedMeans(events, Abs(), kv.Snapshot());
    }

    /** Only planning has happened since. */
    ghost predicate PlannedSince(e: seq<Event>, p: State, k: Cache)
      reads this`submitted, this`pending, this`active, this`stored, this`inFlight, this`done, this`cancelled, this`nextRequest, this`nextBatch,
        this`events, kv
    {
      Planned(e, p, k, events, Abs(), kv.Snapshot())
    }

    /** A round has admitted the first `count` ready requests since. */
    ghost predicate PromotedSince(p: State, first: nat, count: nat)
      reads this`submitted, this`pending, this`active, this`stored, this`inFlight, this`done, this`cancelled, this`nextRequest, this`nextBatch,
        this`deferred, this`admissionCeiling
    {
      Promoted(deferred, admissionCeiling, p, first, count, Abs())
    }

    /** No table has grown since. */
    ghost predicate TrimmedSince(k: Cache)
      reads kv
    {
      Trimmed(k, kv.Snapshot())
    }

    ghost predicate Accepts(spec: Spec)
      reads this, kv
    {
      && spec.prompt != []
      && (chunkTokens.None? ==> |spec.prompt| <= maxBatchTokens)
      && |spec.prompt| + spec.maxNew <= kv.config.maxLength
      && (forall i :: 0 <= i < |spec.prompt| ==> spec.prompt[i] >= 0) && (forall t :: t in spec.eos ==> t >= 0)
      && (spec.maxNew > 0 ==> kv.config.blockSize > 0 && CeilDiv(|spec.prompt|, kv.config.blockSize) <= kv.config.numPages)
      && (spec.maxNew > 0 && maxPending.Some? ==> |pending| < maxPending.value)
      && nextRequest != U64_MAX
    }

    method Submit(spec: Spec) returns (r: Result<nat>)
      requires Valid()
      modifies this`pending, this`finished, this`nextRequest, this`submitted, this`done, this`events
      ensures Valid()
      ensures r.Success? <==> old(Accepts(spec))
      ensures r.Success? ==> r.value == old(nextRequest) && Abs() == SubmitTo(old(Abs()), spec)
      ensures r.Failure? ==> Abs() == old(Abs())
      ensures events == if r.Success? then old(events) + [Event.Submit(spec)] else old(events)
    {
      var accepted := Check(spec);
      if !accepted {
        return Failure;
      }
      ghost var p := Abs();
      SubmitLinked(events, p, kv.Snapshot(), spec);
      var id := nextRequest;
      nextRequest := nextRequest + 1;
      submitted := submitted[id := spec];
      if spec.maxNew == 0 {
        finished := finished + [Finished(id, spec.prompt, [], false)];
        done := done + [Finished(id, spec.prompt, [], false)];
        assert done[popped..] == finished;
      } else {
        pending := pending + [Pending(id, spec)];
      }
      events := events + [Event.Submit(spec)];
      assert Abs() == SubmitTo(p, spec);
      return Success(id);
    }

    method Check(spec: Spec) returns (ok: bool)
      requires kv.config.blockSize > 0
      ensures ok <==> Accepts(spec)
    {
      if spec.prompt == [] || (chunkTokens.None? && |spec.prompt| > maxBatchTokens)
        || |spec.prompt| + spec.maxNew > kv.config.maxLength
        || (exists i :: 0 <= i < |spec.prompt| && spec.prompt[i] < 0) || (exists t :: t in spec.eos && t < 0) {
        return false;
      }
      if spec.maxNew > 0 {
        if CeilDiv(|spec.prompt|, kv.config.blockSize) > kv.config.numPages {
          return false;
        }
        if maxPending.Some? && |pending| >= maxPending.value {
          return false;
        }
      }
      return nextRequest != U64_MAX;
    }

    /** Every result the scheduler hands out under an honest device is the single-sequence decoder's. */
    lemma FinishedIsGreedy(next: Model, i: nat)
      requires Valid() && Legal(events) && Honest(next, events) && i < |finished|
      ensures finished[i].id in submitted
      ensures var spec := submitted[finished[i].id];
        finished[i].prompt == spec.prompt &&
        (spec.greedy ==> GreedyOutput(next, spec.prompt, spec.maxNew, spec.eos, finished[i].generated))
    {
      LinkedMeans(events, Abs(), kv.Snapshot());
      BatchingRefinesGreedyDecoding(next, events, popped + i);
    }

    /** `set_speculative_decoding`: takes effect for the batches scheduled from now on. */
    method SetSpeculativeDecoding(config: Option<Speculative>) returns (ok: bool)
      requires Valid()
      modifies this`speculative
      ensures Valid() && Abs() == old(Abs())
      ensures ok <==> (config.Some? ==> config.value.draftTokens > 0 && config.value.ngram > 0)
      ensures speculative == if ok then config else old(speculative)
    {
      if config.Some? && (config.value.draftTokens == 0 || config.value.ngram == 0) {
        return false;
      }
      speculative := config;
      return true;
    }

    method PopFinished() returns (r: Option<Finished>)
      requires Valid()
      modifies this`finished, this`popped
      ensures Valid() && Abs() == old(Abs())
      ensures r == if old(finished) == [] then None else Some(old(finished)[0])
      ensures old(finished) != [] ==> finished == old(finished)[1..] && popped == old(popped) + 1
      ensures old(finished) == [] ==> finished == [] && popped == old(popped)
    {
      if finished == [] {
        return None;
      }
      r := Some(finished[0]);
      finished := finished[1..];
      popped := popped + 1;
    }

    method FirstReady() returns (position: Option<nat>)
      ensures position.Some? ==> position.value < |pending| && Ready(deferred, admissionCeiling, pending[position.value])
      ensures position.Some? ==> forall i :: 0 <= i < position.value ==> !Ready(deferred, admissionCeiling, pending[i])
      ensures position.None? ==> forall i :: 0 <= i < |pending| ==> !Ready(deferred, admissionCeiling, pending[i])
    {
      var i := 0;
      while i < |pending|
        invariant 0 <= i <= |pending| && forall j :: 0 <= j < i ==> !Ready(deferred, admissionCeiling, pending[j])
      {
        if Ready(deferred, admissionCeiling, pending[i]) {
          return Some(i);
        }
        i := i + 1;
      }
      return None;
    }

    /** Admit the first ready requests in queue order while there is room (on-demand page admission). */
    method PromotePending() returns (ghost count: nat)
      requires Valid() && inFlight.None?
      modifies this`pending, this`active, this`nextAdmission, this`stored, this`events, kv`sequences
      ensures Valid()
      ensures PromotedSince(old(Abs()), old(nextAdmission), count)
      ensures |active| >= maxActive || forall i :: 0 <= i < |pending| ==> !Ready(deferred, admissionCeiling, pending[i])
      ensures old(active.Keys) <= active.Keys && (pending == old(pending) || active != map[])
      ensures PlannedSince(old(events), old(Abs()), old(kv.Snapshot()))
    {
      ghost var e, p, k, first := events, Abs(), kv.Snapshot(), nextAdmission;
      LinkedMeans(e, p, k);
      count := AdmissionRound();
      RoundPlanned(deferred, admissionCeiling, e, p, k, first, count, events, Abs(), kv.Snapshot());
      RoundPromoted(deferred, admissionCeiling, e, p, k, first, count, events, Abs(), kv.Snapshot());
      PromotedSome(deferred, admissionCeiling, p, first, count, Abs());
    }

    method AdmissionRound() returns (ghost count: nat)
      requires Valid() && inFlight.None?
      modifies this`pending, this`active, this`nextAdmission, this`stored, this`events, kv`sequences
      ensures Valid()
      ensures Round(deferred, admissionCeiling, old(events), old(Abs()), old(kv.Snapshot()), old(nextAdmission), count, events, Abs(), kv.Snapshot())
      ensures |active| >= maxActive || forall i :: 0 <= i < |pending| ==> !Ready(deferred, admissionCeiling, pending[i])
    {
      ghost var e, p, k, first := events, Abs(), kv.Snapshot(), nextAdmission;
      count := 0;
      var more := true;
      while |active| < maxActive && more
        invariant Admitting(e, p, k, first, count)
        invariant more || forall i :: 0 <= i < |pending| ==> !Ready(deferred, admissionCeiling, pending[i])
        decreases more, |pending|
      {
        more := AdmitNext(e, p, k, first, count);
        if more {
          count := count + 1;
        }
      }
    }

    /** In the middle of a round: `count` requests are admitted so far. */
    ghost predicate Admitting(e: seq<Event>, p: State, k: Cache, first: nat, count: nat)
      reads this, kv
    {
      && Valid() && inFlight.None? && nextAdmission == first + count
      && Round(deferred, admissionCeiling, e, p, k, first, count, events, Abs(), kv.Snapshot())
    }

    /** One more admission of a round, if a request is ready. */
    method AdmitNext(ghost e: seq<Event>, ghost p: State, ghost k: Cache, ghost first: nat, ghost count: nat) returns (more: bool)
      requires Admitting(e, p, k, first, count)
      modifies this`pending, this`active, this`nextAdmission, this`stored, this`events, kv`sequences
      ensures Admitting(e, p, k, first, if more then count + 1 else count)
      ensures more ==> |pending| < |old(pending)|
      ensures !more ==> forall i :: 0 <= i < |pending| ==> !Ready(deferred, admissionCeiling, pending[i])
    {
      var position := FirstReady();
      if position.None? {
        return false;
      }
      ghost var e0, p0, k0 := events, Abs(), kv.Snapshot();
      AdmitReady(e0, p0, k0, position.value);
      AdmitAt(position.value);
      RoundNext(deferred, admissionCeiling, e, p, k, first, count, e0, p0, k0, position.value, events, Abs(), kv.Snapshot());
      return true;
    }

    method AdmitAt(position: nat)
      requires Valid() && inFlight.None? && position < |pending|
      modifies this`pending, this`active, this`nextAdmission, this`stored, this`events, kv`sequences
      ensures Valid()
      ensures Abs() == AdmitTo(old(Abs()), position, 0, old(nextAdmission)) && nextAdmission == old(nextAdmission) + 1
      ensures PlannedSince(old(events), old(Abs()), old(kv.Snapshot()))
    {
      ghost var p, k := Abs(), kv.Snapshot();
      AdmitReady(events, p, k, position);
      var request := pending[position];
      pending := Remove(pending, position);
      var created := kv.CreateSequence(request.id);
      assert created.Success?;
      var admitted := nextAdmission;
      nextAdmission := nextAdmission + 1;
      active := active[request.id := ActiveRequest(request.spec, [], request.spec.prompt, admitted, NeedsPrefill)];
      stored := stored[request.id := request.spec.prompt[..0]];
      AdmitLinked(events, p, k, kv.Snapshot(), position, admitted);
      events := events + [Admit(position, 0, admitted)];
      assert Abs() == AdmitTo(p, position, 0, admitted);
    }

    // ----- collecting rows -----

    /** Reserve the row's room and record it; the caller has checked that it fits. */
    method ReserveRow(kind: Kind, rows: seq<Row>, id: nat, tokens: seq<int>, ghost k0: Cache) returns (row: Row)
      requires kv.Valid() && CanAppend(kv.Snapshot(), id, |tokens|)
      requires Collected(Abs(), k0, kv.Snapshot(), kind, rows)
      requires id in active && id in stored && id in k0.sequences && k0.sequences[id].committed == |stored[id]|
      requires Launchable(kind, active[id], stored[id], tokens)
      modifies kv
      ensures kv.Valid()
      ensures Collected(Abs(), k0, kv.Snapshot(), kind, rows + [row]) && row.id == id && row.tokens == tokens
      ensures Reserved(old(kv.Snapshot()), kv.Snapshot(), id, |tokens|, row.reservation)
    {
      ghost var k := kv.Snapshot();
      CollectedCommitted(Abs(), k0, k, kind, rows, id);
      var start := kv.sequences[id].committed;
      var reservation := kv.BeginAppend(id, |tokens|);
      assert reservation.Success?;
      row := Row(id, tokens, start, start + |tokens|, kv.sequences[id].pages, reservation.value);
      NewRow(Abs(), k, kv.Snapshot(), kind, row);
      CollectedAppend(Abs(), k0, k, kv.Snapshot(), kind, rows, row);
    }

    /** Add a row if its tokens still fit. */
    method TryRow(kind: Kind, rows: seq<Row>, id: nat, tokens: seq<int>, ghost k0: Cache) returns (longer: seq<Row>)
      requires kv.Valid() && Collected(Abs(), k0, kv.Snapshot(), kind, rows) && UniformRows(rows, |tokens|)
      requires id in active && id in stored && id in k0.sequences && k0.sequences[id].committed == |stored[id]|
      requires Launchable(kind, active[id], stored[id], tokens)
      modifies kv
      ensures kv.Valid() && Collected(Abs(), k0, kv.Snapshot(), kind, longer) && UniformRows(longer, |tokens|)
      ensures Tried(old(kv.Snapshot()), kv.Snapshot(), rows, longer, id, tokens)
    {
      longer := rows;
      CollectedCommitted(Abs(), k0, kv.Snapshot(), kind, rows, id);
      var fits := kv.CanAppendTokens(id, |tokens|);
      assert fits.Success?;
      if fits.value {
        var row := ReserveRow(kind, rows, id, tokens, k0);
        longer := rows + [row];
      }
    }

    /** Between batches, with a batch number left. */
    ghost predicate Planning()
      reads this`submitted, this`pending, this`active, this`stored, this`inFlight, this`done, this`cancelled, this`nextRequest, this`nextBatch,
        this`maxBatchTokens, this`speculative, kv
    {
      && kv.Valid() && Tied(Abs(), kv.Snapshot()) && inFlight.None? && nextBatch < U64_MAX && maxBatchTokens > 0
      && (speculative.Some? ==> speculative.value.draftTokens > 0)
    }

    /** What an attempt since then has done: nothing, or a uniform batch within the budget. */
    ghost predicate ScheduledSince(p: State, k: Cache, batch: Option<Batch>)
      reads this`submitted, this`pending, this`active, this`stored, this`inFlight, this`done, this`cancelled, this`nextRequest, this`nextBatch,
        this`maxBatchTokens, kv
    {
      Scheduled(p, k, Abs(), kv.Snapshot(), batch, maxBatchTokens)
    }

    /** Collected rows become a batch that may be launched; their requests are marked as in flight. */
    method FinishSchedule(kind: Kind, rows: seq<Row>, width: nat, ghost k0: Cache) returns (batch: Option<Batch>)
      requires nextBatch < U64_MAX && inFlight.None? && Collected(Abs(), k0, kv.Snapshot(), kind, rows)
      requires UniformRows(rows, width) && |rows| * width <= maxBatchTokens
      modifies this`active, this`nextBatch
      ensures batch == if rows == [] then None else Some(Batch(old(nextBatch), kind, rows))
      ensures batch.Some? ==> LaunchEnabled(old(Abs()), batch.value)
      ensures ScheduledSince(old(Abs()), k0, batch) && Marked(old(active), active, rows)
    {
      if rows == [] {
        return None;
      }
      ghost var p := Abs();
      ReadyToLaunch(p, k0, kv.Snapshot(), kind, rows, width, maxBatchTokens);
      LaunchRowsEffect(p.(nextBatch := nextBatch + 1), nextBatch, rows, 0);
      var id := MarkInFlight(rows);
      batch := Some(Batch(id, kind, rows));
    }

    method MarkInFlight(rows: seq<Row>) returns (id: nat)
      requires nextBatch < U64_MAX && forall i :: 0 <= i < |rows| ==> rows[i].id in active
      modifies this`active, this`nextBatch
      ensures id == old(nextBatch) && Abs() == LaunchRows(old(Abs()).(nextBatch := id + 1), id, rows, 0)
    {
      id := nextBatch;
      nextBatch := nextBatch + 1;
      ghost var p := Abs();
      var i := 0;
      while i < |rows|
        invariant 0 <= i <= |rows|
        invariant LaunchRows(Abs(), id, rows, i) == LaunchRows(p, id, rows, 0)
        invariant active.Keys == p.active.Keys && nextBatch == id + 1
      {
        assert rows[i].id in active;
        active := active[rows[i].id := active[rows[i].id].(phase := InFlight(id))];
        i := i + 1;
      }
    }

    /** Requests waiting for a decode step, oldest id first. */
    method DecodeCandidates() returns (candidates: seq<nat>)
      ensures PagedKv.Ascending(candidates)
      ensures forall i :: 0 <= i < |candidates| ==> candidates[i] in active && active[candidates[i]].phase.AwaitingDecode?
      ensures forall id :: id in active && active[id].phase.AwaitingDecode? ==> id in candidates
    {
      var ids := SortedIds(active.Keys);
      candidates := [];
      var i := 0;
      while i < |ids|
        invariant 0 <= i <= |ids| && PartOf(candidates, ids, i)
        invariant forall j :: 0 <= j < |candidates| ==> Awaits(candidates[j])
        invariant forall j :: 0 <= j < i && Awaits(ids[j]) ==> ids[j] in candidates
      {
        InPageSet(ids, i);
        PartNext(candidates, ids, i);
        if active[ids[i]].phase.AwaitingDecode? {
          candidates := candidates + [ids[i]];
        }
        i := i + 1;
      }
      forall id | id in active && active[id].phase.AwaitingDecode?
        ensures id in candidates
      {
        assert id in PageSet(ids) && Awaits(id);
      }
    }

    ghost predicate Awaits(id: nat)
      reads this`active
    {
      id in active && active[id].phase.AwaitingDecode?
    }

    /** In the middle of collecting rows of one kind and width. */
    ghost predicate Collecting(k0: Cache, kind: Kind, rows: seq<Row>, ids: seq<nat>, i: nat, width: nat)
      reads this`submitted, this`pending, this`active, this`stored, this`inFlight, this`done, this`cancelled, this`nextRequest, this`nextBatch,
        kv
    {
      && kv.Valid() && Collected(Abs(), k0, kv.Snapshot(), kind, rows) && UniformRows(rows, width)
      && Picked(kv.Snapshot(), rows, ids, i, width)
    }

    /** Try the next candidate. */
    method TryNext(kind: Kind, rows: seq<Row>, ghost ids: seq<nat>, ghost i: nat, id: nat, tokens: seq<int>, ghost width: nat, ghost k0: Cache) returns (longer: seq<Row>)
      requires |tokens| == width && Collecting(k0, kind, rows, ids, i, width) && i < |ids| && ids[i] == id && PagedKv.Ascending(ids)
      requires id in active && id in stored && id in k0.sequences && k0.sequences[id].committed == |stored[id]|
      requires Launchable(kind, active[id], stored[id], tokens)
      modifies kv
      ensures Collecting(k0, kind, longer, ids, i + 1, width)
      ensures longer == rows || exists row: Row :: row.id == id && row.tokens == tokens && longer == rows + [row]
    {
      ghost var k := kv.Snapshot();
      longer := TryRow(kind, rows, id, tokens, k0);
      PickedNext(k, kv.Snapshot(), rows, longer, ids, i, tokens);
    }

    method CollectDecode(candidates: seq<nat>) returns (rows: seq<Row>)
      requires kv.Valid() && Tied(Abs(), kv.Snapshot()) && maxBatchTokens > 0 && PagedKv.Ascending(candidates)
      requires forall i :: 0 <= i < |candidates| ==> candidates[i] in active && active[candidates[i]].phase.AwaitingDecode?
      modifies kv
      ensures kv.Valid() && Collected(Abs(), old(kv.Snapshot()), kv.Snapshot(), Decode, rows)
      ensures UniformRows(rows, 1) && |rows| <= maxBatchTokens && Thoroughly(kv.Snapshot(), rows, candidates, 1, maxBatchTokens)
    {
      ghost var k0 := kv.Snapshot();
      rows := [];
      var i := 0;
      while i < |candidates|
        invariant 0 <= i <= |candidates| && Collecting(k0, Decode, rows, candidates, i, 1) && |rows| <= maxBatchTokens
      {
        if |rows| >= maxBatchTokens {
          break;
        }
        var id := candidates[i];
        rows := TryNext(Decode, rows, candidates, i, id, [active[id].phase.token], 1, k0);
        i := i + 1;
      }
      PickedEnds(kv.Snapshot(), rows, candidates, i, 1, maxBatchTokens);
    }

    /**
     The batch takes the ready requests in id order, and leaves one out only if the batch is full or its pages do not
     fit any more.
     */
    ghost predicate Thorough(batch: Batch)
      reads this`active, this`deferred, this`chunkTokens, this`maxBatchTokens, this`speculative, kv
    {
      && Ascend(batch.rows) && batch.rows != []
      && match batch.kind
         case Decode => |batch.rows| == maxBatchTokens || forall id :: !DecodeFits(active, kv.Snapshot(), id)
         case Prefill =>
           var key := (batch.Width(), batch.rows[0].start != 0);
           Full(batch.rows, key.0, maxBatchTokens) || forall id :: !KeyOf(Now(), key, id)
         case Verify =>
           && speculative.Some? && batch.Width() == speculative.value.draftTokens + 1
           && (Full(batch.rows, batch.Width(), maxBatchTokens) || forall id :: !DraftFits(active, kv.Snapshot(), speculative.value, id))
    }

    method ScheduleDecode() returns (batch: Option<Batch>)
      requires Planning()
      modifies this`active, this`nextBatch, kv
      ensures kv.Valid() && ScheduledSince(old(Abs()), old(kv.Snapshot()), batch)
      ensures batch.Some? ==> batch.value.kind == Decode && Thorough(batch.value)
      ensures batch.None? ==> NoDecodeFits() && Planning()
    {
      ghost var k0 := kv.Snapshot();
      var candidates := DecodeCandidates();
      var rows := CollectDecode(candidates);
      ghost var before := active;
      batch := FinishSchedule(Decode, rows, 1, k0);
      NoDecodeLeft(before, active, kv.Snapshot(), rows, candidates, maxBatchTokens);
    }

    ghost predicate NoDecodeFits()
      reads this`active, kv
    {
      forall id :: !DecodeFits(active, kv.Snapshot(), id)
    }

    ghost predicate NoPrefillFits()
      reads this`active, this`deferred, this`chunkTokens, this`maxBatchTokens, kv
    {
      forall id :: !PrefillFits(active, kv.Snapshot(), deferred, chunkTokens, maxBatchTokens, id)
    }

    // ----- prefill -----

    ghost function Now(): View
      reads this`active, this`deferred, this`chunkTokens, this`maxBatchTokens, kv
    {
      View(active, kv.Snapshot(), deferred, chunkTokens, maxBatchTokens)
    }

    /** Requests that can prefill now, grouped by chunk length and by whether the chunk is the first. */
    method PrefillBuckets() returns (buckets: Buckets)
      requires kv.Valid() && Tied(Abs(), kv.Snapshot())
      ensures BucketsSound(Now(), buckets) && BucketsComplete(Now(), buckets)
      ensures forall key :: key in buckets ==> PagedKv.Ascending(buckets[key])
    {
      var ids := SortedIds(active.Keys);
      buckets := map[];
      var i := 0;
      while i < |ids|
        invariant 0 <= i <= |ids| && BucketsSound(Now(), buckets) && BucketParts(buckets, ids, i)
        invariant forall j :: 0 <= j < i ==> Bucketed(Now(), buckets, ids[j])
      {
        InPageSet(ids, i);
        var key := PrefillKey(ids[i]);
        ghost var before := buckets;
        if key.Some? {
          buckets := buckets[key.value := (if key.value in buckets then buckets[key.value] else []) + [ids[i]]];
          BucketAdded(Now(), before, buckets, key.value, ids[i]);
        }
        BucketPartsNext(before, buckets, ids, i, key);
        i := i + 1;
      }
      forall id
        ensures Bucketed(Now(), buckets, id)
      {
        if CanPrefill(Now(), id) {
          assert id in PageSet(ids);
        }
      }
    }

    /** The bucket of a request that can prefill now. */
    method PrefillKey(id: nat) returns (key: Option<(nat, bool)>)
      requires kv.Valid() && Tied(Abs(), kv.Snapshot()) && id in active
      ensures key.Some? ==> KeyOf(Now(), key.value, id)
      ensures key.None? ==> !CanPrefill(Now(), id)
    {
      key := None;
      var committed := kv.CommittedTokens(id);
      assert committed.Success?;
      var width := Chunk(active[id], committed.value, chunkTokens, maxBatchTokens);
      if active[id].phase == NeedsPrefill && id !in deferred && width > 0 {
        var fits := kv.CanAppendTokens(id, width);
        assert fits.Success?;
        if fits.value {
          key := Some((width, committed.value != 0));
        }
      }
    }

    /** The bucket with the most useful tokens; of equally full ones the one with the oldest request. */
    method ChooseBucket(buckets: Buckets) returns (best: (nat, bool))
      requires buckets != map[]
      requires forall key :: key in buckets ==> buckets[key] != [] && key.0 > 0
      ensures Fullest(maxBatchTokens, buckets, best)
    {
      best :| best in buckets;
      var todo := buckets.Keys - {best};
      while todo != {}
        invariant best in buckets && todo <= buckets.Keys
        invariant forall key :: key in buckets && key !in todo ==> NotFuller(maxBatchTokens, buckets, key, best)
        decreases |todo|
      {
        var key :| key in todo;
        var a, b := Useful(maxBatchTokens, key.0, |buckets[key]|), Useful(maxBatchTokens, best.0, |buckets[best]|);
        if b < a || (a == b && buckets[key][0] < buckets[best][0]) {
          best := key;
        }
        todo := todo - {key};
      }
    }

    method CollectPrefill(candidates: seq<nat>, width: nat, maxRows: nat) returns (rows: seq<Row>)
      requires kv.Valid() && Tied(Abs(), kv.Snapshot()) && candidates != [] && width > 0 && maxRows > 0 && PagedKv.Ascending(candidates)
      requires forall i :: 0 <= i < |candidates| ==> Eligible(Now(), candidates[i], width)
      modifies kv
      ensures kv.Valid() && Collected(Abs(), old(kv.Snapshot()), kv.Snapshot(), Prefill, rows)
      ensures UniformRows(rows, width) && 0 < |rows| <= maxRows
      ensures Thoroughly(kv.Snapshot(), rows, candidates, width, maxRows)
    {
      ghost var k0, v := kv.Snapshot(), Now();
      rows := [];
      var i := 0;
      while i < |candidates|
        invariant 0 <= i <= |candidates| && Collecting(k0, Prefill, rows, candidates, i, width) && |rows| <= maxRows
      {
        if |rows| >= maxRows {
          break;
        }
        rows := TryPrefill(rows, candidates, i, width, v);
        i := i + 1;
      }
      PickedEnds(kv.Snapshot(), rows, candidates, i, width, maxRows);
      FirstFits(v, kv.Snapshot(), Abs(), rows, candidates, width, maxRows);
    }

    /** The next chunk of one request's history. */
    method TryPrefill(rows: seq<Row>, ids: seq<nat>, i: nat, width: nat, ghost v: View) returns (longer: seq<Row>)
      requires Collecting(v.k, Prefill, rows, ids, i, width) && i < |ids| && PagedKv.Ascending(ids) && width > 0
      requires Tied(Abs(), v.k) && v.active == active && Eligible(v, ids[i], width)
      modifies kv
      ensures Collecting(v.k, Prefill, longer, ids, i + 1, width) && |longer| <= |rows| + 1
    {
      var id := ids[i];
      CollectedCommitted(Abs(), v.k, kv.Snapshot(), Prefill, rows, id);
      var start := kv.sequences[id].committed;
      longer := TryNext(Prefill, rows, ids, i, id, active[id].history[start..start + width], width, v.k);
    }

    /** The rows of a prefill batch all come from the fullest bucket. */
    method SchedulePrefill() returns (batch: Option<Batch>)
      requires Planning()
      modifies this`active, this`nextBatch, kv
      ensures kv.Valid() && ScheduledSince(old(Abs()), old(kv.Snapshot()), batch)
      ensures batch.Some? ==>
        batch.value.kind == Prefill && FromFullest(old(Now()), kv.Snapshot(), batch.value.rows) && Thorough(batch.value)
      ensures batch.None? ==> NoPrefillFits() && Planning()
      ensures batch.None? <==> old(NoPrefillFits())
    {
      ghost var p, k0, v := Abs(), kv.Snapshot(), Now();
      var buckets := PrefillBuckets();
      if buckets == map[] {
        NoBuckets(v, buckets);
        assert forall id :: PrefillFits(active, k0, deferred, chunkTokens, maxBatchTokens, id) ==> CanPrefill(v, id);
        return None;
      }
      var rows, best := CollectFullest(buckets);
      ghost var k := kv.Snapshot();
      batch := FinishSchedule(Prefill, rows, best.0, k0);
      PrefillThorough(p, v, k, buckets, best, batch.value);
      FittedThen(v, k, rows);
    }

    lemma PrefillThorough(p: State, v: View, k: Cache, buckets: Buckets, best: (nat, bool), batch: Batch)
      requires batch.rows != [] && batch.kind == Prefill && |batch.rows| * best.0 <= maxBatchTokens == v.budget
      requires Collected(p, v.k, k, Prefill, batch.rows) && Tied(p, v.k) && FromBucket(v, k, buckets, best, batch.rows)
      requires Marked(v.active, active, batch.rows) && k == kv.Snapshot() && deferred == v.deferred && chunkTokens == v.chunk
      ensures Thorough(batch)
    {
      BucketStart(p, v, k, buckets, best, batch.rows);
      NoPrefillLeft(p, v, k, buckets, best, batch.rows, active);
      assert Now() == View(active, k, v.deferred, v.chunk, v.budget);
      assert (batch.Width(), batch.rows[0].start != 0) == best;
    }

    method CollectFullest(buckets: Buckets) returns (rows: seq<Row>, best: (nat, bool))
      requires kv.Valid() && Tied(Abs(), kv.Snapshot()) && buckets != map[]
      requires BucketsSound(Now(), buckets) && BucketsComplete(Now(), buckets)
      requires forall key :: key in buckets ==> PagedKv.Ascending(buckets[key])
      modifies kv
      ensures kv.Valid() && Collected(Abs(), old(kv.Snapshot()), kv.Snapshot(), Prefill, rows)
      ensures rows != [] && |rows| * best.0 <= maxBatchTokens
      ensures FromBucket(old(Now()), kv.Snapshot(), buckets, best, rows)
    {
      ghost var v := Now();
      forall key | key in buckets
        ensures 0 < key.0 <= maxBatchTokens
      {
        assert KeyOf(v, key, buckets[key][0]);
      }
      best := ChooseBucket(buckets);
      forall i | 0 <= i < |buckets[best]|
        ensures Eligible(v, buckets[best][i], best.0)
      {
        assert KeyOf(v, best, buckets[best][i]);
      }
      AtLeastOneRow(maxBatchTokens, best.0);
      rows := CollectPrefill(buckets[best], best.0, maxBatchTokens / best.0);
      RowBudget(maxBatchTokens, best.0, |rows|);
    }

    // ----- speculative verification -----

    ghost predicate Draftable(id: nat)
      reads this`active
    {
      && id in active && active[id].phase.AwaitingDecode?
      && active[id].spec.greedy && |active[id].generated| + 2 <= active[id].spec.maxNew
    }

    /** A candidate: a draftable request whose draft is the one found in its history. */
    ghost predicate Candidate(config: Speculative, id: nat, draft: seq<int>)
      reads this`active
    {
      && Draftable(id)
      && exists n: nat, start: nat :: DraftAt(active[id].history, config.ngram, config.draftTokens, draft, n, start)
    }

    method VerifyCandidates(config: Speculative) returns (candidates: seq<(nat, seq<int>)>)
      requires kv.Valid() && Tied(Abs(), kv.Snapshot()) && config.draftTokens > 0
      ensures forall i :: 0 <= i < |candidates| ==> Candidate(config, candidates[i].0, candidates[i].1)
      ensures PagedKv.Ascending(Ids(candidates)) && forall id :: DraftFits(active, kv.Snapshot(), config, id) ==> id in Ids(candidates)
    {
      var ids := SortedIds(active.Keys);
      candidates := [];
      var i := 0;
      while i < |ids|
        invariant 0 <= i <= |ids| && PartOf(Ids(candidates), ids, i)
        invariant forall j :: 0 <= j < |candidates| ==> Candidate(config, candidates[j].0, candidates[j].1)
        invariant forall j :: 0 <= j < i && DraftFits(active, kv.Snapshot(), config, ids[j]) ==> ids[j] in Ids(candidates)
      {
        InPageSet(ids, i);
        PartNext(Ids(candidates), ids, i);
        var draft := DraftFor(config, ids[i]);
        if draft != [] {
          IdsAppend(candidates, ids[i], draft);
          candidates := candidates + [(ids[i], draft)];
        }
        i := i + 1;
      }
      forall id | DraftFits(active, kv.Snapshot(), config, id)
        ensures id in Ids(candidates)
      {
        assert id in PageSet(ids);
      }
    }

    /** The request's draft if it may speculate and the row fits, else nothing. */
    method DraftFor(config: Speculative, id: nat) returns (draft: seq<int>)
      requires kv.Valid() && Tied(Abs(), kv.Snapshot()) && config.draftTokens > 0 && id in active
      ensures draft != [] ==> Candidate(config, id, draft)
      ensures draft == [] ==> !DraftFits(active, kv.Snapshot(), config, id)
    {
      var request := active[id];
      draft := [];
      if request.phase.AwaitingDecode? && request.spec.greedy && |request.generated| + 2 <= request.spec.maxNew {
        var found, n, start := NgramDraft(request.history, config.ngram, config.draftTokens);
        if found != [] {
          var fits := kv.CanAppendTokens(id, config.draftTokens + 1);
          assert fits.Success?;
          if fits.value {
            draft := found;
          }
        }
      }
    }

    method CollectVerify(candidates: seq<(nat, seq<int>)>, config: Speculative, maxRows: nat) returns (rows: seq<Row>)
      requires kv.Valid() && Tied(Abs(), kv.Snapshot()) && PagedKv.Ascending(Ids(candidates))
      requires forall i :: 0 <= i < |candidates| ==> Candidate(config, candidates[i].0, candidates[i].1)
      modifies kv
      ensures kv.Valid() && Collected(Abs(), old(kv.Snapshot()), kv.Snapshot(), Verify, rows)
      ensures UniformRows(rows, config.draftTokens + 1) && |rows| <= maxRows && AllDrafted(active, config, rows)
      ensures Thoroughly(kv.Snapshot(), rows, Ids(candidates), config.draftTokens + 1, maxRows)
    {
      ghost var k0 := kv.Snapshot();
      rows := [];
      var i := 0;
      while i < |candidates|
        invariant 0 <= i <= |candidates| && Collecting(k0, Verify, rows, Ids(candidates), i, config.draftTokens + 1)
        invariant |rows| <= maxRows && AllDrafted(active, config, rows)
      {
        if |rows| >= maxRows {
          break;
        }
        rows := TryVerify(rows, candidates, i, config, k0);
        i := i + 1;
      }
      PickedEnds(kv.Snapshot(), rows, Ids(candidates), i, config.draftTokens + 1, maxRows);
    }

    lemma DraftSize(config: Speculative, id: nat, draft: seq<int>)
      requires Candidate(config, id, draft)
      ensures 0 < |draft| <= config.draftTokens
    {
    }

    lemma DraftMakesRow(config: Speculative, id: nat, draft: seq<int>, tokens: seq<int>)
      requires Candidate(config, id, draft) && 0 < |draft| <= config.draftTokens
      requires tokens == [active[id].phase.token] + Padded(draft, config.draftTokens)
      ensures DraftedRow(active[id], config, tokens)
    {
    }

    /** One request's token and draft; all rows get the same width, so a short draft repeats its last token. */
    method TryVerify(rows: seq<Row>, candidates: seq<(nat, seq<int>)>, i: nat, config: Speculative, ghost k0: Cache) returns (longer: seq<Row>)
      requires i < |candidates| && Collecting(k0, Verify, rows, Ids(candidates), i, config.draftTokens + 1) && PagedKv.Ascending(Ids(candidates))
      requires Tied(Abs(), k0) && Candidate(config, candidates[i].0, candidates[i].1) && AllDrafted(active, config, rows)
      modifies kv
      ensures Collecting(k0, Verify, longer, Ids(candidates), i + 1, config.draftTokens + 1)
      ensures |longer| <= |rows| + 1 && AllDrafted(active, config, longer)
    {
      var (id, draft) := candidates[i];
      DraftSize(config, id, draft);
      var tokens := [active[id].phase.token] + Padded(draft, config.draftTokens);
      DraftMakesRow(config, id, draft, tokens);
      longer := TryDraft(rows, Ids(candidates), i, config, id, tokens, k0);
    }

    method TryDraft(rows: seq<Row>, ghost ids: seq<nat>, ghost i: nat, config: Speculative, id: nat, tokens: seq<int>, ghost k0: Cache) returns (longer: seq<Row>)
      requires Collecting(k0, Verify, rows, ids, i, config.draftTokens + 1) && i < |ids| && ids[i] == id && PagedKv.Ascending(ids)
      requires Tied(Abs(), k0) && id in active && |tokens| == config.draftTokens + 1 && DraftedRow(active[id], config, tokens)
      requires id in stored && Launchable(Verify, active[id], stored[id], tokens) && AllDrafted(active, config, rows)
      modifies kv
      ensures Collecting(k0, Verify, longer, ids, i + 1, config.draftTokens + 1)
      ensures |longer| <= |rows| + 1 && AllDrafted(active, config, longer)
    {
      longer := TryNext(Verify, rows, ids, i, id, tokens, config.draftTokens + 1, k0);
    }

    method ScheduleVerify() returns (batch: Option<Batch>)
      requires Planning()
      modifies this`active, this`nextBatch, kv
      ensures kv.Valid() && ScheduledSince(old(Abs()), old(kv.Snapshot()), batch)
      ensures batch.Some? ==>
        batch.value.kind == Verify && speculative.Some? && AllDrafted(old(active), speculative.value, batch.value.rows) && Thorough(batch.value)
      ensures batch.None? ==> NoDraftDue() && Planning()
    {
      if speculative.None? {
        return None;
      }
      ghost var k0 := kv.Snapshot();
      var config := speculative.value;
      var rows, ids := DraftRows(config);
      batch := FinishVerify(config, rows, ids, k0);
    }

    method FinishVerify(config: Speculative, rows: seq<Row>, ghost ids: seq<nat>, ghost k0: Cache) returns (batch: Option<Batch>)
      requires nextBatch < U64_MAX && inFlight.None? && speculative == Some(config)
      requires Collected(Abs(), k0, kv.Snapshot(), Verify, rows) && UniformRows(rows, config.draftTokens + 1)
      requires |rows| * (config.draftTokens + 1) <= maxBatchTokens
      requires DraftsThorough(active, k0, kv.Snapshot(), rows, ids, config, maxBatchTokens)
      modifies this`active, this`nextBatch
      ensures ScheduledSince(old(Abs()), k0, batch)
      ensures batch == if rows == [] then None else Some(Batch(old(nextBatch), Verify, rows))
      ensures if batch.Some? then Thorough(batch.value) else NoDraftDue()
    {
      ghost var p := Abs();
      batch := FinishSchedule(Verify, rows, config.draftTokens + 1, k0);
      NoDraftLeft(p, k0, kv.Snapshot(), rows, ids, active, config, maxBatchTokens);
    }

    ghost predicate NoDraftFits(config: Speculative)
      reads this`active, kv
    {
      forall id :: !DraftFits(active, kv.Snapshot(), config, id)
    }

    /** The verification rows that fit the token budget. */
    method DraftRows(config: Speculative) returns (rows: seq<Row>, ghost ids: seq<nat>)
      requires kv.Valid() && Tied(Abs(), kv.Snapshot()) && config.draftTokens > 0
      modifies kv
      ensures kv.Valid() && Collected(Abs(), old(kv.Snapshot()), kv.Snapshot(), Verify, rows)
      ensures UniformRows(rows, config.draftTokens + 1) && |rows| * (config.draftTokens + 1) <= maxBatchTokens
      ensures AllDrafted(active, config, rows) && DraftsThorough(active, old(kv.Snapshot()), kv.Snapshot(), rows, ids, config, maxBatchTokens)
    {
      var width := config.draftTokens + 1;
      var maxRows := maxBatchTokens / width;
      if maxRows == 0 {
        return [], [];
      }
      var candidates := VerifyCandidates(config);
      ids := Ids(candidates);
      rows := CollectVerify(candidates, config, maxRows);
      RowBudget(maxBatchTokens, width, |rows|);
    }

    /**
     One attempt. A prefill is due after every other batch and a verification in every other round without one;
     whoever is due goes first, and the others only if it finds nothing.
     */
    method TrySchedule() returns (batch: Option<Batch>)
      requires Planning()
      modifies this`active, this`nextBatch, this`preferPrefill, this`speculativeTurn, kv
      ensures kv.Valid() && ScheduledSince(old(Abs()), old(kv.Snapshot()), batch)
      ensures batch.Some? ==> Thorough(batch.value)
      ensures batch.None? ==> NoDecodeFits() && NoPrefillFits()
      ensures batch.Some? ==> InTurn(batch.value.kind, old(preferPrefill), old(speculativeTurn), old(NoPrefillFits()), old(NoDecodeFits()), old(NoDraftDue()))
      ensures preferPrefill == if batch.Some? then batch.value.kind != Prefill else old(preferPrefill)
      ensures speculativeTurn == if old(preferPrefill) && !old(NoPrefillFits()) then old(speculativeTurn) else !old(speculativeTurn)
    {
      if preferPrefill {
        batch := SchedulePrefill();
        if batch.Some? {
          preferPrefill := false;
          return;
        }
      }
      batch := VerifyElseDecode();
    }

    method VerifyElseDecode() returns (batch: Option<Batch>)
      requires Planning()
      modifies this`active, this`nextBatch, this`preferPrefill, this`speculativeTurn, kv
      ensures kv.Valid() && ScheduledSince(old(Abs()), old(kv.Snapshot()), batch)
      ensures batch.Some? ==> Thorough(batch.value) && preferPrefill == (batch.value.kind != Prefill)
      ensures batch.Some? ==> InTurn(batch.value.kind, false, old(speculativeTurn), true, old(NoDecodeFits()), old(NoDraftDue()))
      ensures batch.None? ==> NoDecodeFits() && NoPrefillFits() && preferPrefill == old(preferPrefill)
      ensures speculativeTurn == !old(speculativeTurn)
    {
      speculativeTurn := !speculativeTurn;
      if speculativeTurn {
        batch := ScheduleVerify();
        if batch.Some? {
          preferPrefill := true;
          return;
        }
      }
      batch := DecodeElsePrefill();
    }

    /** No verification batch can be made. */
    ghost predicate NoDraftDue()
      reads this`active, this`speculative, this`maxBatchTokens, kv
    {
      speculative.None? || maxBatchTokens <= speculative.value.draftTokens || NoDraftFits(speculative.value)
    }

    method DecodeElsePrefill() returns (batch: Option<Batch>)
      requires Planning()
      modifies this`active, this`nextBatch, this`preferPrefill, kv
      ensures kv.Valid() && ScheduledSince(old(Abs()), old(kv.Snapshot()), batch)
      ensures batch.Some? ==> Thorough(batch.value) && preferPrefill == (batch.value.kind != Prefill)
      ensures batch.Some? ==> batch.value.kind == Decode || (batch.value.kind == Prefill && old(NoDecodeFits()))
      ensures batch.None? ==> NoDecodeFits() && NoPrefillFits() && preferPrefill == old(preferPrefill)
    {
      batch := ScheduleDecode();
      if batch.Some? {
        preferPrefill := true;
        return;
      }
      batch := SchedulePrefill();
      if batch.Some? {
        preferPrefill := false;
      }
    }

    // ----- preemption and the scheduling loop -----

    /** `(admitted, id)` pairs are compared lexicographically. */
    predicate NotNewer(a: nat, b: nat)
      requires a in active && b in active
      reads this`active
    {
      active[a].admitted < active[b].admitted || (active[a].admitted == active[b].admitted && a <= b)
    }

    method PageHolders() returns (holders: seq<nat>)
      requires Tied(Abs(), kv.Snapshot()) && inFlight.None?
      requires forall id :: id in active ==> !active[id].phase.InFlight?
      ensures PageSet(holders) == Holders(kv.Snapshot())
    {
      var ids := SortedIds(active.Keys);
      holders := [];
      var i := 0;
      while i < |ids|
        invariant 0 <= i <= |ids|
        invariant forall j :: 0 <= j < |holders| ==> Holder(kv.Snapshot(), holders[j])
        invariant forall j :: 0 <= j < i && Holder(kv.Snapshot(), ids[j]) ==> ids[j] in holders
      {
        InPageSet(ids, i);
        var id := ids[i];
        if !active[id].phase.InFlight? {
          var table := kv.BlockTable(id);
          assert table.Success?;
          if table.value != [] {
            holders := holders + [id];
          }
        }
        i := i + 1;
      }
      forall id | id in Holders(kv.Snapshot())
        ensures id in PageSet(holders)
      {
        assert id in PageSet(ids);
      }
    }

    method Newest(holders: seq<nat>) returns (victim: nat)
      requires holders != [] && forall i :: 0 <= i < |holders| ==> holders[i] in active
      ensures victim in holders && forall i :: 0 <= i < |holders| ==> NotNewer(holders[i], victim)
    {
      victim := holders[0];
      var i := 1;
      while i < |holders|
        invariant 1 <= i <= |holders| && victim in holders
        invariant forall j :: 0 <= j < i ==> NotNewer(holders[j], victim)
      {
        if NotNewer(victim, holders[i]) {
          victim := holders[i];
        }
        i := i + 1;
      }
    }

    /** The newest page holder, if at least two requests hold pages. */
    /** The page holder that was admitted last. */
    ghost predicate NewestHolder(victim: nat)
      requires victim in active
      reads this`active, kv
    {
      && Holder(kv.Snapshot(), victim)
      && forall id :: Holder(kv.Snapshot(), id) ==> id in active && NotNewer(id, victim)
    }

    method ChooseVictim() returns (victim: Option<nat>)
      requires Valid() && inFlight.None?
      ensures victim.None? ==> |Holders(kv.Snapshot())| <= 1
      ensures victim.Some? ==>
        victim.value in active && !active[victim.value].phase.InFlight? && NewestHolder(victim.value) && Holder(kv.Snapshot(), victim.value)
    {
      LinkedMeans(events, Abs(), kv.Snapshot());
      NobodyInFlight(events);
      var holders := PageHolders();
      PageSetSize(holders);
      if |holders| <= 1 {
        return None;
      }
      HoldersAreActive(Abs(), kv.Snapshot(), holders);
      var newest := Newest(holders);
      return Some(newest);
    }

    /** Release the newest page holder's pages, if somebody else also holds pages. */
    method PreemptNewest() returns (preempted: bool, ghost victim: nat)
      requires Valid() && inFlight.None?
      modifies this`active, this`stored, this`events, this`preemptions, this`preferPrefill, kv
      ensures Valid()
      ensures !preempted ==> Abs() == old(Abs()) && kv.Snapshot() == old(kv.Snapshot()) && |Holders(kv.Snapshot())| <= 1
      ensures preempted ==>
        && |Holders(kv.Snapshot())| < |Holders(old(kv.Snapshot()))|
        && victim in old(active) && Abs() == PreemptIn(old(Abs()), victim) && old(NewestHolder(victim))
      ensures PlannedSince(old(events), old(Abs()), old(kv.Snapshot()))
    {
      var newest := ChooseVictim();
      if newest.None? {
        NothingPlanned(events, Abs(), kv.Snapshot());
        return false, 0;
      }
      Evict(newest.value);
      preemptions := preemptions + 1;
      preferPrefill := false;
      return true, newest.value;
    }

    method Evict(victim: nat)
      requires Valid() && inFlight.None? && Holder(kv.Snapshot(), victim)
      requires victim in active && !active[victim].phase.InFlight?
      modifies this`active, this`stored, this`events, kv
      ensures Valid()
      ensures victim in old(active) && Abs() == PreemptIn(old(Abs()), victim)
      ensures |Holders(kv.Snapshot())| < |Holders(old(kv.Snapshot()))|
      ensures PlannedSince(old(events), old(Abs()), old(kv.Snapshot()))
    {
      ghost var p, k := Abs(), kv.Snapshot();
      PreemptReady(events, p, k, victim);
      GiveUpPages(victim);
      PreemptLinked(events, p, k, kv.Snapshot(), victim);
      active := active[victim := active[victim].(phase := NeedsPrefill)];
      stored := stored[victim := []];
      events := events + [Preempt(victim)];
      assert Abs() == PreemptIn(p, victim);
    }

    method GiveUpPages(victim: nat)
      requires kv.Valid() && victim in kv.sequences && kv.sequences[victim].pending.None?
      modifies kv
      ensures kv.Valid() && kv.reservations == old(kv.reservations)
      ensures kv.sequences == (old(kv.sequences) - {victim})[victim := Sequence(0, [], None)]
    {
      var removed := kv.RemoveSequence(victim);
      assert removed.Success?;
      var created := kv.CreateSequence(victim);
      assert created.Success?;
    }

    /** The batch of the given number: equally wide rows within the token budget that leave nothing out. */
    ghost predicate Found(batch: Batch, number: nat)
      reads this`active, this`deferred, this`chunkTokens, this`maxBatchTokens, this`speculative, this`nextBatch, kv
    {
      && batch.rows != [] && UniformRows(batch.rows, batch.Width()) && |batch.rows| * batch.Width() <= maxBatchTokens
      && batch.id == number && nextBatch == number + 1 && Thorough(batch)
    }

    /** One attempt; a batch that was found is put in flight. */
    method LaunchNext() returns (batch: Option<Batch>)
      requires Valid() && inFlight.None? && nextBatch < U64_MAX
      modifies this`active, this`nextBatch, this`preferPrefill, this`speculativeTurn, this`inFlight, this`events, kv
      ensures Valid() && inFlight == batch
      ensures batch.Some? ==> Abs() == LaunchIn(old(Abs()), batch.value) && Found(batch.value, old(nextBatch))
      ensures batch.None? ==>
        && Abs() == old(Abs()) && kv.Snapshot() == old(kv.Snapshot())
        && NothingFits(Abs(), kv.Snapshot(), deferred, chunkTokens, maxBatchTokens)
      ensures PlannedSince(old(events), old(Abs()), old(kv.Snapshot()))
    {
      ghost var p, k := Abs(), kv.Snapshot();
      NothingPlanned(events, p, k);
      LinkedMeans(events, p, k);
      batch := TrySchedule();
      if batch.Some? {
        LaunchedState(p, batch.value);
        PutInFlight(batch.value, p, k);
      }
    }

    method PutInFlight(batch: Batch, ghost p: State, ghost k: Cache)
      requires Configured() && kv.Valid() && inFlight.None? && p.inFlight.None? && p.nextBatch < U64_MAX
      requires Linked(events, p, k) && ScheduledSince(p, k, Some(batch)) && Thorough(batch)
      modifies this`inFlight, this`events
      ensures Valid() && inFlight == Some(batch) && Abs() == LaunchIn(p, batch) && Found(batch, p.nextBatch)
      ensures PlannedSince(old(events), p, k)
    {
      LaunchLinked(events, p, k, kv.Snapshot(), batch);
      LaunchedState(p, batch);
      inFlight := Some(batch);
      events := events + [Launch(batch)];
    }

    /** Try, preempt, and try again; each preemption leaves one page holder less. */
    method ScheduleLoop() returns (batch: Option<Batch>)
      requires Valid() && inFlight.None? && nextBatch < U64_MAX
      modifies this`active, this`nextBatch, this`preferPrefill, this`speculativeTurn, this`inFlight, this`events
      modifies this`stored, this`preemptions, kv
      ensures Valid() && inFlight == batch
      ensures batch.Some? ==> Found(batch.value, old(nextBatch))
      ensures batch.None? && recomputePreemption && deferred == {} && RoomForOne(kv.config) ==> active == map[] && old(active) == map[]
      ensures PlannedSince(old(events), old(Abs()), old(kv.Snapshot()))
    {
      NothingPlanned(events, Abs(), kv.Snapshot());
      while true
        invariant Valid() && inFlight.None? && nextBatch == old(nextBatch) && (active == map[] ==> old(active) == map[])
        invariant PlannedSince(old(events), old(Abs()), old(kv.Snapshot()))
        decreases |Holders(kv.Snapshot())|
      {
        ghost var e, p, k := events, Abs(), kv.Snapshot();
        var again;
        batch, again := LaunchOrPreempt();
        PlannedThen(old(events), old(Abs()), old(kv.Snapshot()), e, p, k, events, Abs(), kv.Snapshot());
        if !again {
          return;
        }
      }
    }

    /** One turn of the loop: a batch, or one page holder less, or the end. */
    method LaunchOrPreempt() returns (batch: Option<Batch>, again: bool)
      requires Valid() && inFlight.None? && nextBatch < U64_MAX
      modifies this`active, this`nextBatch, this`preferPrefill, this`speculativeTurn, this`inFlight, this`events
      modifies this`stored, this`preemptions, kv
      ensures Valid() && inFlight == batch
      ensures batch.Some? ==> Found(batch.value, old(nextBatch)) && !again
      ensures again ==> nextBatch == old(nextBatch) && |Holders(kv.Snapshot())| < |Holders(old(kv.Snapshot()))| && active != map[]
      ensures batch.None? && !again && recomputePreemption && deferred == {} && RoomForOne(kv.config) ==> active == map[] && old(active) == map[]
      ensures PlannedSince(old(events), old(Abs()), old(kv.Snapshot()))
    {
      batch := LaunchNext();
      if batch.Some? || !recomputePreemption {
        return batch, false;
      }
      ghost var e, p, k := events, Abs(), kv.Snapshot();
      var preempted, victim := PreemptNewest();
      PlannedThen(old(events), old(Abs()), old(kv.Snapshot()), e, p, k, events, Abs(), kv.Snapshot());
      if !preempted {
        StuckMeansIdle(e, p, k, deferred, chunkTokens, maxBatchTokens);
        return None, false;
      }
      assert victim in active;
      return None, true;
    }

    /**
     Build the next batch. With recompute preemption on, nothing deferred, and a pool that can hold one
     sequence of maximal length, a batch is found whenever there is any work.
     */
    method Schedule() returns (r: Result<Option<Batch>>)
      requires Valid()
      modifies this`pending, this`active, this`nextAdmission, this`stored, this`events, this`nextBatch, this`inFlight
      modifies this`preferPrefill, this`speculativeTurn, this`preemptions, kv
      ensures Valid()
      ensures r.Failure? <==> old(inFlight).Some? || old(nextBatch) == U64_MAX
      ensures r.Failure? ==> Abs() == old(Abs()) && kv.Snapshot() == old(kv.Snapshot())
      ensures r.Success? ==> inFlight == r.value
      ensures r.Success? && r.value.Some? ==> Found(r.value.value, old(nextBatch))
      ensures r.Success? && r.value.None? && old(Unrestricted()) && RoomForOne(kv.config) ==>
        old(Idle()) && Idle()
      ensures PlannedSince(old(events), old(Abs()), old(kv.Snapshot()))
    {
      NothingPlanned(events, Abs(), kv.Snapshot());
      if inFlight.Some? || nextBatch == U64_MAX {
        return Failure;
      }
      var batch := PromoteAndSchedule();
      return Success(batch);
    }

    method PromoteAndSchedule() returns (batch: Option<Batch>)
      requires Valid() && inFlight.None? && nextBatch < U64_MAX
      modifies this`pending, this`active, this`nextAdmission, this`stored, this`events, this`nextBatch, this`inFlight
      modifies this`preferPrefill, this`speculativeTurn, this`preemptions, kv
      ensures Valid() && inFlight == batch
      ensures batch.Some? ==> Found(batch.value, old(nextBatch))
      ensures batch.None? && Unrestricted() && RoomForOne(kv.config) ==> old(Idle()) && Idle()
      ensures PlannedSince(old(events), old(Abs()), old(kv.Snapshot()))
    {
      ghost var count := PromotePending();
      assert Unrestricted() && pending != [] ==> Ready(deferred, admissionCeiling, pending[0]);
      ghost var e, p, k := events, Abs(), kv.Snapshot();
      batch := ScheduleLoop();
      PlannedThen(old(events), old(Abs()), old(kv.Snapshot()), e, p, k, events, Abs(), kv.Snapshot());
    }

    /** No request is queued or active. */
    predicate Idle()
      reads this`pending, this`active
    {
      pending == [] && active == map[]
    }

    /** Preemption is on and nothing is held back. */
    predicate Unrestricted()
      reads this`recomputePreemption, this`deferred, this`admissionCeiling
    {
      recomputePreemption && deferred == {} && admissionCeiling.None?
    }

    // ----- applying device results -----

    predicate SamplesToken(row: Row)
      reads this`active
    {
      row.id in active && row.context >= |active[row.id].history|
    }

    /** Retire the request or queue it for decode, its history having just grown. */
    method SettleRequest(id: nat, r: ActiveRequest, ghost tokens: seq<int>)
      requires kv.Valid() && r.generated != [] && popped <= |done| && finished == done[popped..]
      requires id in kv.sequences && kv.sequences[id].pending.None?
      modifies this`active, this`finished, this`stored, this`done, kv
      ensures kv.Valid() && popped <= |done| && finished == done[popped..]
      ensures Abs() == Settle(old(Abs()), id, r, tokens)
      ensures kv.sequences == if id in active then old(kv.sequences) else old(kv.sequences) - {id}
      ensures kv.reservations == old(kv.reservations)
    {
      var last := Last(r.generated);
      var stopped := last in r.spec.eos;
      if stopped || |r.generated| >= r.spec.maxNew {
        active := active - {id};
        var removed := kv.RemoveSequence(id);
        assert removed.Success?;
        var result := Finished(id, r.spec.prompt, r.generated, stopped);
        finished := finished + [result];
        done, stored := done + [result], stored - {id};
      } else {
        active := active[id := r.(phase := AwaitingDecode(last))];
        stored := stored[id := tokens];
      }
    }

    method ApplyToken(row: Row, token: int)
      requires kv.Valid() && popped <= |done| && finished == done[popped..]
      requires row.id in active && row.id in stored && row.id in kv.sequences && kv.sequences[row.id].pending.None?
      modifies this`active, this`finished, this`stored, this`done, kv
      ensures kv.Valid() && popped <= |done| && finished == done[popped..]
      ensures Abs() == CompleteRow(old(Abs()), row, token)
      ensures kv.sequences == if row.id in active then old(kv.sequences) else old(kv.sequences) - {row.id}
    {
      var request := active[row.id];
      if row.context < |request.history| {
        active := active[row.id := request.(phase := NeedsPrefill)];
        stored := stored[row.id := stored[row.id] + row.tokens];
      } else {
        SettleRequest(row.id, Grow(request, [token]), stored[row.id] + row.tokens);
      }
    }

    method ApplyTokens(rows: seq<Row>, tokens: seq<int>)
      requires kv.Valid() && popped <= |done| && finished == done[popped..]
      requires DistinctRows(rows) && |tokens| == |rows| && TiedFrom(Abs(), kv.Snapshot(), rows, 0)
      modifies this`active, this`finished, this`stored, this`done, kv
      ensures kv.Valid() && popped <= |done| && finished == done[popped..]
      ensures Abs() == CompleteRows(old(Abs()), rows, tokens, 0) && Tied(Abs(), kv.Snapshot())
      ensures TrimmedSince(old(kv.Snapshot()))
    {
      ghost var k0 := kv.Snapshot();
      var i := 0;
      while i < |rows|
        invariant 0 <= i <= |rows| && kv.Valid() && popped <= |done| && finished == done[popped..]
        invariant CompleteRows(Abs(), rows, tokens, i) == CompleteRows(old(Abs()), rows, tokens, 0)
        invariant TiedFrom(Abs(), kv.Snapshot(), rows, i) && TrimmedSince(k0)
      {
        ghost var p, k := Abs(), kv.Snapshot();
        ApplyToken(rows[i], tokens[i]);
        CompleteRowTied(p, k, kv.Snapshot(), rows, i, tokens[i]);
        FewerTrimmed(k, kv.Snapshot(), rows[i].id);
        TrimmedThen(k0, k, kv.Snapshot());
        i := i + 1;
      }
      AllApplied(Abs(), kv.Snapshot(), rows);
    }

    /** Commit all rows of a batch; their results are applied afterwards. */
    method CommitRows(rows: seq<Row>)
      requires kv.Valid() && inFlight.None? && FlightTied(Abs(), kv.Snapshot(), rows)
      requires forall i :: 0 <= i < |rows| ==> rows[i].tokens != []
      modifies kv
      ensures kv.Valid() && TiedFrom(Abs(), kv.Snapshot(), rows, 0)
      ensures TrimmedSince(old(kv.Snapshot()))
    {
      ghost var k := kv.Snapshot();
      GroupOfBatch(k, rows, true);
      var committed := kv.CommitAppendPrefixes(Group(rows, true));
      assert committed.Success?;
      GroupTrimmed(k, kv.Snapshot(), Group(rows, true));
      CommittedTied(Abs(), k, kv.Snapshot(), rows);
    }

    ghost predicate Completable(batchId: nat, tokens: seq<int>)
      reads this`inFlight, this`active
    {
      && inFlight.Some? && inFlight.value.id == batchId && |tokens| == |inFlight.value.rows|
      && forall i :: 0 <= i < |tokens| && SamplesToken(inFlight.value.rows[i]) ==> tokens[i] >= 0
    }

    /**
     Commit every reservation of a batch and apply one token per row. The kind of the batch is not looked at; for a
     verification batch only the bookkeeping of pages and lengths is sure to survive.
     */
    method CompleteBatch(batchId: nat, tokens: seq<int>) returns (r: Result<()>)
      requires Valid()
      modifies this`active, this`finished, this`stored, this`done, this`inFlight, this`events, kv
      ensures r.Success? <==> old(Completable(batchId, tokens))
      ensures r.Success? ==>
        && Abs() == CompleteRows(old(Abs()).(inFlight := None), old(inFlight).value.rows, tokens, 0)
        && Configured() && kv.Valid() && Tied(Abs(), kv.Snapshot()) && TrimmedSince(old(kv.Snapshot()))
      ensures r.Success? && old(inFlight).value.kind != Verify ==> Valid() && events == old(events) + [Complete(tokens)]
      ensures r.Failure? ==> Valid() && Abs() == old(Abs()) && kv.Snapshot() == old(kv.Snapshot()) && events == old(events)
    {
      if inFlight.None? || inFlight.value.id != batchId || |tokens| != |inFlight.value.rows| {
        return Failure;
      }
      if exists i :: 0 <= i < |tokens| && SamplesToken(inFlight.value.rows[i]) && tokens[i] < 0 {
        return Failure;
      }
      CommitAndApply(tokens);
      return Success(());
    }

    method CommitAndApply(tokens: seq<int>)
      requires Valid() && inFlight.Some? && |tokens| == |inFlight.value.rows|
      modifies this`active, this`finished, this`stored, this`done, this`inFlight, this`events, kv
      ensures Configured() && kv.Valid() && Tied(Abs(), kv.Snapshot())
      ensures Abs() == CompleteRows(old(Abs()).(inFlight := None), old(inFlight).value.rows, tokens, 0)
      ensures TrimmedSince(old(kv.Snapshot()))
      ensures old(inFlight).value.kind != Verify ==> Valid() && events == old(events) + [Complete(tokens)]
    {
      TakeAndApply(tokens);
      events := events + [Complete(tokens)];
    }

    method TakeAndApply(tokens: seq<int>)
      requires Valid() && inFlight.Some? && |tokens| == |inFlight.value.rows|
      modifies this`active, this`finished, this`stored, this`done, this`inFlight, kv
      ensures kv.Valid() && popped <= |done| && finished == done[popped..] && Tied(Abs(), kv.Snapshot())
      ensures old(inFlight).value.kind != Verify ==> Linked(events + [Complete(tokens)], Abs(), kv.Snapshot())
      ensures Abs() == CompleteRows(old(Abs()).(inFlight := None), old(inFlight).value.rows, tokens, 0)
      ensures TrimmedSince(old(kv.Snapshot()))
    {
      ghost var p, k := Abs(), kv.Snapshot();
      var rows := TakeAndCommit();
      ghost var k1 := kv.Snapshot();
      ApplyTokens(rows, tokens);
      TrimmedThen(k, k1, kv.Snapshot());
      if p.inFlight.value.kind != Verify {
        CompleteLinked(events, p, k, kv.Snapshot(), tokens, Abs());
      }
    }

    method TakeAndCommit() returns (rows: seq<Row>)
      requires Valid() && inFlight.Some?
      modifies this`inFlight, kv
      ensures kv.Valid() && Abs() == old(Abs()).(inFlight := None) && rows == old(inFlight).value.rows
      ensures DistinctRows(rows) && TiedFrom(Abs(), kv.Snapshot(), rows, 0)
      ensures TrimmedSince(old(kv.Snapshot()))
    {
      FlightReady(events, Abs(), kv.Snapshot());
      rows := inFlight.value.rows;
      inFlight := None;
      CommitRows(rows);
    }

    /** Take predictions while the draft agrees. */
    method Accept(row: Row, predictions: seq<int>, request: ActiveRequest) returns (produced: seq<int>)
      requires row.tokens != [] && |predictions| == |row.tokens|
      ensures Taken(request, row, predictions, produced) && produced == Produced(request, row, predictions)
    {
      var remaining := request.spec.maxNew - |request.generated|;
      produced := [];
      var position := 0;
      while position < |predictions|
        invariant 0 <= position < |predictions| && |produced| == position
        invariant produced + Accepted(predictions, row.tokens, remaining - position, request.spec.eos, position)
          == Produced(request, row, predictions)
        decreases |predictions| - position
      {
        var prediction := predictions[position];
        ghost var before := produced;
        produced := produced + [prediction];
        if |produced| == remaining || prediction in request.spec.eos {
          break;
        }
        if position + 1 >= |row.tokens| || row.tokens[position + 1] != prediction {
          break;
        }
        Regrouped(before, prediction, Accepted(predictions, row.tokens, remaining - (position + 1), request.spec.eos, position + 1));
        position := position + 1;
      }
      assert produced == Produced(request, row, predictions);
      ProducedIsTaken(request, row, predictions);
    }

    /** How many drafted tokens were tried and how many of them were right. */
    function Counters(): (int, int)
      reads this`draftedTokens, this`acceptedDraftTokens
    {
      (draftedTokens, acceptedDraftTokens)
    }

    ghost predicate Counted(before: (int, int), drafted: int, accepted: int)
      reads this`draftedTokens, this`acceptedDraftTokens
    {
      draftedTokens == before.0 + drafted && acceptedDraftTokens == before.1 + accepted
    }

    method ApplyVerified(row: Row, predictions: seq<int>) returns (produced: seq<int>)
      requires kv.Valid() && popped <= |done| && finished == done[popped..]
      requires row.id in active && row.id in stored && Holds(kv.Snapshot(), row)
      requires row.tokens != [] && |predictions| == |row.tokens|
      modifies this`active, this`finished, this`stored, this`done, this`draftedTokens, this`acceptedDraftTokens, kv
      ensures kv.Valid() && popped <= |done| && finished == done[popped..]
      ensures produced == Produced(old(active)[row.id], row, predictions) && Taken(old(active)[row.id], row, predictions, produced)
      ensures Counted(old(Counters()), |row.tokens| - 1, |produced| - 1)
      ensures Abs() == CompleteVerifyRow(old(Abs()), row, predictions)
      ensures kv.sequences.Keys == if row.id in active then old(kv.sequences.Keys) else old(kv.sequences.Keys) - {row.id}
      ensures forall x :: x in kv.sequences && x != row.id ==> kv.sequences[x] == old(kv.sequences)[x]
      ensures row.id in kv.sequences ==>
        kv.sequences[row.id].committed == row.start + |produced| && kv.sequences[row.id].pending.None?
      ensures kv.reservations == old(kv.reservations) - {row.reservation}
      ensures TrimmedSince(old(kv.Snapshot()))
    {
      ghost var k := kv.Snapshot();
      produced := Accept(row, predictions, active[row.id]);
      draftedTokens := draftedTokens + |row.tokens| - 1;
      acceptedDraftTokens := acceptedDraftTokens + |produced| - 1;
      var committed := kv.CommitAppendPartial(row.reservation, |produced|);
      assert committed.Success?;
      ghost var k1 := kv.Snapshot();
      SettleRequest(row.id, Grow(active[row.id], produced), stored[row.id] + row.tokens[..|produced|]);
      OneTrimmed(k, k1, row.reservation, |produced|);
      FewerTrimmed(k1, kv.Snapshot(), row.id);
      TrimmedThen(k, k1, kv.Snapshot());
    }

    method ApplyVerifiedAt(rows: seq<Row>, i: nat, argmax: seq<int>, width: nat) returns (produced: seq<int>)
      requires kv.Valid() && popped <= |done| && finished == done[popped..]
      requires DistinctRows(rows) && i < |rows| && |argmax| == |rows| * width && width > 0 && UniformRows(rows, width)
      requires RowsTied(Abs(), kv.Snapshot(), rows, i)
      modifies this`active, this`finished, this`stored, this`done, this`draftedTokens, this`acceptedDraftTokens, kv
      ensures kv.Valid() && popped <= |done| && finished == done[popped..]
      ensures CompleteVerifyRows(old(Abs()), rows, argmax, width, i) == CompleteVerifyRows(Abs(), rows, argmax, width, i + 1)
      ensures VerifiedTokens(old(active), rows[i], Predictions(argmax, width, i), produced)
      ensures Counted(old(Counters()), width - 1, |produced| - 1)
      ensures SameBut(old(active), active, rows[i].id)
      ensures RowsTied(Abs(), kv.Snapshot(), rows, i + 1)
      ensures TrimmedSince(old(kv.Snapshot()))
    {
      ghost var p, k := Abs(), kv.Snapshot();
      RowsTiedMeans(p, k, rows, i);
      PredictionsWidth(argmax, |rows|, width, i);
      var predictions := Predictions(argmax, width, i);
      produced := ApplyVerified(rows[i], predictions);
      VerifiedSameBut(p, rows[i], predictions);
      CompleteVerifyRowTied(p, k, kv.Snapshot(), rows, i, predictions);
      RowsTiedMeans(Abs(), kv.Snapshot(), rows, i + 1);
    }

    method ApplyAllVerified(rows: seq<Row>, argmax: seq<int>, width: nat) returns (appended: seq<(nat, seq<int>)>)
      requires kv.Valid() && popped <= |done| && finished == done[popped..]
      requires DistinctRows(rows) && |argmax| == |rows| * width && width > 0 && RowsTied(Abs(), kv.Snapshot(), rows, 0)
      requires UniformRows(rows, width)
      modifies this`active, this`finished, this`stored, this`done, this`draftedTokens, this`acceptedDraftTokens, kv
      ensures kv.Valid() && popped <= |done| && finished == done[popped..]
      ensures Abs() == CompleteVerifyRows(old(Abs()), rows, argmax, width, 0) && Tied(Abs(), kv.Snapshot())
      ensures VerifiedRows(old(active), rows, argmax, width, |rows|, appended)
      ensures Counted(old(Counters()), |rows| * (width - 1), Listed(appended) - |rows|)
      ensures TrimmedSince(old(kv.Snapshot()))
    {
      ghost var k0 := kv.Snapshot();
      appended := [];
      var i := 0;
      while i < |rows|
        invariant 0 <= i <= |rows| && kv.Valid() && popped <= |done| && finished == done[popped..]
        invariant CompleteVerifyRows(Abs(), rows, argmax, width, i) == CompleteVerifyRows(old(Abs()), rows, argmax, width, 0)
        invariant RowsTied(Abs(), kv.Snapshot(), rows, i) && TrimmedSince(k0)
        invariant Verifying(old(active), rows, argmax, width, i, appended)
        invariant Counted(old(Counters()), i * (width - 1), Listed(appended) - i)
      {
        ghost var k, a := kv.Snapshot(), active;
        var produced := ApplyVerifiedAt(rows, i, argmax, width);
        VerifiedNext(old(active), a, active, rows, argmax, width, i, appended, produced);
        TrimmedThen(k0, k, kv.Snapshot());
        ListedNext(appended, rows[i].id, produced);
        OneRowMore(i, width - 1);
        appended := appended + [(rows[i].id, produced)];
        i := i + 1;
      }
      AllVerified(Abs(), kv.Snapshot(), rows);
    }

    /** The first rows are verified and the later rows' requests are as they were. */
    ghost predicate Verifying(before: map<nat, ActiveRequest>, rows: seq<Row>, argmax: seq<int>, width: nat, i: nat, appended: seq<(nat, seq<int>)>)
      reads this`active
    {
      VerifiedRows(before, rows, argmax, width, i, appended) && UntouchedFrom(before, active, rows, i)
    }

    /** Commit a verification batch from the per-position predictions; each row's accepted tokens are returned. */
    method CompleteVerifyBatch(batchId: nat, argmax: seq<int>) returns (r: Result<seq<(nat, seq<int>)>>)
      requires Valid()
      modifies this`active, this`finished, this`stored, this`done, this`inFlight, this`events
      modifies this`draftedTokens, this`acceptedDraftTokens, kv
      ensures Valid()
      ensures r.Success? <==>
        && old(inFlight).Some? && old(inFlight).value.id == batchId && old(inFlight).value.kind == Verify
        && |argmax| == |old(inFlight).value.rows| * old(inFlight).value.Width()
      ensures r.Success? ==>
        && Abs() == CompleteVerifyRows(old(Abs()).(inFlight := None), old(inFlight).value.rows, argmax, old(inFlight).value.Width(), 0)
        && VerifiedRows(old(active), old(inFlight).value.rows, argmax, old(inFlight).value.Width(), |r.value|, r.value)
        && |r.value| == |old(inFlight).value.rows|
        && Counted(old(Counters()), |r.value| * (old(inFlight).value.Width() - 1), Listed(r.value) - |r.value|)
        && events == old(events) + [CompleteVerify(argmax)] && TrimmedSince(old(kv.Snapshot()))
      ensures r.Failure? ==> Abs() == old(Abs()) && kv.Snapshot() == old(kv.Snapshot()) && events == old(events)
    {
      if inFlight.None? || inFlight.value.id != batchId {
        return Failure;
      }
      var rows, width := inFlight.value.rows, inFlight.value.Width();
      if inFlight.value.kind != Verify || |argmax| != |rows| * width {
        return Failure;
      }
      var appended := VerifyAndApply(argmax);
      return Success(appended);
    }

    method VerifyAndApply(argmax: seq<int>) returns (appended: seq<(nat, seq<int>)>)
      requires Valid() && inFlight.Some? && inFlight.value.kind == Verify
      requires |argmax| == |inFlight.value.rows| * inFlight.value.Width()
      modifies this`active, this`finished, this`stored, this`done, this`inFlight, this`events
      modifies this`draftedTokens, this`acceptedDraftTokens, kv
      ensures Valid()
      ensures Abs() ==
        CompleteVerifyRows(old(Abs()).(inFlight := None), old(inFlight).value.rows, argmax, old(inFlight).value.Width(), 0)
      ensures |appended| == |old(inFlight).value.rows|
      ensures VerifiedRows(old(active), old(inFlight).value.rows, argmax, old(inFlight).value.Width(), |appended|, appended)
      ensures Counted(old(Counters()), |appended| * (old(inFlight).value.Width() - 1), Listed(appended) - |appended|)
      ensures events == old(events) + [CompleteVerify(argmax)] && TrimmedSince(old(kv.Snapshot()))
    {
      appended := TakeAndVerify(argmax);
      events := events + [CompleteVerify(argmax)];
    }

    method TakeAndVerify(argmax: seq<int>) returns (appended: seq<(nat, seq<int>)>)
      requires Valid() && inFlight.Some? && inFlight.value.kind == Verify
      requires |argmax| == |inFlight.value.rows| * inFlight.value.Width()
      modifies this`active, this`finished, this`stored, this`done, this`inFlight
      modifies this`draftedTokens, this`acceptedDraftTokens, kv
      ensures kv.Valid() && popped <= |done| && finished == done[popped..]
      ensures Linked(events + [CompleteVerify(argmax)], Abs(), kv.Snapshot())
      ensures Abs() ==
        CompleteVerifyRows(old(Abs()).(inFlight := None), old(inFlight).value.rows, argmax, old(inFlight).value.Width(), 0)
      ensures |appended| == |old(inFlight).value.rows|
      ensures VerifiedRows(old(active), old(inFlight).value.rows, argmax, old(inFlight).value.Width(), |appended|, appended)
      ensures Counted(old(Counters()), |appended| * (old(inFlight).value.Width() - 1), Listed(appended) - |appended|)
      ensures TrimmedSince(old(kv.Snapshot()))
    {
      ghost var p, k := Abs(), kv.Snapshot();
      var rows, width := TakeForVerification();
      appended := ApplyAllVerified(rows, argmax, width);
      CompleteVerifyLinked(events, p, k, kv.Snapshot(), argmax, Abs());
    }

    method TakeForVerification() returns (rows: seq<Row>, width: nat)
      requires Valid() && inFlight.Some?
      modifies this`inFlight
      ensures Abs() == old(Abs()).(inFlight := None)
      ensures rows == old(inFlight).value.rows && width == old(inFlight).value.Width() > 0
      ensures DistinctRows(rows) && UniformRows(rows, width) && RowsTied(Abs(), kv.Snapshot(), rows, 0)
    {
      ghost var p, k := Abs(), kv.Snapshot();
      FlightReady(events, p, k);
      VerifyReady(p.(inFlight := None), k, inFlight.value.rows);
      RowsTiedMeans(p.(inFlight := None), k, inFlight.value.rows, 0);
      rows, width := inFlight.value.rows, inFlight.value.Width();
      inFlight := None;
    }

    /** Roll the batch back and give its requests the phases they were scheduled from. */
    method FailBatch(batchId: nat) returns (r: Result<()>)
      requires Valid()
      modifies this`active, this`inFlight, this`events, kv
      ensures Valid()
      ensures r.Success? <==> old(inFlight).Some? && old(inFlight).value.id == batchId
      ensures r.Success? ==>
        && Abs() == FailRows(old(Abs()).(inFlight := None), old(inFlight).value.kind, old(inFlight).value.rows, 0)
        && events == old(events) + [Fail] && TrimmedSince(old(kv.Snapshot()))
      ensures r.Failure? ==> Abs() == old(Abs()) && kv.Snapshot() == old(kv.Snapshot()) && events == old(events)
    {
      if inFlight.None? || inFlight.value.id != batchId {
        return Failure;
      }
      RollBack();
      return Success(());
    }

    method CancelRows(rows: seq<Row>)
      requires kv.Valid() && GroupOk(kv.Snapshot(), Group(rows, false))
      modifies kv
      ensures kv.Valid() && old(GroupOk(kv.Snapshot(), Group(rows, false)))
      ensures GroupSettled(old(kv.Snapshot()), kv.Snapshot(), Group(rows, false), |rows|)
      ensures TrimmedSince(old(kv.Snapshot()))
    {
      ghost var k := kv.Snapshot();
      RollbackGroup(rows);
      var cancelled := kv.CancelAppends(Reservations(rows));
      assert cancelled.Success?;
      GroupTrimmed(k, kv.Snapshot(), Group(rows, false));
    }

    method RestorePhases(kind: Kind, rows: seq<Row>)
      requires forall i :: 0 <= i < |rows| ==> rows[i].id in active && rows[i].tokens != []
      modifies this`active
      ensures Abs() == FailRows(old(Abs()), kind, rows, 0)
    {
      var i := 0;
      while i < |rows|
        invariant 0 <= i <= |rows| && active.Keys == old(active.Keys)
        invariant FailRows(Abs(), kind, rows, i) == FailRows(old(Abs()), kind, rows, 0)
      {
        assert rows[i].id in active;
        var phase := if kind == Prefill then NeedsPrefill else AwaitingDecode(rows[i].tokens[0]);
        active := active[rows[i].id := active[rows[i].id].(phase := phase)];
        i := i + 1;
      }
    }

    method RollBack()
      requires Valid() && inFlight.Some?
      modifies this`active, this`inFlight, this`events, kv
      ensures Valid()
      ensures Abs() == FailRows(old(Abs()).(inFlight := None), old(inFlight).value.kind, old(inFlight).value.rows, 0)
      ensures events == old(events) + [Fail] && TrimmedSince(old(kv.Snapshot()))
    {
      TakeAndRestore();
      events := events + [Fail];
    }

    method TakeAndRestore()
      requires Valid() && inFlight.Some?
      modifies this`active, this`inFlight, kv
      ensures kv.Valid() && Linked(events + [Fail], Abs(), kv.Snapshot())
      ensures Abs() == FailRows(old(Abs()).(inFlight := None), old(inFlight).value.kind, old(inFlight).value.rows, 0)
      ensures TrimmedSince(old(kv.Snapshot()))
    {
      ghost var p, k := Abs(), kv.Snapshot();
      RollBackReady(events, p, k);
      var kind, rows := inFlight.value.kind, inFlight.value.rows;
      inFlight := None;
      CancelRows(rows);
      RestorePhases(kind, rows);
      FailLinked(events, p, k, kv.Snapshot());
    }

    /** Cancel a queued request, or an active one that no batch owns. */
    method CancelRequest(id: nat) returns (r: Result<bool>)
      requires Valid()
      modifies this`pending, this`deferred, this`active, this`stored, this`cancelled, this`events, kv
      ensures Valid()
      ensures r.Failure? <==> id in old(active) && old(active)[id].phase.InFlight?
      ensures r == Success(true) ==>
        Abs() == CancelIn(old(Abs()), id) && events == old(events) + [Cancel(id)] && TrimmedSince(old(kv.Snapshot()))
      ensures r != Success(true) ==> Abs() == old(Abs()) && kv.Snapshot() == old(kv.Snapshot()) && events == old(events)
      ensures r.Success? ==> (r.value <==> id in old(active) || id in PendingIds(old(pending)))
    {
      if id in active {
        if active[id].phase.InFlight? {
          return Failure;
        }
        CancelRunning(id);
      } else {
        if id !in PendingIds(pending) {
          return Success(false);
        }
        CancelQueued(id);
      }
      deferred := deferred - {id};
      return Success(true);
    }

    method CancelRunning(id: nat)
      requires Valid() && id in active && !active[id].phase.InFlight?
      modifies this`active, this`stored, this`cancelled, this`events, kv
      ensures Valid() && Abs() == CancelIn(old(Abs()), id)
      ensures events == old(events) + [Cancel(id)] && TrimmedSince(old(kv.Snapshot()))
    {
      ghost var p, k := Abs(), kv.Snapshot();
      PreemptReady(events, p, k, id);
      var removed := kv.RemoveSequence(id);
      assert removed.Success?;
      active := active - {id};
      stored, cancelled := stored - {id}, cancelled + {id};
      CancelLinked(events, p, k, kv.Snapshot(), id);
      FewerTrimmed(k, kv.Snapshot(), id);
      events := events + [Cancel(id)];
    }

    method CancelQueued(id: nat)
      requires Valid() && id !in active && id in PendingIds(pending)
      modifies this`pending, this`cancelled, this`events
      ensures Valid() && Abs() == CancelIn(old(Abs()), id) && events == old(events) + [Cancel(id)]
    {
      ghost var p, k := Abs(), kv.Snapshot();
      pending := WithoutPending(pending, id);
      cancelled := cancelled + {id};
      CancelLinked(events, p, k, k, id);
      events := events + [Cancel(id)];
    }
  }

  lemma RollBackReady(events: seq<Event>, p: State, k: Cache)
    requires Linked(events, p, k) && p.inFlight.Some?
    ensures var rows := p.inFlight.value.rows;
      && GroupOk(k, Group(rows, false))
      && forall i :: 0 <= i < |rows| ==> rows[i].id in p.active && rows[i].tokens != []
  {
    FlightReady(events, p, k);
    var rows := p.inFlight.value.rows;
    GroupOfBatch(k, rows, false);
    forall i | 0 <= i < |rows|
      ensures rows[i].id in p.active && rows[i].tokens != []
    {
      assert |rows[i].tokens| == p.inFlight.value.Width();
    }
  }

  lemma CancelTied(p: State, k: Cache, k': Cache, id: nat)
    requires Tied(p, k) && Consistent(p) && (id in p.active ==> !p.active[id].phase.InFlight?)
    requires k'.sequences == (if id in p.active then k.sequences - {id} else k.sequences) && k'.reservations == k.reservations
    ensures Tied(CancelIn(p, id), k')
  {
    if p.inFlight.Some? {
      var rows := p.inFlight.value.rows;
      forall i | 0 <= i < |rows|
        ensures Holds(k', rows[i])
      {
        assert InFlightRow(p, p.inFlight.value.kind, p.inFlight.value.id, rows[i]);
        assert Holds(k, rows[i]);
      }
    }
  }

  lemma CancelLinked(events: seq<Event>, p: State, k: Cache, k': Cache, id: nat)
    requires Linked(events, p, k) && k'.config == k.config && k'.reservations == k.reservations
    requires k'.sequences == if id in p.active then k.sequences - {id} else k.sequences
    requires if id in p.active then !p.active[id].phase.InFlight? else id in PendingIds(p.pending)
    ensures Linked(events + [Cancel(id)], CancelIn(p, id), k')
  {
    LinkedMeans(events, p, k);
    RunsAreSafe(events);
    CancelTied(p, k, k', id);
    CancelStep(events, id);
    ExtendRun(events, Cancel(id));
    LinkedMeans(events + [Cancel(id)], CancelIn(p, id), k');
  }

  /** The tokens a verified row has appended. */
  ghost predicate VerifiedTokens(active: map<nat, ActiveRequest>, row: Row, predictions: seq<int>, produced: seq<int>) {
    row.id in active && Taken(active[row.id], row, predictions, produced)
  }

  /** The first `n` rows' ids with the tokens each has appended. */
  ghost predicate VerifiedRows(active: map<nat, ActiveRequest>, rows: seq<Row>, argmax: seq<int>, width: nat, n: nat, appended: seq<(nat, seq<int>)>) {
    && |appended| == n <= |rows|
    && forall i :: 0 <= i < n ==>
      appended[i].0 == rows[i].id && VerifiedTokens(active, rows[i], Predictions(argmax, width, i), appended[i].1)
  }

  /** All tokens listed. */
  function Listed(appended: seq<(nat, seq<int>)>): nat {
    if appended == [] then 0 else Listed(appended[..|appended| - 1]) + |appended[|appended| - 1].1|
  }

  lemma ListedNext(appended: seq<(nat, seq<int>)>, id: nat, produced: seq<int>)
    ensures Listed(appended + [(id, produced)]) == Listed(appended) + |produced|
  {
    var longer := appended + [(id, produced)];
    assert longer[..|longer| - 1] == appended;
  }

  lemma OneRowMore(i: nat, n: int)
    ensures (i + 1) * n == i * n + n
  {
  }

  ghost predicate UntouchedFrom(before: map<nat, ActiveRequest>, active: map<nat, ActiveRequest>, rows: seq<Row>, i: nat) {
    forall j :: i <= j < |rows| ==> Same(before, active, rows[j].id)
  }

  ghost predicate Same(before: map<nat, ActiveRequest>, active: map<nat, ActiveRequest>, id: nat) {
    if id in before then id in active && active[id] == before[id] else id !in active
  }

  ghost predicate SameBut(before: map<nat, ActiveRequest>, active: map<nat, ActiveRequest>, except: nat) {
    forall id :: id != except ==> Same(before, active, id)
  }

  lemma VerifiedSameBut(p: State, row: Row, predictions: seq<int>)
    ensures SameBut(p.active, CompleteVerifyRow(p, row, predictions).active, row.id)
  {
  }

  lemma VerifiedNext(before: map<nat, ActiveRequest>, a: map<nat, ActiveRequest>, a': map<nat, ActiveRequest>, rows: seq<Row>, argmax: seq<int>, width: nat, i: nat, appended: seq<(nat, seq<int>)>, produced: seq<int>)
    requires DistinctRows(rows) && i < |rows| && VerifiedRows(before, rows, argmax, width, i, appended) && UntouchedFrom(before, a, rows, i)
    requires VerifiedTokens(a, rows[i], Predictions(argmax, width, i), produced) && SameBut(a, a', rows[i].id)
    ensures VerifiedRows(before, rows, argmax, width, i + 1, appended + [(rows[i].id, produced)]) && UntouchedFrom(before, a', rows, i + 1)
  {
    assert Same(before, a, rows[i].id);
    forall j | i + 1 <= j < |rows|
      ensures Same(before, a', rows[j].id)
    {
      assert rows[i].id != rows[j].id && Same(before, a, rows[j].id) && Same(a, a', rows[j].id);
    }
  }

  lemma Regrouped(front: seq<int>, x: int, back: seq<int>)
    ensures front + ([x] + back) == front + [x] + back
  {
  }

  /** The pool can hold one sequence of maximal length. */
  predicate RoomForOne(c: PagedKv.Config) {
    c.maxLength <= c.numPages * c.blockSize
  }

  /** No request's next step fits. */
  ghost predicate NothingFits(p: State, k: Cache, deferred: set<nat>, chunkTokens: Option<nat>, maxTokens: nat) {
    && (forall id :: !DecodeFits(p.active, k, id))
    && (forall id :: !PrefillFits(p.active, k, deferred, chunkTokens, maxTokens, id))
  }

  /** When nothing fits although at most one request holds pages, there is no request. */
  lemma StuckMeansIdle(events: seq<Event>, p: State, k: Cache, deferred: set<nat>, chunkTokens: Option<nat>, maxTokens: nat)
    requires Linked(events, p, k) && Sound(k) && p.inFlight.None? && |Holders(k)| <= 1
    requires maxTokens > 0 && (chunkTokens.Some? ==> chunkTokens.value > 0)
    requires NothingFits(p, k, deferred, chunkTokens, maxTokens)
    ensures deferred == {} && k.config.maxLength <= k.config.numPages * k.config.blockSize ==> p.active == map[]
  {
    if deferred == {} && k.config.maxLength <= k.config.numPages * k.config.blockSize && p.active != map[] {
      LinkedMeans(events, p, k);
      RunsAreSafe(events);
      ActiveFits(p, k.config.maxLength);
      var id := SomebodyRuns(p, k, chunkTokens, maxTokens);
      RunnableFits(p, k, deferred, chunkTokens, maxTokens, id);
    }
  }

  lemma ActiveFits(p: State, maxLength: nat)
    requires Fits(p, maxLength) && Conserved(p)
    ensures forall id :: id in p.active ==> |p.active[id].spec.prompt| + p.active[id].spec.maxNew <= maxLength
  {
  }

  /** Putting the batch in flight is all that a scheduling attempt leaves to do. */
  lemma LaunchedState(p: State, batch: Batch)
    requires p.inFlight.None?
    ensures LaunchIn(p, batch) ==
      LaunchRows(p.(nextBatch := p.nextBatch + 1), batch.id, batch.rows, 0).(inFlight := Some(batch))
    ensures LaunchIn(p, batch).nextBatch == p.nextBatch + 1
  {
    LaunchRowsEffect(p.(inFlight := Some(batch), nextBatch := p.nextBatch + 1), batch.id, batch.rows, 0);
    LaunchKeepsFlight(p.(nextBatch := p.nextBatch + 1), batch.id, batch.rows, 0, Some(batch));
  }

  lemma {:induction false} LaunchKeepsFlight(p: State, batch: nat, rows: seq<Row>, i: nat, flight: Option<Batch>)
    ensures LaunchRows(p.(inFlight := flight), batch, rows, i) == LaunchRows(p, batch, rows, i).(inFlight := flight)
    decreases |rows| - i
  {
    if i < |rows| {
      LaunchKeepsFlight(LaunchRow(p, batch, rows[i]), batch, rows, i + 1, flight);
    }
  }

  lemma NobodyInFlight(events: seq<Event>)
    requires Legal(events) && After(events).inFlight.None?
    ensures forall id :: id in After(events).active ==> !After(events).active[id].phase.InFlight?
  {
    RunsAreSafe(events);
    var p := After(events);
    forall id | id in p.active
      ensures !p.active[id].phase.InFlight?
    {
      assert !Owned([], 0, id);
      assert Settled(p.active[id], p.stored[id]);
    }
  }

  lemma HoldersAreActive(p: State, k: Cache, holders: seq<nat>)
    requires Tied(p, k) && PageSet(holders) == Holders(k)
    ensures forall i :: 0 <= i < |holders| ==> holders[i] in p.active && Holder(k, holders[i])
    ensures forall id :: Holder(k, id) ==> id in holders
  {
    forall i | 0 <= i < |holders|
      ensures holders[i] in p.active && Holder(k, holders[i])
    {
      InPageSet(holders, i);
    }
    forall id | Holder(k, id)
      ensures id in holders
    {
      assert id in Holders(k);
    }
  }

  lemma AtLeastOneRow(tokens: nat, width: nat)
    requires 0 < width <= tokens
    ensures tokens / width >= 1
  {
    assert tokens == width * (tokens / width) + tokens % width;
  }

  lemma RowBudget(tokens: nat, width: nat, rows: nat)
    requires width > 0 && rows <= tokens / width
    ensures rows * width <= tokens
  {
    assert rows * width <= (tokens / width) * width;
    assert tokens == width * (tokens / width) + tokens % width;
  }

  /** Collected rows make a launch that the protocol allows. */
  lemma ReadyToLaunch(p: State, k0: Cache, k: Cache, kind: Kind, rows: seq<Row>, width: nat, budget: nat)
    requires Collected(p, k0, k, kind, rows) && rows != [] && UniformRows(rows, width) && |rows| * width <= budget && p.inFlight.None?
    ensures forall i :: 0 <= i < |rows| ==> rows[i].id in p.active
    ensures var batch := Batch(p.nextBatch, kind, rows);
      && LaunchEnabled(p, batch)
      && Scheduled(p, k0, LaunchRows(p.(nextBatch := p.nextBatch + 1), p.nextBatch, rows, 0), k, Some(batch), budget)
  {
    RowsAreActive(p, k0, k, kind, rows);
    CollectedFlat(p, k0, k, kind, rows);
    ReservedRowsLaunch(p, k0, k, kind, rows, width);
    assert Batch(p.nextBatch, kind, rows).Width() == width;
  }

  lemma RowsAreActive(p: State, k0: Cache, k: Cache, kind: Kind, rows: seq<Row>)
    requires Collected(p, k0, k, kind, rows)
    ensures forall i :: 0 <= i < |rows| ==> rows[i].id in p.active
  {
    CollectedFlat(p, k0, k, kind, rows);
    forall i | 0 <= i < |rows|
      ensures rows[i].id in p.active
    {
      assert RowReserved(p, k, kind, rows[i]);
    }
  }
}
