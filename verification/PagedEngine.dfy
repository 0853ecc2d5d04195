/**
 The batch runner over a paged device: schedule, write the rows' tokens into their slots, read every context back
 through the block tables, select tokens, commit. Nothing is assumed of the device but that it reads what is there.
 */
module PagedEngine {
  import opened Wrappers
  import opened Arithmetic
  import opened Generation
  import opened Protocol
  import opened ProtocolSafety
  import opened ProtocolRuns
  import opened PagedKv
  import opened SchedulerTies
  import opened Scheduler
  import opened PagedMemory

  // ----- the device -----

  class Engine {
    const config: PagedKv.Config
    const vocabulary: nat
    var pool: Pool

    constructor (config: PagedKv.Config, vocabulary: nat)
      ensures this.config == config && this.vocabulary == vocabulary && pool == map[]
    {
      this.config, this.vocabulary, pool := config, vocabulary, map[];
    }

    predicate Executable(rows: seq<Row>) {
      && rows != [] && rows[0].tokens != []
      && (forall i :: 0 <= i < |rows| ==> |rows[i].tokens| == |rows[0].tokens|)
      && (forall i, j :: 0 <= i < |rows| && 0 <= j < |rows[i].tokens| ==> 0 <= rows[i].tokens[j] < vocabulary)
      && (forall i, j :: 0 <= i < |rows| && 0 <= j < |rows[i].table| ==> rows[i].table[j] < config.numPages)
    }

    /** The keys and values of a row's tokens go to the slots its table names. */
    method WriteRow(row: Row, ghost k: Cache, ghost held: map<nat, seq<int>>)
      requires CacheOk(k) && k.config == config && Continues(k, held, row) && Mirrors(pool, k, held)
      modifies this`pool
      ensures Mirrors(pool, k, held[row.id := held[row.id] + row.tokens])
    {
      var i := 0;
      assert held[row.id] + row.tokens[..0] == held[row.id];
      assert held[row.id := held[row.id] + row.tokens[..0]] == held;
      while i < |row.tokens|
        invariant 0 <= i <= |row.tokens|
        invariant Mirrors(pool, k, held[row.id := held[row.id] + row.tokens[..i]])
      {
        ghost var now := held[row.id := held[row.id] + row.tokens[..i]];
        assert Reaches(row.table, config.blockSize, row.start + i);
        WriteNext(pool, k, now, row.id, row.tokens[i]);
        pool := pool[Slot(row.table, config.blockSize, row.start + i) := row.tokens[i]];
        assert now[row.id] + [row.tokens[i]] == held[row.id] + row.tokens[..i + 1];
        assert now[row.id := now[row.id] + [row.tokens[i]]] == held[row.id := held[row.id] + row.tokens[..i + 1]];
        i := i + 1;
      }
      assert row.tokens[..|row.tokens|] == row.tokens;
    }

    method WriteRows(rows: seq<Row>, ghost k: Cache, ghost held: map<nat, seq<int>>)
      requires CacheOk(k) && k.config == config && DistinctRows(rows) && Mirrors(pool, k, held)
      requires forall i :: 0 <= i < |rows| ==> Continues(k, held, rows[i])
      modifies this`pool
      ensures Mirrors(pool, k, Extended(held, rows, |rows|))
    {
      var i := 0;
      while i < |rows|
        invariant 0 <= i <= |rows| && Mirrors(pool, k, Extended(held, rows, i))
      {
        StillContinues(k, held, rows, i);
        WriteRow(rows[i], k, Extended(held, rows, i));
        i := i + 1;
      }
    }

    /** What every row's last position attends to. */
    method ReadRows(rows: seq<Row>, ghost k: Cache, ghost held: map<nat, seq<int>>) returns (contexts: seq<seq<int>>)
      requires k.config == config && DistinctRows(rows) && Mirrors(pool, k, Extended(held, rows, |rows|))
      requires forall i :: 0 <= i < |rows| ==> Continues(k, held, rows[i])
      ensures Answers(held, rows, contexts)
    {
      contexts := [];
      ExtendedMeans(held, rows, |rows|);
      var i := 0;
      while i < |rows|
        invariant 0 <= i <= |rows| && |contexts| == i
        invariant forall j :: 0 <= j < i ==> rows[j].id in held && contexts[j] == held[rows[j].id] + rows[j].tokens
      {
        ghost var tokens := held[rows[i].id] + rows[i].tokens;
        assert MirrorsOne(pool, k, rows[i].id, tokens);
        GatherHeld(pool, rows[i].table, config.blockSize, tokens);
        contexts := contexts + [Gather(pool, rows[i].table, config.blockSize, rows[i].context)];
        i := i + 1;
      }
    }

    /** `execute_positions`: refused batches leave the device as it was. */
    method Execute(rows: seq<Row>, ghost k: Cache, ghost held: map<nat, seq<int>>) returns (r: Result<seq<seq<int>>>)
      requires CacheOk(k) && k.config == config && DistinctRows(rows) && Mirrors(pool, k, held)
      requires forall i :: 0 <= i < |rows| ==> Continues(k, held, rows[i])
      modifies this`pool
      ensures r.Success? <==> Executable(rows)
      ensures r.Success? ==> Answers(held, rows, r.value) && Mirrors(pool, k, Extended(held, rows, |rows|))
      ensures r.Failure? ==> pool == old(pool)
    {
      if !Executable(rows) {
        return Failure;
      }
      WriteRows(rows, k, held);
      var contexts := ReadRows(rows, k, held);
      return Success(contexts);
    }
  }

  /** Each row is answered from what its request has stored followed by the row's own tokens. */
  ghost predicate Answers(held: map<nat, seq<int>>, rows: seq<Row>, contexts: seq<seq<int>>) {
    && |contexts| == |rows|
    && forall i :: 0 <= i < |rows| ==> rows[i].id in held && contexts[i] == held[rows[i].id] + rows[i].tokens
  }

  lemma StillContinues(k: Cache, held: map<nat, seq<int>>, rows: seq<Row>, i: nat)
    requires DistinctRows(rows) && i < |rows| && Continues(k, held, rows[i])
    ensures Continues(k, Extended(held, rows, i), rows[i])
    ensures Extended(held, rows, i + 1) == Extended(held, rows, i)[rows[i].id := Extended(held, rows, i)[rows[i].id] + rows[i].tokens]
  {
    ExtendedMeans(held, rows, i);
  }

  /** A row in flight continues what its request has stored. */
  lemma FlightContinues(events: seq<Event>, p: State, k: Cache)
    requires Linked(events, p, k) && Sound(k) && p.inFlight.Some?
    ensures DistinctRows(p.inFlight.value.rows)
    ensures forall i :: 0 <= i < |p.inFlight.value.rows| ==> Continues(k, p.stored, p.inFlight.value.rows[i])
  {
    LinkedMeans(events, p, k);
    SoundIsOk(k);
    RunsAreSafe(events);
    var batch := p.inFlight.value;
    forall i | 0 <= i < |batch.rows|
      ensures Continues(k, p.stored, batch.rows[i])
    {
      assert InFlightRow(p, batch.kind, batch.id, batch.rows[i]) && Holds(k, batch.rows[i]);
      RowReached(k, batch.rows[i]);
    }
  }

  lemma RowReached(k: Cache, row: Row)
    requires CacheOk(k) && Holds(k, row) && row.context == row.start + |row.tokens|
    ensures forall i: nat :: i < row.context ==> Reaches(row.table, k.config.blockSize, i)
  {
    assert SequenceOk(k, row.id);
    forall i: nat | i < row.context
      ensures Reaches(row.table, k.config.blockSize, i)
    {
      BlockInside(i, row.context, k.config.blockSize, |row.table|);
    }
  }

  // ----- what completing a batch stores -----

  /** What is stored afterwards was stored before, perhaps with a front part of a row's tokens. */
  ghost predicate StoresWithin(s: State, rows: seq<Row>, from: nat, s': State) {
    forall id :: id in s'.stored ==> id in s.stored && (s'.stored[id] == s.stored[id] || Appended(s, rows, from, s', id))
  }

  ghost predicate Appended(s: State, rows: seq<Row>, from: nat, s': State, id: nat)
    requires id in s'.stored && id in s.stored
  {
    exists j :: from <= j < |rows| && rows[j].id == id && s'.stored[id] <= s.stored[id] + rows[j].tokens
  }

  lemma OneStores(s: State, rows: seq<Row>, i: nat, t: State, s': State)
    requires DistinctRows(rows) && i < |rows| && StoresWithin(t, rows, i + 1, s')
    requires forall id :: id in t.stored && id != rows[i].id ==> id in s.stored && t.stored[id] == s.stored[id]
    requires rows[i].id in t.stored ==> rows[i].id in s.stored && t.stored[rows[i].id] <= s.stored[rows[i].id] + rows[i].tokens
    ensures StoresWithin(s, rows, i, s')
  {
    forall id | id in s'.stored
      ensures id in s.stored && (s'.stored[id] == s.stored[id] || Appended(s, rows, i, s', id))
    {
      assert id in t.stored;
      if id == rows[i].id {
        assert !Appended(t, rows, i + 1, s', id);
        assert s'.stored[id] <= s.stored[id] + rows[i].tokens;
      } else if Appended(t, rows, i + 1, s', id) {
        var j :| i + 1 <= j < |rows| && rows[j].id == id && s'.stored[id] <= t.stored[id] + rows[j].tokens;
        assert s'.stored[id] <= s.stored[id] + rows[j].tokens;
      }
    }
  }

  lemma {:induction false} CompleteStores(s: State, rows: seq<Row>, tokens: seq<int>, i: nat)
    requires DistinctRows(rows) && |tokens| == |rows|
    ensures StoresWithin(s, rows, i, CompleteRows(s, rows, tokens, i))
    decreases |rows| - i
  {
    if i < |rows| {
      var t := CompleteRow(s, rows[i], tokens[i]);
      CompleteStores(t, rows, tokens, i + 1);
      OneStores(s, rows, i, t, CompleteRows(s, rows, tokens, i));
    }
  }

  lemma {:induction false} VerifyStores(s: State, rows: seq<Row>, argmax: seq<int>, width: nat, i: nat)
    requires DistinctRows(rows)
    ensures StoresWithin(s, rows, i, CompleteVerifyRows(s, rows, argmax, width, i))
    decreases |rows| - i
  {
    if i < |rows| {
      var t := CompleteVerifyRow(s, rows[i], Predictions(argmax, width, i));
      VerifyStores(t, rows, argmax, width, i + 1);
      OneStores(s, rows, i, t, CompleteVerifyRows(s, rows, argmax, width, i));
    }
  }

  /** The device holds whatever a completed batch has stored. */
  lemma CompletedMirrors(pool: Pool, k: Cache, s: State, rows: seq<Row>, k': Cache, s': State)
    requires DistinctRows(rows) && Mirrors(pool, k, Extended(s.stored, rows, |rows|)) && StoresWithin(s, rows, 0, s')
    requires Trimmed(k, k') && Sound(k') && k'.config == k.config && Tied(s', k')
    ensures Mirrors(pool, k', s'.stored)
  {
    SoundIsOk(k');
    ExtendedMeans(s.stored, rows, |rows|);
    forall id | id in s'.stored
      ensures s'.stored[id] <= Extended(s.stored, rows, |rows|)[id]
    {
      if s'.stored[id] != s.stored[id] {
        var j :| 0 <= j < |rows| && rows[j].id == id && s'.stored[id] <= s.stored[id] + rows[j].tokens;
      } else if j :| 0 <= j < |rows| && rows[j].id == id {
        assert Extended(s.stored, rows, |rows|)[id] == s.stored[id] + rows[j].tokens;
      }
    }
    MirrorsLess(pool, k, Extended(s.stored, rows, |rows|), s'.stored);
    MirrorsTrimmed(pool, k, k', s'.stored);
  }

  // ----- the run stays honest -----

  lemma HonestNext(next: Model, events: seq<Event>, e: Event)
    requires Legal(events) && Honest(next, events) && LegalThen(events, e) && HonestEvent(next, After(events), e)
    ensures Legal(events + [e]) && Honest(next, events + [e])
  {
    ExtendRun(events, e);
    assert (events + [e])[..|events|] == events;
    assert HonestThen(next, events, e);
  }

  /** Planning asks nothing of the device. */
  lemma {:induction false} HonestPlan(next: Model, events: seq<Event>, longer: seq<Event>)
    requires Legal(events) && Honest(next, events) && Legal(longer) && PlanEvents(events, longer)
    ensures Honest(next, longer)
    decreases |longer|
  {
    if |longer| == |events| {
      assert longer == events;
    } else {
      var front, e := longer[..|longer| - 1], longer[|longer| - 1];
      assert LegalThen(front, e) && PlanEvent(e);
      assert front[..|events|] == longer[..|events|];
      HonestPlan(next, events, front);
      assert HonestThen(next, front, e);
    }
  }

  lemma HonestTokens(next: Model, p: State, tokens: seq<int>, contexts: seq<seq<int>>)
    requires p.inFlight.Some? && p.inFlight.value.kind != Verify && |tokens| == |p.inFlight.value.rows|
    requires Answers(p.stored, p.inFlight.value.rows, contexts)
    requires forall i :: 0 <= i < |tokens| ==> Selected(next, p, p.inFlight.value.rows[i], contexts[i], tokens[i])
    ensures HonestEvent(next, p, Complete(tokens))
  {
    forall i | 0 <= i < |tokens|
      ensures HonestToken(next, p, p.inFlight.value.rows[i], tokens[i])
    {
      assert Selected(next, p, p.inFlight.value.rows[i], contexts[i], tokens[i]);
    }
  }

  /** A greedy row that produces a token gets the model's choice. */
  ghost predicate Selected(next: Model, p: State, row: Row, context: seq<int>, token: int) {
    row.id in p.active && row.context >= |p.active[row.id].history| && p.active[row.id].spec.greedy ==> token == next(context)
  }

  /** The model's choice at every position of a row. */
  function Choices(next: Model, row: Row, context: seq<int>): (r: seq<int>)
    requires |context| >= row.start + |row.tokens|
    ensures |r| == |row.tokens|
  {
    seq(|row.tokens|, (p: nat) requires p < |row.tokens| => next(context[..row.start + p + 1]))
  }

  lemma HonestChoices(next: Model, events: seq<Event>, p: State, k: Cache, argmax: seq<int>, contexts: seq<seq<int>>)
    requires Linked(events, p, k) && Sound(k) && p.inFlight.Some? && p.inFlight.value.kind == Verify
    requires |argmax| == |p.inFlight.value.rows| * p.inFlight.value.Width() && Answers(p.stored, p.inFlight.value.rows, contexts)
    requires ChoicesOf(next, p.inFlight.value.rows, contexts, p.inFlight.value.Width(), |contexts|, argmax)
    ensures HonestEvent(next, p, CompleteVerify(argmax))
  {
    FlightContinues(events, p, k);
    var rows, width := p.inFlight.value.rows, p.inFlight.value.Width();
    forall i | 0 <= i < |rows|
      ensures HonestPredictions(next, p, rows[i], Predictions(argmax, width, i))
    {
      HonestRow(next, p, rows[i], contexts[i], Predictions(argmax, width, i));
    }
  }

  lemma HonestRow(next: Model, p: State, row: Row, context: seq<int>, predictions: seq<int>)
    requires row.id in p.stored && context == p.stored[row.id] + row.tokens && row.start == |p.stored[row.id]|
    requires predictions == Choices(next, row, context)
    ensures HonestPredictions(next, p, row, predictions)
  {
    forall i | 0 <= i < |predictions|
      ensures predictions[i] == next(p.stored[row.id] + row.tokens[..i + 1])
    {
      assert context[..row.start + i + 1] == p.stored[row.id] + row.tokens[..i + 1];
    }
  }

  /** The row-major matrix of the first rows' choices. */
  ghost predicate ChoicesOf(next: Model, rows: seq<Row>, contexts: seq<seq<int>>, width: nat, n: nat, argmax: seq<int>) {
    && n <= |rows| == |contexts|
    && forall i :: 0 <= i < n ==>
      |contexts[i]| >= rows[i].start + |rows[i].tokens| && Predictions(argmax, width, i) == Choices(next, rows[i], contexts[i])
  }

  lemma OneMoreRow(argmax: seq<int>, n: nat, width: nat, row: seq<int>)
    requires |argmax| == n * width && |row| == width
    ensures |argmax + row| == (n + 1) * width
    ensures forall i: nat :: i < n ==> Predictions(argmax + row, width, i) == Predictions(argmax, width, i)
    ensures Predictions(argmax + row, width, n) == row
  {
    forall i: nat | i < n
      ensures Predictions(argmax + row, width, i) == Predictions(argmax, width, i)
    {
      MulMonotone(i + 1, n, width);
      assert (i + 1) * width == i * width + width;
    }
  }

  // ----- the runner -----

  type Sampler = (nat, nat, seq<int>) -> int

  class Runner {
    const scheduler: BatchScheduler
    const engine: Engine
    const next: Model
    const sample: Sampler
    const fails: nat -> bool

    /** The device holds what the scheduler believes is cached. */
    ghost predicate Mirrored()
      reads scheduler`stored, scheduler.kv, engine`pool
    {
      engine.config == scheduler.kv.config && Mirrors(engine.pool, scheduler.kv.Snapshot(), scheduler.stored)
    }

    /** Every token so far came from what the device held. */
    ghost predicate Faithful()
      reads scheduler`events
    {
      Legal(scheduler.events) && Honest(next, scheduler.events)
    }

    ghost predicate Valid()
      reads scheduler, scheduler.kv, engine`pool
    {
      scheduler.Valid() && Mirrored() && Faithful()
    }

    /** `new`: the device's results are arbitrary functions of what it reads, and any batch may fail. */
    constructor (maxActive: nat, maxBatchTokens: nat, maxPending: Option<nat>, config: PagedKv.Config, vocabulary: nat, next: Model, sample: Sampler, fails: nat -> bool)
      requires maxActive > 0 && maxBatchTokens > 0
      requires config.blockSize > 0 && config.numPages > 0 && config.maxLength > 0
      ensures Valid() && fresh(scheduler) && fresh(scheduler.kv) && fresh(engine)
      ensures scheduler.Abs() == Initial && scheduler.Unrestricted() && scheduler.kv.config == config && scheduler.popped == 0
      ensures this.next == next && this.sample == sample && this.fails == fails && engine.vocabulary == vocabulary
      ensures scheduler.chunkTokens.Some? && scheduler.maxPending == maxPending
    {
      this.next, this.sample, this.fails := next, sample, fails;
      scheduler := new BatchScheduler(maxActive, maxBatchTokens, maxPending, config, true);
      engine := new Engine(config, vocabulary);
    }

    predicate InVocabulary(spec: Spec) {
      && (forall i :: 0 <= i < |spec.prompt| ==> 0 <= spec.prompt[i] < engine.vocabulary)
      && (forall t :: t in spec.eos ==> 0 <= t < engine.vocabulary)
    }

    method Submit(spec: Spec) returns (r: Result<nat>)
      requires Valid()
      modifies scheduler`pending, scheduler`finished, scheduler`nextRequest, scheduler`submitted, scheduler`done, scheduler`events
      ensures Valid()
      ensures r.Success? <==> InVocabulary(spec) && old(scheduler.Accepts(spec))
      ensures r.Success? ==> r.value == old(scheduler.nextRequest) && scheduler.Abs() == SubmitTo(old(scheduler.Abs()), spec)
      ensures r.Failure? ==> scheduler.Abs() == old(scheduler.Abs())
    {
      if !InVocabulary(spec) {
        return Failure;
      }
      r := scheduler.Submit(spec);
    }

    /** Drop a request that no batch owns. */
    method Cancel(id: nat) returns (r: Result<bool>)
      requires Valid()
      modifies scheduler, scheduler.kv
      ensures Valid()
      ensures r == Success(true) ==> scheduler.Abs() == CancelIn(old(scheduler.Abs()), id)
      ensures r != Success(true) ==> scheduler.Abs() == old(scheduler.Abs())
    {
      ghost var e, p, k := scheduler.events, scheduler.Abs(), scheduler.kv.Snapshot();
      r := scheduler.CancelRequest(id);
      if r == Success(true) {
        CancellationKeeps(next, engine.pool, e, p, k, id, scheduler.kv.Snapshot());
      }
    }

    // ----- one batch -----

    /** One token for each row that produces one; the others get none. */
    method SelectTokens(batch: Batch, contexts: seq<seq<int>>) returns (tokens: seq<int>)
      requires |contexts| == |batch.rows|
      ensures |tokens| == |batch.rows|
      ensures forall i :: 0 <= i < |tokens| ==> Selected(next, scheduler.Abs(), batch.rows[i], contexts[i], tokens[i])
    {
      tokens := [];
      var i := 0;
      while i < |batch.rows|
        invariant 0 <= i <= |batch.rows| && |tokens| == i
        invariant forall j :: 0 <= j < i ==> Selected(next, scheduler.Abs(), batch.rows[j], contexts[j], tokens[j])
      {
        var row := batch.rows[i];
        var token :=
          if !scheduler.SamplesToken(row) then -1
          else if scheduler.active[row.id].spec.greedy then next(contexts[i])
          else sample(batch.id, row.id, contexts[i]);
        tokens := tokens + [token];
        i := i + 1;
      }
    }

    /** The model's choice at every position of every row. */
    method SelectAll(rows: seq<Row>, contexts: seq<seq<int>>, width: nat) returns (argmax: seq<int>)
      requires |contexts| == |rows| && UniformRows(rows, width)
      requires forall i :: 0 <= i < |rows| ==> |contexts[i]| >= rows[i].start + |rows[i].tokens|
      ensures |argmax| == |rows| * width && ChoicesOf(next, rows, contexts, width, |rows|, argmax)
    {
      argmax := [];
      var i := 0;
      while i < |rows|
        invariant 0 <= i <= |rows| && |argmax| == i * width
        invariant ChoicesOf(next, rows, contexts, width, i, argmax)
      {
        var row := Choices(next, rows[i], contexts[i]);
        OneMoreRow(argmax, i, width, row);
        argmax := argmax + row;
        i := i + 1;
      }
    }

    method CompletePlain(batch: Batch, contexts: seq<seq<int>>) returns (ok: bool)
      requires Ran(batch, contexts) && batch.kind != Verify
      modifies scheduler`active, scheduler`finished, scheduler`stored, scheduler`done, scheduler`inFlight, scheduler`events, scheduler.kv
      ensures ok ==> Valid() && scheduler.inFlight.None? && old(scheduler.done) <= scheduler.done
      ensures !ok ==> Ran(batch, contexts) && scheduler.done == old(scheduler.done)
    {
      ghost var e, p, k := scheduler.events, scheduler.Abs(), scheduler.kv.Snapshot();
      var tokens := SelectTokens(batch, contexts);
      var completed := scheduler.CompleteBatch(batch.id, tokens);
      ok := completed.Success?;
      if ok {
        CompletionKeeps(next, engine.pool, e, p, k, contexts, tokens, scheduler.kv.Snapshot());
      }
    }

    method CompleteVerified(batch: Batch, contexts: seq<seq<int>>) returns (ok: bool)
      requires Ran(batch, contexts) && batch.kind == Verify
      modifies scheduler`active, scheduler`finished, scheduler`stored, scheduler`done, scheduler`inFlight, scheduler`events
      modifies scheduler`draftedTokens, scheduler`acceptedDraftTokens, scheduler.kv
      ensures ok && Valid() && scheduler.inFlight.None? && old(scheduler.done) <= scheduler.done
    {
      ghost var e, p, k := scheduler.events, scheduler.Abs(), scheduler.kv.Snapshot();
      FlightWide(e, p, k, contexts);
      var argmax := SelectAll(batch.rows, contexts, batch.Width());
      var completed := scheduler.CompleteVerifyBatch(batch.id, argmax);
      ok := completed.Success?;
      VerificationKeeps(next, engine.pool, e, p, k, contexts, argmax, scheduler.kv.Snapshot());
    }

    /** `run_batch`: an unfinished batch is still in flight and nothing but free slots has been written. */
    method RunBatch(batch: Batch) returns (ok: bool)
      requires Valid() && scheduler.inFlight == Some(batch)
      modifies scheduler`active, scheduler`finished, scheduler`stored, scheduler`done, scheduler`inFlight, scheduler`events
      modifies scheduler`draftedTokens, scheduler`acceptedDraftTokens, scheduler.kv, engine`pool
      ensures Valid() && scheduler.inFlight == (if ok then None else Some(batch))
      ensures old(scheduler.done) <= scheduler.done
    {
      var contexts := Execute(batch);
      if contexts.Failure? {
        return false;
      }
      ok := false;
      if !fails(batch.id) {
        if batch.kind == Verify {
          ok := CompleteVerified(batch, contexts.value);
        } else {
          ok := CompletePlain(batch, contexts.value);
        }
      }
      if !ok {
        StillValid(batch, contexts.value);
      }
    }

    method Execute(batch: Batch) returns (r: Result<seq<seq<int>>>)
      requires Valid() && scheduler.inFlight == Some(batch)
      modifies engine`pool
      ensures r.Success? <==> engine.Executable(batch.rows)
      ensures if r.Success? then Ran(batch, r.value) else Valid()
    {
      ghost var k := scheduler.kv.Snapshot();
      FlightContinues(scheduler.events, scheduler.Abs(), k);
      SoundIsOk(k);
      r := engine.Execute(batch.rows, k, scheduler.stored);
    }

    lemma StillValid(batch: Batch, contexts: seq<seq<int>>)
      requires Ran(batch, contexts)
      ensures Valid()
    {
      FlightContinues(scheduler.events, scheduler.Abs(), scheduler.kv.Snapshot());
      ExtendedLess(engine.pool, scheduler.kv.Snapshot(), scheduler.stored, batch.rows);
    }

    /** `step`: a failed batch is rolled back before the error is returned. */
    method Step() returns (r: Result<bool>)
      requires Valid()
      modifies scheduler`active, scheduler`finished, scheduler`stored, scheduler`done, scheduler`inFlight, scheduler`events
      modifies scheduler`draftedTokens, scheduler`acceptedDraftTokens, scheduler.kv, engine`pool
      modifies scheduler`pending, scheduler`nextAdmission, scheduler`nextBatch, scheduler`preferPrefill, scheduler`speculativeTurn
      modifies scheduler`preemptions
      ensures Valid() && old(scheduler.done) <= scheduler.done
      ensures r.Success? ==> scheduler.inFlight.None?
      ensures r == Success(true) ==> scheduler.nextBatch == old(scheduler.nextBatch) + 1
      ensures r == Success(false) && scheduler.Unrestricted() && RoomForOne(scheduler.kv.config) ==> scheduler.Idle()
      ensures r.Failure? ==> old(scheduler.inFlight).Some? || scheduler.nextBatch == U64_MAX || RolledBack()
    {
      r := Plan();
      if r.Failure? || !r.value {
        return;
      }
      var batch := scheduler.inFlight.value;
      var ok := RunBatch(batch);
      if !ok {
        UndoBatch(batch);
        r := Failure;
      }
    }

    /** The last thing that happened is that a batch failed. */
    ghost predicate RolledBack()
      reads scheduler`events, scheduler`inFlight
    {
      scheduler.inFlight.None? && scheduler.events != [] && scheduler.events[|scheduler.events| - 1] == Fail
    }

    /** Schedule; a batch that was found is in flight. */
    method Plan() returns (r: Result<bool>)
      requires Valid()
      modifies scheduler`active, scheduler`stored, scheduler`inFlight, scheduler`events, scheduler.kv
      modifies scheduler`pending, scheduler`nextAdmission, scheduler`nextBatch, scheduler`preferPrefill, scheduler`speculativeTurn
      modifies scheduler`preemptions
      ensures Valid()
      ensures r == Success(true) ==> scheduler.inFlight.Some? && scheduler.nextBatch == old(scheduler.nextBatch) + 1
      ensures r == Success(false) ==> scheduler.inFlight.None?
      ensures r == Success(false) && scheduler.Unrestricted() && RoomForOne(scheduler.kv.config) ==> scheduler.Idle()
      ensures r.Failure? ==> old(scheduler.inFlight).Some? || scheduler.nextBatch == U64_MAX
    {
      ghost var e, p, k := scheduler.events, scheduler.Abs(), scheduler.kv.Snapshot();
      var scheduled := scheduler.Schedule();
      PlanKeeps(next, engine.pool, e, p, k, scheduler.events, scheduler.Abs(), scheduler.kv.Snapshot());
      r := if scheduled.Failure? then Failure else Success(scheduled.value.Some?);
    }

    method UndoBatch(batch: Batch)
      requires Valid() && scheduler.inFlight == Some(batch)
      modifies scheduler`active, scheduler`inFlight, scheduler`events, scheduler.kv
      ensures Valid() && RolledBack()
    {
      ghost var e, p, k := scheduler.events, scheduler.Abs(), scheduler.kv.Snapshot();
      var failed := scheduler.FailBatch(batch.id);
      assert failed.Success?;
      FailureKeeps(next, engine.pool, e, p, k, scheduler.kv.Snapshot());
    }

    // ----- the whole run -----

    /** The result of a submitted request; a greedy one got the single-sequence decoder's output. */
    ghost predicate Right(f: Finished)
      reads scheduler`submitted
    {
      && f.id in scheduler.submitted
      && var spec := scheduler.submitted[f.id];
        && f.prompt == spec.prompt && f.stoppedOnEos == (f.generated != [] && Last(f.generated) in spec.eos)
        && (spec.greedy ==> GreedyOutput(next, spec.prompt, spec.maxNew, spec.eos, f.generated))
    }

    ghost predicate AllRight(results: seq<Finished>)
      reads scheduler`submitted
    {
      forall i :: 0 <= i < |results| ==> Right(results[i])
    }

    lemma PoppedAreRight(results: seq<Finished>, from: nat)
      requires Valid() && Popped(results, from)
      ensures AllRight(results)
    {
      LinkedMeans(scheduler.events, scheduler.Abs(), scheduler.kv.Snapshot());
      forall i | 0 <= i < |results|
        ensures Right(results[i])
      {
        BatchingRefinesGreedyDecoding(next, scheduler.events, from + i);
      }
    }

    /** Nobody waits: every request has exactly one result, or was cancelled. */
    ghost predicate AllAnswered()
      reads scheduler`submitted, scheduler`done, scheduler`cancelled
    {
      && (forall id :: id in scheduler.submitted ==> (id in scheduler.cancelled <==> id !in DoneIds(scheduler.done)))
      && (forall i, j :: 0 <= i < j < |scheduler.done| ==> scheduler.done[i].id != scheduler.done[j].id)
    }

    lemma IdleMeansAnswered()
      requires Valid() && scheduler.Idle()
      ensures AllAnswered()
    {
      LinkedMeans(scheduler.events, scheduler.Abs(), scheduler.kv.Snapshot());
      RunsAreSafe(scheduler.events);
    }

    /** The results popped since there were `from` of them. */
    ghost predicate Popped(results: seq<Finished>, from: nat)
      reads scheduler`popped, scheduler`done
    {
      from <= scheduler.popped <= |scheduler.done| && results == scheduler.done[from..scheduler.popped]
    }

    lemma DoneIsAnswer(id: nat, results: seq<Finished>)
      requires Valid() && AllAnswered() && id in scheduler.submitted && id !in scheduler.cancelled
      requires Popped(results, 0) && scheduler.finished == []
      ensures AnsweredOnce(next, id, scheduler.submitted[id], results)
    {
      assert results == scheduler.done;
      PoppedAreRight(results, 0);
      assert id in DoneIds(scheduler.done);
      var j :| 0 <= j < |results| && results[j].id == id;
      assert Right(results[j]);
      assert Answer(next, id, scheduler.submitted[id], results, j);
    }

    /** The requests are the first `n` of the list, numbered from one. */
    ghost predicate Submitted(specs: seq<Spec>, n: nat)
      reads scheduler`submitted, scheduler`nextRequest
    {
      && n <= |specs| && scheduler.nextRequest == n + 1
      && forall id :: 1 <= id <= n ==> id in scheduler.submitted && scheduler.submitted[id] == specs[id - 1]
    }

    method SubmitAll(specs: seq<Spec>) returns (ok: bool)
      requires Valid() && scheduler.nextRequest == 1 && scheduler.chunkTokens.Some? && scheduler.maxPending.None? && |specs| < U64_MAX
      modifies scheduler`pending, scheduler`finished, scheduler`nextRequest, scheduler`submitted, scheduler`done, scheduler`events
      ensures Valid() && (ok ==> Submitted(specs, |specs|))
      ensures ok <==> AllAdmissible(specs, scheduler.kv.config, engine.vocabulary)
    {
      var i := 0;
      while i < |specs|
        invariant 0 <= i <= |specs| && Valid() && Submitted(specs, i)
        invariant forall j :: 0 <= j < i ==> Admissible(specs[j], scheduler.kv.config, engine.vocabulary)
      {
        var submitted := SubmitNext(specs, i);
        if !submitted {
          return false;
        }
        i := i + 1;
      }
      return true;
    }

    method SubmitNext(specs: seq<Spec>, i: nat) returns (ok: bool)
      requires Valid() && i < |specs| < U64_MAX && Submitted(specs, i) && scheduler.chunkTokens.Some? && scheduler.maxPending.None?
      modifies scheduler`pending, scheduler`finished, scheduler`nextRequest, scheduler`submitted, scheduler`done, scheduler`events
      ensures Valid() && (ok ==> Submitted(specs, i + 1))
      ensures ok <==> Admissible(specs[i], scheduler.kv.config, engine.vocabulary)
    {
      var submitted := Submit(specs[i]);
      ok := submitted.Success?;
    }

    method SetSpeculativeDecoding(config: Option<Speculative>) returns (ok: bool)
      requires Valid()
      modifies scheduler`speculative
      ensures Valid() && (ok <==> (config.Some? ==> config.value.draftTokens > 0 && config.value.ngram > 0))
      ensures scheduler.speculative == if ok then config else old(scheduler.speculative)
    {
      ok := scheduler.SetSpeculativeDecoding(config);
    }

    /** A list of requests from the first one on. */
    method SubmitAndRun(specs: seq<Spec>) returns (r: Result<seq<Finished>>, ghost events: seq<Event>)
      requires Valid() && scheduler.Abs() == Initial && scheduler.popped == 0 && scheduler.Unrestricted()
      requires scheduler.chunkTokens.Some? && scheduler.maxPending.None? && |specs| < U64_MAX
      modifies scheduler, scheduler.kv, engine
      ensures r.Success? ==> forall i: nat :: i < |specs| ==> AnsweredOnce(next, i + 1, specs[i], r.value)
      ensures r.Success? ==> AllAdmissible(specs, scheduler.kv.config, engine.vocabulary)
      ensures r.Failure? && RoomForOne(scheduler.kv.config) && AllAdmissible(specs, scheduler.kv.config, engine.vocabulary) ==> Broken(events)
    {
      events := [];
      var ok := SubmitAll(specs);
      if !ok {
        r := Failure;
        return;
      }
      r := RunUntilIdle();
      events := scheduler.events;
      if r.Success? {
        AllSubmittedAnswered(specs, r.value);
      } else if RoomForOne(scheduler.kv.config) {
        RunBroke();
      }
    }

    lemma RunBroke()
      requires Valid() && (scheduler.nextBatch == U64_MAX || RolledBack())
      ensures Broken(scheduler.events)
    {
      LinkedMeans(scheduler.events, scheduler.Abs(), scheduler.kv.Snapshot());
    }

    lemma AllSubmittedAnswered(specs: seq<Spec>, results: seq<Finished>)
      requires Valid() && AllAnswered() && Submitted(specs, |specs|) && scheduler.cancelled == {}
      requires Popped(results, 0) && scheduler.finished == []
      ensures forall i: nat :: i < |specs| ==> AnsweredOnce(next, i + 1, specs[i], results)
    {
      forall i: nat | i < |specs|
        ensures AnsweredOnce(next, i + 1, specs[i], results)
      {
        DoneIsAnswer(i + 1, results);
      }
    }

    method Drain(results: seq<Finished>, ghost from: nat) returns (longer: seq<Finished>)
      requires Valid() && Popped(results, from)
      modifies scheduler`finished, scheduler`popped
      ensures Valid() && Popped(longer, from) && scheduler.finished == []
    {
      longer := results;
      while scheduler.finished != []
        invariant Valid() && Popped(longer, from)
        decreases |scheduler.finished|
      {
        var result := scheduler.PopFinished();
        longer := longer + [result.value];
      }
    }

    /**
     `run_until_idle`: whatever was submitted, preempted, drafted, failed or cancelled before, the results are
     those of the submitted requests, one for each that was not cancelled, and a greedy one is the output of the
     single-sequence decoder. With a pool that holds one maximal sequence it never stalls.
     */
    method RunUntilIdle() returns (r: Result<seq<Finished>>)
      requires Valid()
      modifies scheduler`active, scheduler`finished, scheduler`stored, scheduler`done, scheduler`inFlight, scheduler`events
      modifies scheduler`draftedTokens, scheduler`acceptedDraftTokens, scheduler.kv, engine`pool
      modifies scheduler`pending, scheduler`nextAdmission, scheduler`nextBatch, scheduler`preferPrefill, scheduler`speculativeTurn
      modifies scheduler`preemptions, scheduler`popped
      ensures Valid()
      ensures r.Success? ==> scheduler.Idle() && AllAnswered() && Popped(r.value, old(scheduler.popped)) && scheduler.finished == []
      ensures r.Success? ==> AllRight(r.value)
      ensures r.Failure? && scheduler.Unrestricted() && RoomForOne(scheduler.kv.config) ==>
        old(scheduler.inFlight).Some? || scheduler.nextBatch == U64_MAX || RolledBack()
    {
      var results: seq<Finished> := [];
      ghost var from := scheduler.popped;
      while true
        invariant Valid() && Popped(results, from)
        invariant scheduler.inFlight.None? || scheduler.inFlight == old(scheduler.inFlight)
        decreases U64_MAX - scheduler.nextBatch
      {
        var progressed;
        progressed, results := StepAndDrain(results, from);
        if progressed.Failure? {
          return Failure;
        }
        if !progressed.value {
          break;
        }
      }
      if scheduler.pending != [] || scheduler.active != map[] {
        return Failure;
      }
      PoppedAreRight(results, from);
      IdleMeansAnswered();
      return Success(results);
    }

    method StepAndDrain(results: seq<Finished>, ghost from: nat) returns (progressed: Result<bool>, longer: seq<Finished>)
      requires Valid() && Popped(results, from)
      modifies scheduler`active, scheduler`finished, scheduler`stored, scheduler`done, scheduler`inFlight, scheduler`events
      modifies scheduler`draftedTokens, scheduler`acceptedDraftTokens, scheduler.kv, engine`pool
      modifies scheduler`pending, scheduler`nextAdmission, scheduler`nextBatch, scheduler`preferPrefill, scheduler`speculativeTurn
      modifies scheduler`preemptions, scheduler`popped
      ensures Valid()
      ensures progressed.Success? ==> Popped(longer, from) && scheduler.finished == [] && scheduler.inFlight.None?
      ensures progressed == Success(true) ==> scheduler.nextBatch == old(scheduler.nextBatch) + 1
      ensures progressed == Success(false) && scheduler.Unrestricted() && RoomForOne(scheduler.kv.config) ==> scheduler.Idle()
      ensures progressed.Failure? ==> old(scheduler.inFlight).Some? || scheduler.nextBatch == U64_MAX || RolledBack()
    {
      longer := results;
      progressed := Step();
      if progressed.Success? {
        longer := Drain(results, from);
      }
    }

    /** The batch is in flight, the device has written its rows and read the contexts back. */
    ghost predicate Ran(batch: Batch, contexts: seq<seq<int>>)
      reads scheduler, scheduler.kv, engine`pool
    {
      && scheduler.Valid() && scheduler.inFlight == Some(batch) && Faithful() && engine.config == scheduler.kv.config
      && Answers(scheduler.stored, batch.rows, contexts)
      && Mirrors(engine.pool, scheduler.kv.Snapshot(), Extended(scheduler.stored, batch.rows, |batch.rows|))
    }
  }

  lemma CancellationKeeps(next: Model, pool: Pool, e: seq<Event>, p: State, k: Cache, id: nat, k': Cache)
    requires Linked(e, p, k) && Legal(e) && Honest(next, e) && Mirrors(pool, k, p.stored)
    requires Linked(e + [Event.Cancel(id)], CancelIn(p, id), k') && Sound(k') && Trimmed(k, k') && k'.config == k.config
    ensures Mirrors(pool, k', CancelIn(p, id).stored)
    ensures Legal(e + [Event.Cancel(id)]) && Honest(next, e + [Event.Cancel(id)])
  {
    var p' := CancelIn(p, id);
    LinkedMeans(e + [Event.Cancel(id)], p', k');
    SoundIsOk(k');
    MirrorsLess(pool, k, p.stored, p'.stored);
    MirrorsTrimmed(pool, k, k', p'.stored);
    LinkedMeans(e, p, k);
    LastStep(e, Event.Cancel(id));
    HonestNext(next, e, Event.Cancel(id));
  }

  lemma ExtendedLess(pool: Pool, k: Cache, held: map<nat, seq<int>>, rows: seq<Row>)
    requires DistinctRows(rows) && Mirrors(pool, k, Extended(held, rows, |rows|))
    ensures Mirrors(pool, k, held)
  {
    ExtendedMeans(held, rows, |rows|);
    forall id | id in held
      ensures held[id] <= Extended(held, rows, |rows|)[id]
    {
      if i :| 0 <= i < |rows| && rows[i].id == id {
        assert Extended(held, rows, |rows|)[id] == held[id] + rows[i].tokens;
      }
    }
    MirrorsLess(pool, k, Extended(held, rows, |rows|), held);
  }

  lemma PlanKeeps(next: Model, pool: Pool, e: seq<Event>, p: State, k: Cache, e': seq<Event>, p': State, k': Cache)
    requires Linked(e, p, k) && Legal(e) && Honest(next, e) && Mirrors(pool, k, p.stored)
    requires Linked(e', p', k') && Planned(e, p, k, e', p', k') && k'.config == k.config
    ensures Mirrors(pool, k', p'.stored) && Legal(e') && Honest(next, e')
  {
    LinkedMeans(e', p', k');
    MirrorsPlanned(pool, p, k, p', k');
    HonestPlan(next, e, e');
  }

  lemma FailureKeeps(next: Model, pool: Pool, e: seq<Event>, p: State, k: Cache, k': Cache)
    requires Linked(e, p, k) && Legal(e) && Honest(next, e) && Mirrors(pool, k, p.stored) && p.inFlight.Some?
    requires var p' := FailRows(p.(inFlight := None), p.inFlight.value.kind, p.inFlight.value.rows, 0);
      Linked(e + [Fail], p', k') && Sound(k') && Trimmed(k, k') && k'.config == k.config
    ensures var p' := FailRows(p.(inFlight := None), p.inFlight.value.kind, p.inFlight.value.rows, 0);
      Mirrors(pool, k', p'.stored) && p'.inFlight.None?
    ensures Legal(e + [Fail]) && Honest(next, e + [Fail])
  {
    var s, batch := p.(inFlight := None), p.inFlight.value;
    var p' := FailRows(s, batch.kind, batch.rows, 0);
    LinkedMeans(e, p, k);
    RunsAreSafe(e);
    RollBackReady(e, p, k);
    FailRowsEffect(s, batch.kind, batch.rows, 0);
    LinkedMeans(e + [Fail], p', k');
    SoundIsOk(k');
    MirrorsTrimmed(pool, k, k', p'.stored);
    LastStep(e, Fail);
    HonestNext(next, e, Fail);
  }

  lemma LastStep(e: seq<Event>, event: Event)
    requires Legal(e + [event])
    ensures LegalThen(e, event)
  {
    assert (e + [event])[..|e|] == e;
  }

  /** A completed batch: the device holds what is stored now, and its answers were honest. */
  lemma CompletionKeeps(next: Model, pool: Pool, e: seq<Event>, p: State, k: Cache, contexts: seq<seq<int>>, tokens: seq<int>, k': Cache)
    requires Linked(e, p, k) && Legal(e) && Honest(next, e) && Sound(k) && p.inFlight.Some? && p.inFlight.value.kind != Verify
    requires var rows := p.inFlight.value.rows;
      && |tokens| == |rows| && Answers(p.stored, rows, contexts) && Mirrors(pool, k, Extended(p.stored, rows, |rows|))
      && (forall i :: 0 <= i < |tokens| ==> Selected(next, p, rows[i], contexts[i], tokens[i]))
    requires var p' := CompleteRows(p.(inFlight := None), p.inFlight.value.rows, tokens, 0);
      Linked(e + [Complete(tokens)], p', k') && Sound(k') && Trimmed(k, k') && k'.config == k.config
    ensures var p' := CompleteRows(p.(inFlight := None), p.inFlight.value.rows, tokens, 0);
      Mirrors(pool, k', p'.stored) && p.done <= p'.done && p'.inFlight.None?
    ensures Legal(e + [Complete(tokens)]) && Honest(next, e + [Complete(tokens)])
  {
    var s, rows := p.(inFlight := None), p.inFlight.value.rows;
    var p' := CompleteRows(s, rows, tokens, 0);
    FlightContinues(e, p, k);
    LinkedMeans(e, p, k);
    LinkedMeans(e + [Complete(tokens)], p', k');
    CompleteStores(s, rows, tokens, 0);
    CompleteDone(s, rows, tokens, 0);
    CompletedMirrors(pool, k, s, rows, k', p');
    HonestTokens(next, p, tokens, contexts);
    LastStep(e, Complete(tokens));
    HonestNext(next, e, Complete(tokens));
  }

  lemma VerificationKeeps(next: Model, pool: Pool, e: seq<Event>, p: State, k: Cache, contexts: seq<seq<int>>, argmax: seq<int>, k': Cache)
    requires Linked(e, p, k) && Legal(e) && Honest(next, e) && Sound(k) && p.inFlight.Some? && p.inFlight.value.kind == Verify
    requires var rows, width := p.inFlight.value.rows, p.inFlight.value.Width();
      && |argmax| == |rows| * width && Answers(p.stored, rows, contexts) && Mirrors(pool, k, Extended(p.stored, rows, |rows|))
      && ChoicesOf(next, rows, contexts, width, |rows|, argmax)
    requires var p' := CompleteVerifyRows(p.(inFlight := None), p.inFlight.value.rows, argmax, p.inFlight.value.Width(), 0);
      Linked(e + [CompleteVerify(argmax)], p', k') && Sound(k') && Trimmed(k, k') && k'.config == k.config
    ensures var p' := CompleteVerifyRows(p.(inFlight := None), p.inFlight.value.rows, argmax, p.inFlight.value.Width(), 0);
      Mirrors(pool, k', p'.stored) && p.done <= p'.done && p'.inFlight.None?
    ensures Legal(e + [CompleteVerify(argmax)]) && Honest(next, e + [CompleteVerify(argmax)])
  {
    var s, rows, width := p.(inFlight := None), p.inFlight.value.rows, p.inFlight.value.Width();
    var p' := CompleteVerifyRows(s, rows, argmax, width, 0);
    FlightContinues(e, p, k);
    LinkedMeans(e, p, k);
    LinkedMeans(e + [CompleteVerify(argmax)], p', k');
    VerifyStores(s, rows, argmax, width, 0);
    VerifyDone(s, rows, argmax, width, 0);
    CompletedMirrors(pool, k, s, rows, k', p');
    HonestChoices(next, e, p, k, argmax, contexts);
    LastStep(e, CompleteVerify(argmax));
    HonestNext(next, e, CompleteVerify(argmax));
  }

  lemma {:induction false} CompleteDone(s: State, rows: seq<Row>, tokens: seq<int>, i: nat)
    requires |tokens| == |rows|
    ensures s.done <= CompleteRows(s, rows, tokens, i).done && CompleteRows(s, rows, tokens, i).inFlight == s.inFlight
    decreases |rows| - i
  {
    if i < |rows| {
      CompleteDone(CompleteRow(s, rows[i], tokens[i]), rows, tokens, i + 1);
    }
  }

  lemma {:induction false} VerifyDone(s: State, rows: seq<Row>, argmax: seq<int>, width: nat, i: nat)
    ensures s.done <= CompleteVerifyRows(s, rows, argmax, width, i).done && CompleteVerifyRows(s, rows, argmax, width, i).inFlight == s.inFlight
    decreases |rows| - i
  {
    if i < |rows| {
      VerifyDone(CompleteVerifyRow(s, rows[i], Predictions(argmax, width, i)), rows, argmax, width, i + 1);
    }
  }

  lemma FlightWide(e: seq<Event>, p: State, k: Cache, contexts: seq<seq<int>>)
    requires Linked(e, p, k) && Sound(k) && p.inFlight.Some? && Answers(p.stored, p.inFlight.value.rows, contexts)
    ensures var rows := p.inFlight.value.rows;
      && UniformRows(rows, p.inFlight.value.Width())
      && forall i :: 0 <= i < |rows| ==> |contexts[i]| >= rows[i].start + |rows[i].tokens|
  {
    FlightReady(e, p, k);
    FlightContinues(e, p, k);
  }

  // ----- a whole job -----

  /** Exactly one result is the request's, and a greedy request's is the single-sequence decoder's output. */
  ghost predicate AnsweredOnce(next: Model, id: nat, spec: Spec, results: seq<Finished>) {
    exists j :: 0 <= j < |results| && Answer(next, id, spec, results, j)
  }

  ghost predicate Answer(next: Model, id: nat, spec: Spec, results: seq<Finished>, j: nat)
    requires j < |results|
  {
    && results[j].id == id && (forall l :: 0 <= l < |results| && results[l].id == id ==> l == j)
    && results[j].prompt == spec.prompt
    && (spec.greedy ==> GreedyOutput(next, spec.prompt, spec.maxNew, spec.eos, results[j].generated))
  }

  /** The requests a runner without a queue limit takes. */
  predicate Admissible(spec: Spec, config: PagedKv.Config, vocabulary: nat) {
    && spec.prompt != [] && |spec.prompt| + spec.maxNew <= config.maxLength
    && (forall i :: 0 <= i < |spec.prompt| ==> 0 <= spec.prompt[i] < vocabulary) && (forall t :: t in spec.eos ==> 0 <= t < vocabulary)
    && (spec.maxNew > 0 ==> config.blockSize > 0 && CeilDiv(|spec.prompt|, config.blockSize) <= config.numPages)
  }

  predicate AllAdmissible(specs: seq<Spec>, config: PagedKv.Config, vocabulary: nat) {
    forall i :: 0 <= i < |specs| ==> Admissible(specs[i], config, vocabulary)
  }

  /** The run broke off in a failed batch, or has used up its batch numbers. */
  ghost predicate Broken(events: seq<Event>) {
    Legal(events) && (After(events).nextBatch == U64_MAX || (events != [] && events[|events| - 1] == Fail))
  }

  /**
   Submit a list of requests and run until idle: each is answered once, whatever the pages, budgets and drafts. With a
   pool that holds one maximal sequence, only a request that is not admissible or a failed batch can prevent it.
   */
  method Serve(specs: seq<Spec>, maxActive: nat, maxBatchTokens: nat, config: PagedKv.Config, vocabulary: nat, next: Model, sample: Sampler, fails: nat -> bool, drafts: Option<Speculative>)
    returns (r: Result<seq<Finished>>, ghost events: seq<Event>)
    requires maxActive > 0 && maxBatchTokens > 0 && |specs| < U64_MAX
    requires config.blockSize > 0 && config.numPages > 0 && config.maxLength > 0
    ensures r.Success? ==> forall i: nat :: i < |specs| ==> AnsweredOnce(next, i + 1, specs[i], r.value)
    ensures r.Success? ==> AllAdmissible(specs, config, vocabulary)
    ensures r.Failure? && RoomForOne(config) && AllAdmissible(specs, config, vocabulary) ==> Broken(events)
  {
    var runner := new Runner(maxActive, maxBatchTokens, None, config, vocabulary, next, sample, fails);
    var speculating := runner.SetSpeculativeDecoding(drafts);
    r, events := runner.SubmitAndRun(specs);
  }
}
