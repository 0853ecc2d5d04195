/** How the scheduler's requests and the page manager's sequences belong together. */
module SchedulerTies {
  import opened Wrappers
  import opened Protocol
  import opened ProtocolSafety
  import opened ProtocolRuns
  import opened PagedKv

  /** Committed lengths are the stored tokens, and only rows in flight hold reservations. */
  ghost predicate Tied(p: State, k: Cache) {
    && k.sequences.Keys == p.active.Keys && p.stored.Keys == p.active.Keys
    && (forall id :: id in p.active ==> k.sequences[id].committed == |p.stored[id]|)
    && (forall id :: id in p.active && !p.active[id].phase.InFlight? ==> k.sequences[id].pending.None?)
    && (p.inFlight.Some? ==> forall i :: 0 <= i < |p.inFlight.value.rows| ==> Holds(k, p.inFlight.value.rows[i]))
  }

  /** The row's reservation is pending, covers exactly the row's tokens, and its table is the sequence's own. */
  ghost predicate Holds(k: Cache, row: Row) {
    && row.id in k.sequences && k.sequences[row.id].pending == Some(row.reservation) && row.table == k.sequences[row.id].pages
    && row.reservation in k.reservations
    && k.reservations[row.reservation] == Reservation(row.id, k.reservations[row.reservation].previousPages, row.start, |row.tokens|)
  }

  /** Rows collected so far for a batch of the given kind; nothing else has changed in the manager. */
  ghost predicate RowsReserved(p: State, k0: Cache, k: Cache, kind: Kind, rows: seq<Row>) {
    && k.config == k0.config && k.sequences.Keys == k0.sequences.Keys && |k.free| <= |k0.free|
    && (rows == [] ==> k == k0)
    && DistinctRows(rows)
    && (forall id :: id in k0.sequences ==> k.sequences[id].committed == k0.sequences[id].committed)
    && (forall id :: id in k0.sequences && !Owned(rows, 0, id) ==> k.sequences[id] == k0.sequences[id])
    && (forall i :: 0 <= i < |rows| ==> RowReserved(p, k, kind, rows[i]))
  }

  ghost predicate RowReserved(p: State, k: Cache, kind: Kind, row: Row) {
    && row.id in p.active && row.id in p.stored && MayLaunch(kind, p.active[row.id], p.stored[row.id], row) && Holds(k, row)
  }

  lemma RowsReservedAppend(p: State, k0: Cache, k: Cache, k': Cache, kind: Kind, rows: seq<Row>, row: Row)
    requires RowsReserved(p, k0, k, kind, rows)
    requires Reserved(k, k', row.id, |row.tokens|, row.reservation)
    requires row.id in p.active && row.id in p.stored && MayLaunch(kind, p.active[row.id], p.stored[row.id], row)
    requires row.start == k.sequences[row.id].committed && row.table == k'.sequences[row.id].pages
    ensures RowsReserved(p, k0, k', kind, rows + [row])
  {
    var longer := rows + [row];
    forall i | 0 <= i < |rows|
      ensures rows[i].id != row.id && RowReserved(p, k', kind, rows[i])
    {
      assert RowReserved(p, k, kind, rows[i]);
    }
    forall id | id in k0.sequences && !Owned(longer, 0, id)
      ensures k'.sequences[id] == k0.sequences[id]
    {
      assert longer[|rows|].id != id;
      forall i | 0 <= i < |rows|
        ensures rows[i].id != id
      {
        assert longer[i].id != id;
      }
    }
    forall i | 0 <= i < |longer|
      ensures RowReserved(p, k', kind, longer[i])
    {
    }
  }

  /** Tokens that make a launchable row, wherever its pages are. */
  ghost predicate Launchable(kind: Kind, r: ActiveRequest, kv: seq<int>, tokens: seq<int>) {
    && tokens != []
    && match kind
       case Prefill => r.phase == NeedsPrefill && |kv| + |tokens| <= |r.history| && tokens == r.history[|kv|..|kv| + |tokens|]
       case Decode => r.phase == AwaitingDecode(tokens[0]) && |tokens| == 1
       case Verify =>
         && r.phase == AwaitingDecode(tokens[0]) && |tokens| >= 2
         && r.spec.greedy && |r.generated| + 2 <= r.spec.maxNew
  }

  ghost predicate RowAdded(p: State, k: Cache, k': Cache, kind: Kind, row: Row) {
    && Reserved(k, k', row.id, |row.tokens|, row.reservation)
    && row.id in p.active && row.id in p.stored && MayLaunch(kind, p.active[row.id], p.stored[row.id], row)
    && row.start == k.sequences[row.id].committed && row.table == k'.sequences[row.id].pages
  }

  /** The rows were reserved one after the other, starting from `k0`. */
  ghost predicate Collected(p: State, k0: Cache, k: Cache, kind: Kind, rows: seq<Row>)
    decreases |rows|, 0
  {
    if rows == [] then k == k0 else CollectedThen(p, k0, k, kind, rows[..|rows| - 1], rows[|rows| - 1])
  }

  ghost predicate CollectedThen(p: State, k0: Cache, k: Cache, kind: Kind, rows: seq<Row>, row: Row)
    decreases |rows|, 1
  {
    exists k1 :: Collected(p, k0, k1, kind, rows) && RowAdded(p, k1, k, kind, row)
  }

  lemma CollectedAppend(p: State, k0: Cache, k: Cache, k': Cache, kind: Kind, rows: seq<Row>, row: Row)
    requires Collected(p, k0, k, kind, rows) && RowAdded(p, k, k', kind, row)
    ensures Collected(p, k0, k', kind, rows + [row])
  {
    assert (rows + [row])[..|rows|] == rows;
    assert CollectedThen(p, k0, k', kind, rows, row);
  }

  lemma {:induction false} CollectedFlat(p: State, k0: Cache, k: Cache, kind: Kind, rows: seq<Row>)
    requires Collected(p, k0, k, kind, rows)
    ensures RowsReserved(p, k0, k, kind, rows)
    decreases |rows|, 0
  {
    if rows != [] {
      var front, row := rows[..|rows| - 1], rows[|rows| - 1];
      assert rows == front + [row];
      assert CollectedThen(p, k0, k, kind, front, row);
      CollectedOneMore(p, k0, k, kind, front, row);
    }
  }

  lemma CollectedOneMore(p: State, k0: Cache, k: Cache, kind: Kind, front: seq<Row>, row: Row)
    requires CollectedThen(p, k0, k, kind, front, row)
    ensures RowsReserved(p, k0, k, kind, front + [row])
    decreases |front|, 1
  {
    var k1 :| Collected(p, k0, k1, kind, front) && RowAdded(p, k1, k, kind, row);
    CollectedFlat(p, k0, k1, kind, front);
    RowsReservedAppend(p, k0, k1, k, kind, front, row);
  }

  lemma CollectedCommitted(p: State, k0: Cache, k: Cache, kind: Kind, rows: seq<Row>, id: nat)
    requires Collected(p, k0, k, kind, rows) && id in k0.sequences
    ensures id in k.sequences && k.sequences[id].committed == k0.sequences[id].committed && k.config == k0.config
  {
    CollectedFlat(p, k0, k, kind, rows);
  }

  lemma NewRow(p: State, k: Cache, k': Cache, kind: Kind, row: Row)
    requires Reserved(k, k', row.id, |row.tokens|, row.reservation)
    requires row.id in p.active && row.id in p.stored && Launchable(kind, p.active[row.id], p.stored[row.id], row.tokens)
    requires row.start == k.sequences[row.id].committed == |p.stored[row.id]| && row.context == row.start + |row.tokens|
    requires row.table == k'.sequences[row.id].pages
    ensures RowAdded(p, k, k', kind, row)
  {
  }

  ghost predicate UniformRows(rows: seq<Row>, width: nat) {
    forall i :: 0 <= i < |rows| ==> |rows[i].tokens| == width
  }

  lemma ReservedRowsLaunch(p: State, k0: Cache, k: Cache, kind: Kind, rows: seq<Row>, width: nat)
    requires RowsReserved(p, k0, k, kind, rows) && rows != [] && UniformRows(rows, width) && p.inFlight.None?
    ensures LaunchEnabled(p, Batch(p.nextBatch, kind, rows))
  {
    var batch := Batch(p.nextBatch, kind, rows);
    forall i | 0 <= i < |rows|
      ensures
        && rows[i].id in p.active && rows[i].id in p.stored && |rows[i].tokens| == batch.Width()
        && MayLaunch(kind, p.active[rows[i].id], p.stored[rows[i].id], rows[i])
    {
      assert RowReserved(p, k, kind, rows[i]);
    }
  }

  lemma LaunchTied(p: State, k0: Cache, k: Cache, batch: Batch)
    requires Tied(p, k0) && RowsReserved(p, k0, k, batch.kind, batch.rows)
    ensures Tied(LaunchIn(p, batch), k)
  {
    LaunchInEffect(p, batch);
    LaunchedTied(p, LaunchIn(p, batch), k0, k, batch);
  }

  lemma LaunchInEffect(p: State, batch: Batch)
    ensures var p' := LaunchIn(p, batch);
      && p'.inFlight == Some(batch) && p'.stored == p.stored && p'.active.Keys == p.active.Keys
      && (forall id :: id in p.active && Owned(batch.rows, 0, id) ==> p'.active[id].phase.InFlight?)
      && (forall id :: id in p.active && !Owned(batch.rows, 0, id) ==> p'.active[id] == p.active[id])
  {
    LaunchRowsEffect(p.(inFlight := Some(batch), nextBatch := p.nextBatch + 1), batch.id, batch.rows, 0);
  }

  /** What launching does to the requests, and what reserving did to the manager, fit together. */
  lemma LaunchedTied(p: State, p': State, k0: Cache, k: Cache, batch: Batch)
    requires Tied(p, k0) && RowsReserved(p, k0, k, batch.kind, batch.rows) && p'.inFlight == Some(batch) && p'.stored == p.stored
    requires p'.active.Keys == p.active.Keys
    requires forall id :: id in p.active && Owned(batch.rows, 0, id) ==> p'.active[id].phase.InFlight?
    requires forall id :: id in p.active && !Owned(batch.rows, 0, id) ==> p'.active[id] == p.active[id]
    ensures Tied(p', k)
  {
    forall id | id in p'.active && !p'.active[id].phase.InFlight?
      ensures k.sequences[id].pending.None?
    {
      assert !Owned(batch.rows, 0, id);
    }
    forall i | 0 <= i < |batch.rows|
      ensures Holds(k, batch.rows[i])
    {
      assert RowReserved(p, k, batch.kind, batch.rows[i]);
    }
  }

  // ----- which requests could run -----

  function Chunk(r: ActiveRequest, committed: nat, chunkTokens: Option<nat>, maxBatchTokens: nat): nat {
    var remaining := if |r.history| > committed then |r.history| - committed else 0;
    var limited := if chunkTokens.Some? && chunkTokens.value < remaining then chunkTokens.value else remaining;
    if limited < maxBatchTokens then limited else maxBatchTokens
  }

  /** The request's next step fits in the free pages. */
  ghost predicate Runnable(p: State, k: Cache, chunkTokens: Option<nat>, maxBatchTokens: nat, id: nat)
    requires k.config.blockSize > 0 && Tied(p, k)
  {
    id in p.active &&
    match p.active[id].phase
    case NeedsPrefill =>
      var count := Chunk(p.active[id], k.sequences[id].committed, chunkTokens, maxBatchTokens);
      count > 0 && CanAppend(k, id, count)
    case AwaitingDecode(_) => CanAppend(k, id, 1)
    case InFlight(_) => false
  }

  ghost predicate Holder(k: Cache, id: nat) {
    id in k.sequences && k.sequences[id].pages != []
  }

  ghost function Holders(k: Cache): set<nat> {
    set id | id in k.sequences && Holder(k, id)
  }

  /** The step a settled request takes when nobody else holds pages always fits a large enough pool. */
  lemma LoneRequestRuns(p: State, k: Cache, chunkTokens: Option<nat>, maxBatchTokens: nat, id: nat)
    requires Inv(p) && p.inFlight.None? && Sound(k) && Tied(p, k) && id in p.active
    requires maxBatchTokens > 0 && (chunkTokens.Some? ==> chunkTokens.value > 0)
    requires |p.active[id].spec.prompt| + p.active[id].spec.maxNew <= k.config.maxLength
    requires k.config.maxLength <= k.config.numPages * k.config.blockSize
    requires forall x :: Holder(k, x) ==> x == id
    ensures Runnable(p, k, chunkTokens, maxBatchTokens, id)
  {
    SoundIsOk(k);
    var r := p.active[id];
    assert RequestOk(r, p.stored[id]);
    assert !Owned([], 0, id);
    assert Settled(r, p.stored[id]);
    forall x | x in k.sequences && x != id
      ensures k.sequences[x].pages == []
    {
      assert !Holder(k, x);
    }
    if r.phase.NeedsPrefill? {
      LoneHolderCanAppend(k, id, Chunk(r, k.sequences[id].committed, chunkTokens, maxBatchTokens));
    } else {
      LoneHolderCanAppend(k, id, 1);
    }
  }

  lemma OneHolder(k: Cache, x: nat, y: nat)
    requires |Holders(k)| <= 1 && Holder(k, x) && Holder(k, y)
    ensures x == y
  {
    var rest := Holders(k) - {x};
    assert |rest| == |Holders(k)| - 1;
    assert y !in rest;
  }

  /** With at most one page holder left and something active, something can run. */
  lemma SomebodyRuns(p: State, k: Cache, chunkTokens: Option<nat>, maxBatchTokens: nat) returns (id: nat)
    requires Inv(p) && p.inFlight.None? && Sound(k) && Tied(p, k) && p.active != map[]
    requires maxBatchTokens > 0 && (chunkTokens.Some? ==> chunkTokens.value > 0)
    requires forall x :: x in p.active ==> |p.active[x].spec.prompt| + p.active[x].spec.maxNew <= k.config.maxLength
    requires k.config.maxLength <= k.config.numPages * k.config.blockSize
    requires |Holders(k)| <= 1
    ensures Runnable(p, k, chunkTokens, maxBatchTokens, id)
  {
    if exists x :: Holder(k, x) {
      id :| Holder(k, id);
    } else {
      id :| id in p.active;
    }
    forall x | Holder(k, x)
      ensures x == id
    {
      OneHolder(k, x, id);
    }
    LoneRequestRuns(p, k, chunkTokens, maxBatchTokens, id);
  }

  // ----- what planning leaves alone -----

  /** Every table has grown at its end, if at all. */
  ghost predicate Grown(k: Cache, k': Cache) {
    forall id :: id in k.sequences ==> id in k'.sequences && k.sequences[id].pages <= k'.sequences[id].pages
  }

  /** Whatever is still stored was stored before, at the same places. */
  ghost predicate Kept(p: State, k: Cache, p': State, k': Cache) {
    forall id :: id in p'.stored && p'.stored[id] != [] ==>
      && id in p.stored && p'.stored[id] == p.stored[id]
      && id in k.sequences && id in k'.sequences && k.sequences[id].pages <= k'.sequences[id].pages
  }

  predicate PlanEvent(e: Event) {
    e.Admit? || e.Preempt? || e.Launch?
  }

  ghost predicate PlanEvents(before: seq<Event>, after: seq<Event>) {
    |before| <= |after| && after[..|before|] == before && forall i :: |before| <= i < |after| ==> PlanEvent(after[i])
  }

  /** Planning adds admissions, preemptions and launches only, and answers or forgets no request. */
  ghost predicate Planned(e: seq<Event>, p: State, k: Cache, e': seq<Event>, p': State, k': Cache) {
    && PlanEvents(e, e') && Kept(p, k, p', k')
    && p'.submitted == p.submitted && p'.done == p.done && p'.cancelled == p.cancelled && p'.nextRequest == p.nextRequest
  }

  lemma PlannedNothing(e: seq<Event>, p: State, k: Cache)
    requires Tied(p, k)
    ensures Planned(e, p, k, e, p, k)
  {
  }

  lemma PlanEventsThen(a: seq<Event>, b: seq<Event>, c: seq<Event>)
    requires PlanEvents(a, b) && PlanEvents(b, c)
    ensures PlanEvents(a, c)
  {
    assert c[..|a|] == c[..|b|][..|a|];
    forall i | |a| <= i < |c|
      ensures PlanEvent(c[i])
    {
      assert i < |b| ==> c[i] == c[..|b|][i];
    }
  }

  lemma PlannedThen(e: seq<Event>, p: State, k: Cache, e': seq<Event>, p': State, k': Cache, e'': seq<Event>, p'': State, k'': Cache)
    requires Planned(e, p, k, e', p', k') && Planned(e', p', k', e'', p'', k'')
    ensures Planned(e, p, k, e'', p'', k'')
  {
    PlanEventsThen(e, e', e'');
  }

  lemma PlannedEvent(e: seq<Event>, event: Event)
    requires PlanEvent(event)
    ensures PlanEvents(e, e + [event])
  {
  }

  lemma AdmitPlanned(e: seq<Event>, p: State, k: Cache, k': Cache, position: nat, admitted: nat)
    requires Tied(p, k) && position < |p.pending| && p.pending[position].id !in p.active
    requires k'.sequences == k.sequences[p.pending[position].id := Sequence(0, [], None)]
    ensures Planned(e, p, k, e + [Admit(position, 0, admitted)], AdmitTo(p, position, 0, admitted), k')
  {
    PlannedEvent(e, Admit(position, 0, admitted));
  }

  lemma PreemptPlanned(e: seq<Event>, p: State, k: Cache, k': Cache, id: nat)
    requires Tied(p, k) && id in p.active && k'.sequences == k.sequences[id := Sequence(0, [], None)]
    ensures Planned(e, p, k, e + [Preempt(id)], PreemptIn(p, id), k')
  {
    PlannedEvent(e, Preempt(id));
  }

  lemma {:induction false} CollectedGrown(p: State, k0: Cache, k: Cache, kind: Kind, rows: seq<Row>)
    requires Collected(p, k0, k, kind, rows)
    ensures Grown(k0, k)
    decreases |rows|, 1
  {
    if rows != [] {
      CollectedGrownThen(p, k0, k, kind, rows[..|rows| - 1], rows[|rows| - 1]);
    }
  }

  lemma CollectedGrownThen(p: State, k0: Cache, k: Cache, kind: Kind, rows: seq<Row>, row: Row)
    requires CollectedThen(p, k0, k, kind, rows, row)
    ensures Grown(k0, k)
    decreases |rows|, 2
  {
    var k1 :| Collected(p, k0, k1, kind, rows) && RowAdded(p, k1, k, kind, row);
    CollectedGrown(p, k0, k1, kind, rows);
  }

  lemma LaunchPlanned(e: seq<Event>, p: State, k0: Cache, k: Cache, batch: Batch)
    requires Tied(p, k0) && Collected(p, k0, k, batch.kind, batch.rows)
    ensures Planned(e, p, k0, e + [Launch(batch)], LaunchIn(p, batch), k)
  {
    CollectedGrown(p, k0, k, batch.kind, batch.rows);
    LaunchRowsEffect(p.(inFlight := Some(batch), nextBatch := p.nextBatch + 1), batch.id, batch.rows, 0);
    PlannedEvent(e, Launch(batch));
  }

  /** What a scheduling attempt did: nothing, or a uniform batch within the token budget. */
  ghost predicate Scheduled(p: State, k0: Cache, p': State, k: Cache, batch: Option<Batch>, maxTokens: nat) {
    match batch
    case None => p' == p && k == k0
    case Some(b) =>
      && b.rows != [] && b.id == p.nextBatch && Collected(p, k0, k, b.kind, b.rows)
      && UniformRows(b.rows, b.Width()) && |b.rows| * b.Width() <= maxTokens
      && p' == LaunchRows(p.(nextBatch := p.nextBatch + 1), b.id, b.rows, 0)
  }

  /** A request waiting for one decode step that fits. */
  ghost predicate DecodeFits(active: map<nat, ActiveRequest>, k: Cache, id: nat) {
    k.config.blockSize > 0 && id in active && active[id].phase.AwaitingDecode? && CanAppend(k, id, 1)
  }

  /** A runnable request's next step fits, unless it is deferred. */
  lemma RunnableFits(p: State, k: Cache, deferred: set<nat>, chunkTokens: Option<nat>, maxTokens: nat, id: nat)
    requires k.config.blockSize > 0 && Tied(p, k) && Runnable(p, k, chunkTokens, maxTokens, id) && id !in deferred
    ensures DecodeFits(p.active, k, id) || PrefillFits(p.active, k, deferred, chunkTokens, maxTokens, id)
  {
  }

  ghost predicate PrefillFits(active: map<nat, ActiveRequest>, k: Cache, deferred: set<nat>, chunkTokens: Option<nat>, maxTokens: nat, id: nat) {
    && k.config.blockSize > 0 && id in active && id in k.sequences
    && active[id].phase.NeedsPrefill? && id !in deferred
    && Chunk(active[id], k.sequences[id].committed, chunkTokens, maxTokens) > 0
    && CanAppend(k, id, Chunk(active[id], k.sequences[id].committed, chunkTokens, maxTokens))
  }

  // ----- rows in order, until nothing more fits -----

  /** The row ids ascend. */
  ghost predicate Ascend(rows: seq<Row>) {
    forall i, j :: 0 <= i < j < |rows| ==> rows[i].id < rows[j].id
  }

  ghost predicate Served(rows: seq<Row>, k: Cache, id: nat, width: nat) {
    Owned(rows, 0, id) || (k.config.blockSize > 0 && !CanAppend(k, id, width))
  }

  /** The rows are those of the first `i` candidates that fitted, in order. */
  ghost predicate Picked(k: Cache, rows: seq<Row>, ids: seq<nat>, i: nat, width: nat) {
    && i <= |ids| && Ascend(rows)
    && (forall j :: 0 <= j < |rows| ==> rows[j].id in ids[..i])
    && (forall j :: 0 <= j < i ==> Served(rows, k, ids[j], width))
  }

  /** One candidate was tried: it has a row now, or it does not fit. */
  ghost predicate Tried(k: Cache, k': Cache, rows: seq<Row>, longer: seq<Row>, id: nat, tokens: seq<int>) {
    || (longer == rows && k' == k && k.config.blockSize > 0 && !CanAppend(k, id, |tokens|))
    || (exists row: Row :: row.id == id && row.tokens == tokens && longer == rows + [row] && Reserved(k, k', id, |tokens|, row.reservation))
  }

  lemma StillServed(k: Cache, k': Cache, rows: seq<Row>, row: Row, width: nat, x: nat)
    requires Reserved(k, k', row.id, width, row.reservation) && Served(rows, k, x, width)
    ensures Served(rows + [row], k', x, width)
  {
    var longer := rows + [row];
    assert longer[|rows|].id == row.id;
    if Owned(rows, 0, x) {
      var i :| 0 <= i < |rows| && rows[i].id == x;
      assert longer[i].id == x;
    }
  }

  lemma PickedNext(k: Cache, k': Cache, rows: seq<Row>, longer: seq<Row>, ids: seq<nat>, i: nat, tokens: seq<int>)
    requires Picked(k, rows, ids, i, |tokens|) && i < |ids| && PagedKv.Ascending(ids) && Tried(k, k', rows, longer, ids[i], tokens)
    ensures Picked(k', longer, ids, i + 1, |tokens|)
  {
    assert ids[..i + 1] == ids[..i] + [ids[i]];
    if longer != rows {
      var row: Row :| row.id == ids[i] && row.tokens == tokens && longer == rows + [row] && Reserved(k, k', ids[i], |tokens|, row.reservation);
      assert longer[|rows|].id == ids[i];
      forall j | 0 <= j < i + 1
        ensures Served(longer, k', ids[j], |tokens|)
      {
        if j < i {
          StillServed(k, k', rows, row, |tokens|, ids[j]);
        }
      }
      AscendNext(rows, row, ids, i);
    }
  }

  ghost predicate AllFrom(rows: seq<Row>, ids: seq<nat>) {
    forall i :: 0 <= i < |rows| ==> rows[i].id in ids
  }

  /** The rows come from the candidates in order, and unless there are `most` of them no candidate is left that fits. */
  ghost predicate Thoroughly(k: Cache, rows: seq<Row>, ids: seq<nat>, width: nat, most: nat) {
    && Ascend(rows) && AllFrom(rows, ids)
    && (|rows| >= most || forall j :: 0 <= j < |ids| ==> Served(rows, k, ids[j], width))
  }

  lemma PickedEnds(k: Cache, rows: seq<Row>, ids: seq<nat>, i: nat, width: nat, most: nat)
    requires Picked(k, rows, ids, i, width) && (i == |ids| || |rows| >= most)
    ensures Thoroughly(k, rows, ids, width, most)
  {
    forall j | 0 <= j < |rows|
      ensures rows[j].id in ids
    {
      assert rows[j].id in ids[..i];
    }
  }

  /** A part of an ascending list, in order. */
  ghost predicate PartOf(part: seq<nat>, ids: seq<nat>, i: nat) {
    i <= |ids| && PagedKv.Ascending(part) && forall j :: 0 <= j < |part| ==> part[j] in ids[..i]
  }

  lemma PartNext(part: seq<nat>, ids: seq<nat>, i: nat)
    requires PartOf(part, ids, i) && i < |ids| && PagedKv.Ascending(ids)
    ensures PartOf(part + [ids[i]], ids, i + 1) && PartOf(part, ids, i + 1)
  {
    assert ids[..i + 1] == ids[..i] + [ids[i]];
    forall j | 0 <= j < |part|
      ensures part[j] < ids[i]
    {
      var l :| 0 <= l < i && ids[..i][l] == part[j];
      assert ids[l] == part[j];
    }
  }

  /** Marking the rows' requests as in flight changes nothing else of any request. */
  ghost predicate Marked(active: map<nat, ActiveRequest>, active': map<nat, ActiveRequest>, rows: seq<Row>) {
    && active'.Keys == active.Keys
    && forall id :: id in active ==> if Owned(rows, 0, id) then active'[id].phase.InFlight? else active'[id] == active[id]
  }

  /** After a thorough decode batch no waiting request fits any more, unless the batch is full. */
  lemma NoDecodeLeft(active: map<nat, ActiveRequest>, active': map<nat, ActiveRequest>, k: Cache, rows: seq<Row>, ids: seq<nat>, most: nat)
    requires Marked(active, active', rows) && Thoroughly(k, rows, ids, 1, most)
    requires forall id :: id in active && active[id].phase.AwaitingDecode? ==> id in ids
    ensures |rows| >= most || forall id :: !DecodeFits(active', k, id)
  {
    if |rows| < most {
      forall id
        ensures !DecodeFits(active', k, id)
      {
        if id in active && active[id].phase.AwaitingDecode? {
          var j :| 0 <= j < |ids| && ids[j] == id;
          assert Served(rows, k, ids[j], 1);
        }
      }
    }
  }

  /** A request in no row that fits now did fit before the rows were reserved. */
  lemma FittedBefore(p: State, k0: Cache, k: Cache, kind: Kind, rows: seq<Row>, id: nat, width: nat)
    requires Collected(p, k0, k, kind, rows)
    ensures k.config.blockSize > 0 && CanAppend(k, id, width) && !Owned(rows, 0, id) ==>
      k0.config.blockSize > 0 && id in k0.sequences && k0.sequences[id] == k.sequences[id] && CanAppend(k0, id, width)
  {
    OthersUntouched(p, k0, k, kind, rows, id);
  }

  lemma OthersUntouched(p: State, k0: Cache, k: Cache, kind: Kind, rows: seq<Row>, id: nat)
    requires Collected(p, k0, k, kind, rows)
    ensures k.config == k0.config && k.sequences.Keys == k0.sequences.Keys && |k.free| <= |k0.free|
    ensures id in k0.sequences && !Owned(rows, 0, id) ==> k.sequences[id] == k0.sequences[id]
  {
    CollectedFlat(p, k0, k, kind, rows);
  }

  lemma AscendNext(rows: seq<Row>, row: Row, ids: seq<nat>, i: nat)
    requires Ascend(rows) && i < |ids| && PagedKv.Ascending(ids) && row.id == ids[i] && forall j :: 0 <= j < |rows| ==> rows[j].id in ids[..i]
    ensures Ascend(rows + [row])
  {
    forall j | 0 <= j < |rows|
      ensures rows[j].id < row.id
    {
      var l :| 0 <= l < i && ids[..i][l] == rows[j].id;
      assert ids[l] == rows[j].id;
    }
  }

  // ----- settling a batch -----

  /** The reservations of a batch with the number of tokens to commit for each. */
  function Group(rows: seq<Row>, whole: bool): seq<(nat, nat)> {
    seq(|rows|, (i: nat) requires i < |rows| => (rows[i].reservation, if whole then |rows[i].tokens| else 0))
  }

  function Reservations(rows: seq<Row>): seq<nat> {
    seq(|rows|, (i: nat) requires i < |rows| => rows[i].reservation)
  }

  lemma RollbackGroup(rows: seq<Row>)
    ensures Rollbacks(Reservations(rows)) == Group(rows, false)
  {
  }

  lemma GroupOfBatch(k: Cache, rows: seq<Row>, whole: bool)
    requires DistinctRows(rows) && forall i :: 0 <= i < |rows| ==> Holds(k, rows[i])
    ensures GroupOk(k, Group(rows, whole))
  {
    var group := Group(rows, whole);
    forall i | 0 <= i < |rows|
      ensures group[i].0 in k.reservations && k.reservations[group[i].0].request == rows[i].id
        && group[i].1 <= k.reservations[group[i].0].count && rows[i].id in k.sequences
    {
      assert Holds(k, rows[i]);
    }
    forall i, j | 0 <= i < j < |rows|
      ensures group[i].0 != group[j].0
    {
      assert rows[i].id != rows[j].id;
    }
  }

  /** Committed whole rows whose results have been applied up to row `i`. */
  ghost predicate TiedFrom(p: State, k: Cache, rows: seq<Row>, i: nat) {
    && k.sequences.Keys == p.active.Keys && p.stored.Keys == p.active.Keys && p.inFlight.None?
    && (forall id :: id in k.sequences ==> k.sequences[id].pending.None?)
    && (forall id :: id in p.active && !Owned(rows, i, id) ==> k.sequences[id].committed == |p.stored[id]|)
    && (forall j :: i <= j < |rows| ==>
      && rows[j].id in p.active
      && k.sequences[rows[j].id].committed == |p.stored[rows[j].id]| + |rows[j].tokens|)
  }

  /** What an in-flight state looks like to the manager, without the protocol invariants' bulk. */
  ghost predicate FlightTied(p: State, k: Cache, rows: seq<Row>) {
    && k.sequences.Keys == p.active.Keys && p.stored.Keys == p.active.Keys && DistinctRows(rows)
    && (forall id :: id in p.active ==> k.sequences[id].committed == |p.stored[id]|)
    && (forall id :: id in p.active && !Owned(rows, 0, id) ==> k.sequences[id].pending.None?)
    && (forall i :: 0 <= i < |rows| ==> Holds(k, rows[i]) && rows[i].id in p.active && rows[i].start == |p.stored[rows[i].id]|)
  }

  lemma InFlightTied(p: State, k: Cache)
    requires Tied(p, k) && Consistent(p) && p.inFlight.Some?
    ensures FlightTied(p, k, p.inFlight.value.rows)
  {
    var rows := p.inFlight.value.rows;
    forall id | id in p.active && !Owned(rows, 0, id)
      ensures k.sequences[id].pending.None?
    {
      assert Settled(p.active[id], p.stored[id]);
    }
    forall i | 0 <= i < |rows|
      ensures Holds(k, rows[i]) && rows[i].id in p.active && rows[i].start == |p.stored[rows[i].id]|
    {
      assert InFlightRow(p, p.inFlight.value.kind, p.inFlight.value.id, rows[i]);
    }
  }

  lemma SettledRow(k: Cache, k': Cache, rows: seq<Row>, whole: bool, i: nat)
    requires DistinctRows(rows) && (forall j :: 0 <= j < |rows| ==> Holds(k, rows[j])) && i < |rows|
    requires GroupOk(k, Group(rows, whole)) && GroupSettled(k, k', Group(rows, whole), |rows|)
    ensures rows[i].id in k'.sequences && k'.sequences[rows[i].id].pending.None?
    ensures k'.sequences[rows[i].id].committed == rows[i].start + if whole then |rows[i].tokens| else 0
  {
    var group := Group(rows, whole);
    assert Holds(k, rows[i]);
    assert group[i].0 == rows[i].reservation;
  }

  lemma UntouchedSequence(k: Cache, k': Cache, rows: seq<Row>, whole: bool, id: nat)
    requires (forall j :: 0 <= j < |rows| ==> Holds(k, rows[j])) && id in k.sequences && !Owned(rows, 0, id)
    requires GroupOk(k, Group(rows, whole)) && GroupSettled(k, k', Group(rows, whole), |rows|)
    ensures k'.sequences[id] == k.sequences[id]
  {
    var group := Group(rows, whole);
    forall j | 0 <= j < |rows|
      ensures k.reservations[group[j].0].request != id
    {
      assert Holds(k, rows[j]);
    }
  }

  lemma CommittedTied(p: State, k: Cache, k': Cache, rows: seq<Row>)
    requires FlightTied(p, k, rows) && GroupOk(k, Group(rows, true)) && GroupSettled(k, k', Group(rows, true), |rows|)
    ensures TiedFrom(p.(inFlight := None), k', rows, 0)
  {
    forall id | id in p.active
      ensures k'.sequences[id].pending.None? && (!Owned(rows, 0, id) ==> k'.sequences[id].committed == |p.stored[id]|)
    {
      if Owned(rows, 0, id) {
        var i :| 0 <= i < |rows| && rows[i].id == id;
        SettledRow(k, k', rows, true, i);
      } else {
        UntouchedSequence(k, k', rows, true, id);
      }
    }
    forall j | 0 <= j < |rows|
      ensures rows[j].id in p.active && k'.sequences[rows[j].id].committed == |p.stored[rows[j].id]| + |rows[j].tokens|
    {
      SettledRow(k, k', rows, true, j);
    }
  }

  lemma CompleteRowStored(p: State, row: Row, token: int)
    requires row.id in p.active && p.stored.Keys == p.active.Keys
    ensures var p' := CompleteRow(p, row, token);
      && SameExcept(p, p', row.id) && p'.inFlight == p.inFlight
      && (row.id in p'.active ==> p'.stored[row.id] == p.stored[row.id] + row.tokens)
  {
  }

  lemma AppliedRowTied(p: State, p': State, k: Cache, k': Cache, rows: seq<Row>, i: nat)
    requires TiedFrom(p, k, rows, i) && DistinctRows(rows) && i < |rows| && SameExcept(p, p', rows[i].id) && p'.inFlight.None?
    requires rows[i].id in p'.active ==> |p'.stored[rows[i].id]| == |p.stored[rows[i].id]| + |rows[i].tokens|
    requires k'.sequences.Keys == p'.active.Keys
    requires forall x :: x in k'.sequences ==> x in k.sequences && k'.sequences[x] == k.sequences[x]
    ensures TiedFrom(p', k', rows, i + 1)
  {
    AppliedCommitted(p, p', k, k', rows, i);
    AppliedLater(p, p', k, k', rows, i);
  }

  lemma AppliedCommitted(p: State, p': State, k: Cache, k': Cache, rows: seq<Row>, i: nat)
    requires TiedFrom(p, k, rows, i) && i < |rows| && SameExcept(p, p', rows[i].id)
    requires rows[i].id in p'.active ==> |p'.stored[rows[i].id]| == |p.stored[rows[i].id]| + |rows[i].tokens|
    requires k'.sequences.Keys == p'.active.Keys
    requires forall x :: x in k'.sequences ==> x in k.sequences && k'.sequences[x] == k.sequences[x]
    ensures forall id :: id in p'.active && !Owned(rows, i + 1, id) ==> k'.sequences[id].committed == |p'.stored[id]|
  {
    forall id | id in p'.active && !Owned(rows, i + 1, id)
      ensures k'.sequences[id].committed == |p'.stored[id]|
    {
      if id != rows[i].id {
        assert !Owned(rows, i, id);
      }
    }
  }

  lemma AppliedLater(p: State, p': State, k: Cache, k': Cache, rows: seq<Row>, i: nat)
    requires TiedFrom(p, k, rows, i) && DistinctRows(rows) && i < |rows| && SameExcept(p, p', rows[i].id)
    requires k'.sequences.Keys == p'.active.Keys
    requires forall x :: x in k'.sequences ==> x in k.sequences && k'.sequences[x] == k.sequences[x]
    ensures forall j :: i + 1 <= j < |rows| ==>
      && rows[j].id in p'.active
      && k'.sequences[rows[j].id].committed == |p'.stored[rows[j].id]| + |rows[j].tokens|
  {
    forall j | i + 1 <= j < |rows|
      ensures rows[j].id in p'.active
      ensures k'.sequences[rows[j].id].committed == |p'.stored[rows[j].id]| + |rows[j].tokens|
    {
      assert rows[j].id != rows[i].id;
    }
  }

  lemma CompleteRowTied(p: State, k: Cache, k': Cache, rows: seq<Row>, i: nat, token: int)
    requires TiedFrom(p, k, rows, i) && DistinctRows(rows) && i < |rows|
    requires k'.sequences ==
      if rows[i].id in CompleteRow(p, rows[i], token).active then k.sequences else k.sequences - {rows[i].id}
    ensures TiedFrom(CompleteRow(p, rows[i], token), k', rows, i + 1)
  {
    CompleteRowStored(p, rows[i], token);
    var p' := CompleteRow(p, rows[i], token);
    assert k'.sequences.Keys == p'.active.Keys;
    AppliedRowTied(p, p', k, k', rows, i);
  }

  lemma AllApplied(p: State, k: Cache, rows: seq<Row>)
    requires TiedFrom(p, k, rows, |rows|)
    ensures Tied(p, k)
  {
    forall id | id in p.active
      ensures k.sequences[id].committed == |p.stored[id]|
    {
      assert !Owned(rows, |rows|, id);
    }
  }

  /** Verified rows whose results have been applied up to row `i`; later rows still hold reservations. */
  ghost predicate TiedRows(p: State, k: Cache, rows: seq<Row>, i: nat) {
    && k.sequences.Keys == p.active.Keys && p.stored.Keys == p.active.Keys && p.inFlight.None?
    && (forall id :: id in p.active ==> k.sequences[id].committed == |p.stored[id]|)
    && (forall id :: id in p.active && !Owned(rows, i, id) ==> k.sequences[id].pending.None?)
    && (forall j :: i <= j < |rows| ==>
      Holds(k, rows[j]) && rows[j].id in p.active && rows[j].start == |p.stored[rows[j].id]|)
  }

  /** The same behind a recursion, for the loop that only passes it on; `RowsTiedMeans` opens it. */
  ghost predicate RowsTiedAt(depth: nat, p: State, k: Cache, rows: seq<Row>, i: nat) {
    if depth == 0 then TiedRows(p, k, rows, i) else RowsTiedAt(depth - 1, p, k, rows, i)
  }

  ghost predicate RowsTied(p: State, k: Cache, rows: seq<Row>, i: nat) {
    RowsTiedAt(1 + |rows|, p, k, rows, i)
  }

  lemma {:induction false} RowsTiedAtMeans(depth: nat, p: State, k: Cache, rows: seq<Row>, i: nat)
    ensures RowsTiedAt(depth, p, k, rows, i) <==> TiedRows(p, k, rows, i)
  {
    if depth > 0 {
      RowsTiedAtMeans(depth - 1, p, k, rows, i);
    }
  }

  lemma RowsTiedMeans(p: State, k: Cache, rows: seq<Row>, i: nat)
    ensures RowsTied(p, k, rows, i) <==> TiedRows(p, k, rows, i)
  {
    RowsTiedAtMeans(1 + |rows|, p, k, rows, i);
  }

  lemma CompleteVerifyRowTied(p: State, k: Cache, k': Cache, rows: seq<Row>, i: nat, predictions: seq<int>)
    requires TiedRows(p, k, rows, i) && DistinctRows(rows) && i < |rows|
    requires rows[i].tokens != [] && |predictions| == |rows[i].tokens|
    requires var produced := Produced(p.active[rows[i].id], rows[i], predictions);
      && rows[i].id in k.sequences
      && k'.sequences.Keys ==
        (if rows[i].id in CompleteVerifyRow(p, rows[i], predictions).active then k.sequences.Keys else k.sequences.Keys - {rows[i].id})
      && (forall x :: x in k'.sequences && x != rows[i].id ==> k'.sequences[x] == k.sequences[x])
      && (rows[i].id in k'.sequences ==>
        k'.sequences[rows[i].id].committed == rows[i].start + |produced| && k'.sequences[rows[i].id].pending.None?)
      && k'.reservations == k.reservations - {rows[i].reservation}
    ensures TiedRows(CompleteVerifyRow(p, rows[i], predictions), k', rows, i + 1)
  {
    CompleteVerifyRowLocal(p, rows[i], predictions);
    VerifiedRowTied(p, CompleteVerifyRow(p, rows[i], predictions), k, k', rows, i);
  }

  /** The same of any new state `p'` of the row's request. */
  lemma VerifiedRowTied(p: State, p': State, k: Cache, k': Cache, rows: seq<Row>, i: nat)
    requires TiedRows(p, k, rows, i) && DistinctRows(rows) && i < |rows| && SameExcept(p, p', rows[i].id) && p'.inFlight.None?
    requires k'.sequences.Keys == p'.active.Keys
    requires forall x :: x in k'.sequences && x != rows[i].id ==> x in k.sequences && k'.sequences[x] == k.sequences[x]
    requires rows[i].id in p'.active ==>
      k'.sequences[rows[i].id].committed == |p'.stored[rows[i].id]| && k'.sequences[rows[i].id].pending.None?
    requires k'.reservations == k.reservations - {rows[i].reservation}
    ensures TiedRows(p', k', rows, i + 1)
  {
    VerifiedSettled(p, p', k, k', rows, i);
    VerifiedLater(p, p', k, k', rows, i);
  }

  lemma VerifiedSettled(p: State, p': State, k: Cache, k': Cache, rows: seq<Row>, i: nat)
    requires TiedRows(p, k, rows, i) && i < |rows| && SameExcept(p, p', rows[i].id) && k'.sequences.Keys == p'.active.Keys
    requires forall x :: x in k'.sequences && x != rows[i].id ==> x in k.sequences && k'.sequences[x] == k.sequences[x]
    requires rows[i].id in p'.active ==>
      k'.sequences[rows[i].id].committed == |p'.stored[rows[i].id]| && k'.sequences[rows[i].id].pending.None?
    ensures forall id :: id in p'.active ==> k'.sequences[id].committed == |p'.stored[id]|
    ensures forall id :: id in p'.active && !Owned(rows, i + 1, id) ==> k'.sequences[id].pending.None?
  {
    forall id | id in p'.active && !Owned(rows, i + 1, id)
      ensures k'.sequences[id].pending.None?
    {
      if id != rows[i].id {
        assert !Owned(rows, i, id);
      }
    }
  }

  lemma VerifiedLater(p: State, p': State, k: Cache, k': Cache, rows: seq<Row>, i: nat)
    requires TiedRows(p, k, rows, i) && DistinctRows(rows) && i < |rows| && SameExcept(p, p', rows[i].id)
    requires k'.sequences.Keys == p'.active.Keys
    requires forall x :: x in k'.sequences && x != rows[i].id ==> x in k.sequences && k'.sequences[x] == k.sequences[x]
    requires k'.reservations == k.reservations - {rows[i].reservation}
    ensures forall j :: i + 1 <= j < |rows| ==>
      Holds(k', rows[j]) && rows[j].id in p'.active && rows[j].start == |p'.stored[rows[j].id]|
  {
    forall j | i + 1 <= j < |rows|
      ensures Holds(k', rows[j]) && rows[j].id in p'.active && rows[j].start == |p'.stored[rows[j].id]|
    {
      assert Holds(k, rows[j]) && Holds(k, rows[i]) && rows[j].id != rows[i].id;
    }
  }

  lemma AllVerified(p: State, k: Cache, rows: seq<Row>)
    requires RowsTied(p, k, rows, |rows|)
    ensures Tied(p, k)
  {
    RowsTiedMeans(p, k, rows, |rows|);
    forall id | id in p.active
      ensures k.sequences[id].pending.None?
    {
      assert !Owned(rows, |rows|, id);
    }
  }

  lemma CancelledTied(p: State, k: Cache, k': Cache, kind: Kind, rows: seq<Row>)
    requires FlightTied(p, k, rows) && GroupOk(k, Group(rows, false)) && GroupSettled(k, k', Group(rows, false), |rows|)
    requires forall i :: 0 <= i < |rows| ==> rows[i].tokens != []
    ensures Tied(FailRows(p.(inFlight := None), kind, rows, 0), k')
  {
    var p' := FailRows(p.(inFlight := None), kind, rows, 0);
    FailRowsEffect(p.(inFlight := None), kind, rows, 0);
    forall id | id in p.active
      ensures k'.sequences[id].pending.None? && k'.sequences[id].committed == |p.stored[id]|
    {
      if Owned(rows, 0, id) {
        var i :| 0 <= i < |rows| && rows[i].id == id;
        SettledRow(k, k', rows, false, i);
      } else {
        UntouchedSequence(k, k', rows, false, id);
      }
    }
  }
}
