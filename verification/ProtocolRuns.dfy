/** From single rows to whole batches and whole runs. */
module ProtocolRuns {
  import opened Wrappers
  import opened Arithmetic
  import opened Generation
  import opened Protocol
  import opened ProtocolSafety

  // ----- batches -----

  lemma {:induction false} CompleteRowsGood(s: State, kind: Kind, batch: nat, rows: seq<Row>, tokens: seq<int>, i: nat)
    requires Good(s, kind, batch, rows, i) && DistinctRows(rows) && kind != Verify
    requires |tokens| == |rows| && i <= |rows|
    ensures Good(CompleteRows(s, rows, tokens, i), kind, batch, rows, |rows|)
    ensures CompleteRows(s, rows, tokens, i).inFlight == s.inFlight
    decreases |rows| - i, 1
  {
    if i < |rows| {
      CompleteRowGood(s, kind, batch, rows, i, tokens[i]);
      CompleteRestGood(s, CompleteRow(s, rows[i], tokens[i]), kind, batch, rows, tokens, i);
    }
  }

  /** The state `t` after row `i` stands for itself here. */
  lemma CompleteRestGood(s: State, t: State, kind: Kind, batch: nat, rows: seq<Row>, tokens: seq<int>, i: nat)
    requires i < |rows| == |tokens| && Good(t, kind, batch, rows, i + 1) && DistinctRows(rows) && kind != Verify
    requires t.inFlight == s.inFlight && CompleteRows(s, rows, tokens, i) == CompleteRows(t, rows, tokens, i + 1)
    ensures Good(CompleteRows(s, rows, tokens, i), kind, batch, rows, |rows|)
    ensures CompleteRows(s, rows, tokens, i).inFlight == s.inFlight
    decreases |rows| - i, 0
  {
    CompleteRowsGood(t, kind, batch, rows, tokens, i + 1);
  }

  /** The rows from `i` on can each be completed on their own. */
  ghost predicate RowsReady(s: State, kind: Kind, batch: nat, rows: seq<Row>, i: nat) {
    s.active.Keys == s.stored.Keys && forall j :: i <= j < |rows| ==> RowReady(s, kind, batch, rows[j])
  }

  lemma CompleteRowLocal(s: State, row: Row, token: int)
    requires s.active.Keys == s.stored.Keys
    ensures SameExcept(s, CompleteRow(s, row, token), row.id) && CompleteRow(s, row, token).submitted == s.submitted
  {
  }

  lemma CompleteVerifyRowLocal(s: State, row: Row, predictions: seq<int>)
    requires s.active.Keys == s.stored.Keys
    ensures SameExcept(s, CompleteVerifyRow(s, row, predictions), row.id)
    ensures CompleteVerifyRow(s, row, predictions).submitted == s.submitted
  {
  }

  lemma OtherRowsReady(s: State, s': State, kind: Kind, batch: nat, rows: seq<Row>, i: nat)
    requires RowsReady(s, kind, batch, rows, i) && DistinctRows(rows) && i < |rows|
    requires SameExcept(s, s', rows[i].id) && s'.submitted == s.submitted
    ensures RowsReady(s', kind, batch, rows, i + 1)
  {
    forall j | i + 1 <= j < |rows|
      ensures RowReady(s', kind, batch, rows[j])
    {
      RowReadyElsewhere(s, s', rows[i].id, kind, batch, rows[j]);
    }
  }

  lemma {:induction false} CompleteRowsConserved(s: State, kind: Kind, batch: nat, rows: seq<Row>, tokens: seq<int>, i: nat)
    requires RowsReady(s, kind, batch, rows, i) && DistinctRows(rows) && kind != Verify && Conserved(s)
    requires |tokens| == |rows| && i <= |rows|
    ensures Conserved(CompleteRows(s, rows, tokens, i))
    decreases |rows| - i
  {
    if i < |rows| {
      CompleteRowConserved(s, kind, batch, rows[i], tokens[i]);
      CompleteRowLocal(s, rows[i], tokens[i]);
      OtherRowsReady(s, CompleteRow(s, rows[i], tokens[i]), kind, batch, rows, i);
      CompleteRowsConserved(CompleteRow(s, rows[i], tokens[i]), kind, batch, rows, tokens, i + 1);
    }
  }

  lemma HonestTokenElsewhere(next: Model, s: State, s': State, id: nat, row: Row, token: int)
    requires SameExcept(s, s', id) && row.id != id && row.id in s.active && row.id in s.stored
    requires HonestToken(next, s, row, token)
    ensures HonestToken(next, s', row, token)
  {
  }

  lemma {:induction false} CompleteRowsStreams(next: Model, s: State, kind: Kind, batch: nat, rows: seq<Row>, tokens: seq<int>, i: nat)
    requires RowsReady(s, kind, batch, rows, i) && DistinctRows(rows) && kind != Verify
    requires |tokens| == |rows| && i <= |rows| && Streams(next, s)
    requires forall j :: i <= j < |rows| ==> HonestToken(next, s, rows[j], tokens[j])
    ensures Streams(next, CompleteRows(s, rows, tokens, i))
    decreases |rows| - i
  {
    if i < |rows| {
      var s' := CompleteRow(s, rows[i], tokens[i]);
      CompleteRowStreams(next, s, kind, batch, rows[i], tokens[i]);
      CompleteRowLocal(s, rows[i], tokens[i]);
      OtherRowsReady(s, s', kind, batch, rows, i);
      forall j | i + 1 <= j < |rows|
        ensures HonestToken(next, s', rows[j], tokens[j])
      {
        assert RowReady(s, kind, batch, rows[j]);
        HonestTokenElsewhere(next, s, s', rows[i].id, rows[j], tokens[j]);
      }
      CompleteRowsStreams(next, s', kind, batch, rows, tokens, i + 1);
    }
  }

  lemma PredictionsWidth(argmax: seq<int>, rows: nat, width: nat, i: nat)
    requires |argmax| == rows * width && i < rows
    ensures |Predictions(argmax, width, i)| == width
  {
    MulAtLeast(rows - i, width);
    assert (rows - i) * width == rows * width - i * width;
  }

  lemma {:induction false} CompleteVerifyRowsGood(s: State, batch: nat, rows: seq<Row>, argmax: seq<int>, width: nat, i: nat)
    requires Good(s, Verify, batch, rows, i) && DistinctRows(rows)
    requires |argmax| == |rows| * width && i <= |rows|
    requires forall j :: 0 <= j < |rows| ==> |rows[j].tokens| == width
    ensures Good(CompleteVerifyRows(s, rows, argmax, width, i), Verify, batch, rows, |rows|)
    ensures CompleteVerifyRows(s, rows, argmax, width, i).inFlight == s.inFlight
    decreases |rows| - i, 1
  {
    if i < |rows| {
      PredictionsWidth(argmax, |rows|, width, i);
      var s' := CompleteVerifyRow(s, rows[i], Predictions(argmax, width, i));
      CompleteVerifyRowGood(s, batch, rows, i, Predictions(argmax, width, i));
      VerifyRestGood(s, s', batch, rows, argmax, width, i);
    }
  }

  lemma VerifyRestGood(s: State, t: State, batch: nat, rows: seq<Row>, argmax: seq<int>, width: nat, i: nat)
    requires i < |rows| && Good(t, Verify, batch, rows, i + 1) && DistinctRows(rows) && |argmax| == |rows| * width
    requires forall j :: 0 <= j < |rows| ==> |rows[j].tokens| == width
    requires t.inFlight == s.inFlight
    requires CompleteVerifyRows(s, rows, argmax, width, i) == CompleteVerifyRows(t, rows, argmax, width, i + 1)
    ensures Good(CompleteVerifyRows(s, rows, argmax, width, i), Verify, batch, rows, |rows|)
    ensures CompleteVerifyRows(s, rows, argmax, width, i).inFlight == s.inFlight
    decreases |rows| - i, 0
  {
    CompleteVerifyRowsGood(t, batch, rows, argmax, width, i + 1);
  }

  lemma {:induction false} CompleteVerifyRowsConserved(s: State, batch: nat, rows: seq<Row>, argmax: seq<int>, width: nat, i: nat)
    requires RowsReady(s, Verify, batch, rows, i) && DistinctRows(rows) && Conserved(s)
    requires |argmax| == |rows| * width && i <= |rows|
    requires forall j :: 0 <= j < |rows| ==> |rows[j].tokens| == width
    ensures Conserved(CompleteVerifyRows(s, rows, argmax, width, i))
    decreases |rows| - i
  {
    if i < |rows| {
      PredictionsWidth(argmax, |rows|, width, i);
      var s' := CompleteVerifyRow(s, rows[i], Predictions(argmax, width, i));
      CompleteVerifyRowConserved(s, batch, rows[i], Predictions(argmax, width, i));
      CompleteVerifyRowLocal(s, rows[i], Predictions(argmax, width, i));
      OtherRowsReady(s, s', Verify, batch, rows, i);
      CompleteVerifyRowsConserved(s', batch, rows, argmax, width, i + 1);
    }
  }

  lemma HonestPredictionsElsewhere(next: Model, s: State, s': State, id: nat, row: Row, predictions: seq<int>)
    requires SameExcept(s, s', id) && row.id != id && row.id in s.active && row.id in s.stored
    requires HonestPredictions(next, s, row, predictions)
    ensures HonestPredictions(next, s', row, predictions)
  {
  }

  lemma {:induction false} CompleteVerifyRowsStreams(next: Model, s: State, batch: nat, rows: seq<Row>, argmax: seq<int>, width: nat, i: nat)
    requires RowsReady(s, Verify, batch, rows, i) && DistinctRows(rows)
    requires |argmax| == |rows| * width && i <= |rows| && Streams(next, s)
    requires forall j :: 0 <= j < |rows| ==> |rows[j].tokens| == width
    requires forall j :: i <= j < |rows| ==> HonestPredictions(next, s, rows[j], Predictions(argmax, width, j))
    ensures Streams(next, CompleteVerifyRows(s, rows, argmax, width, i))
    decreases |rows| - i
  {
    if i < |rows| {
      PredictionsWidth(argmax, |rows|, width, i);
      var s' := CompleteVerifyRow(s, rows[i], Predictions(argmax, width, i));
      CompleteVerifyRowStreams(next, s, batch, rows[i], Predictions(argmax, width, i));
      CompleteVerifyRowLocal(s, rows[i], Predictions(argmax, width, i));
      OtherRowsReady(s, s', Verify, batch, rows, i);
      forall j | i + 1 <= j < |rows|
        ensures HonestPredictions(next, s', rows[j], Predictions(argmax, width, j))
      {
        assert RowReady(s, Verify, batch, rows[j]);
        HonestPredictionsElsewhere(next, s, s', rows[i].id, rows[j], Predictions(argmax, width, j));
      }
      CompleteVerifyRowsStreams(next, s', batch, rows, argmax, width, i + 1);
    }
  }

  /** Launching marks exactly the batch's rows. */
  lemma {:induction false} LaunchRowsEffect(s: State, batch: nat, rows: seq<Row>, i: nat)
    ensures var s' := LaunchRows(s, batch, rows, i);
      && s' == s.(active := s'.active) && s'.active.Keys == s.active.Keys
      && forall id :: id in s.active ==>
        s'.active[id] == if Owned(rows, i, id) then s.active[id].(phase := InFlight(batch)) else s.active[id]
    decreases |rows| - i
  {
    if i < |rows| {
      var t := LaunchRow(s, batch, rows[i]);
      LaunchRowsEffect(t, batch, rows, i + 1);
      var s' := LaunchRows(s, batch, rows, i);
      forall id | id in s.active
        ensures s'.active[id] == if Owned(rows, i, id) then s.active[id].(phase := InFlight(batch)) else s.active[id]
      {
        assert Owned(rows, i, id) <==> (rows[i].id == id || Owned(rows, i + 1, id));
      }
    }
  }

  function PhaseBefore(kind: Kind, row: Row): Phase
    requires row.tokens != []
  {
    if kind == Prefill then NeedsPrefill else AwaitingDecode(row.tokens[0])
  }

  /** Failing gives each row of the batch the phase recorded in the row, and touches nothing else. */
  lemma {:induction false} FailRowsEffect(s: State, kind: Kind, rows: seq<Row>, i: nat)
    requires DistinctRows(rows)
    requires forall j :: 0 <= j < |rows| ==> rows[j].id in s.active && rows[j].tokens != []
    ensures var s' := FailRows(s, kind, rows, i);
      && s' == s.(active := s'.active) && s'.active.Keys == s.active.Keys
      && (forall id :: id in s.active && !Owned(rows, i, id) ==> s'.active[id] == s.active[id])
      && (forall j :: i <= j < |rows| ==>
        s'.active[rows[j].id] == s.active[rows[j].id].(phase := PhaseBefore(kind, rows[j])))
    decreases |rows| - i
  {
    if i < |rows| {
      var t := FailRow(s, kind, rows[i]);
      FailRowsEffect(t, kind, rows, i + 1);
      assert !Owned(rows, i + 1, rows[i].id);
      var s' := FailRows(s, kind, rows, i);
      forall id | id in s.active && !Owned(rows, i, id)
        ensures s'.active[id] == s.active[id]
      {
        assert rows[i].id != id && !Owned(rows, i + 1, id);
      }
    }
  }

  /** A failed batch leaves no trace but its number: phases, histories and cached tokens are those from before its launch. */
  lemma FailUndoesLaunch(s: State, batch: Batch)
    requires LaunchEnabled(s, batch)
    ensures Enabled(Apply(s, Launch(batch)), Fail)
    ensures Apply(Apply(s, Launch(batch)), Fail) == s.(nextBatch := s.nextBatch + 1)
  {
    var s0 := s.(inFlight := Some(batch), nextBatch := s.nextBatch + 1);
    var launched := LaunchRows(s0, batch.id, batch.rows, 0);
    LaunchRowsEffect(s0, batch.id, batch.rows, 0);
    var s1 := launched.(inFlight := None);
    var failed := FailRows(s1, batch.kind, batch.rows, 0);
    FailRowsEffect(s1, batch.kind, batch.rows, 0);
    forall id | id in s.active
      ensures failed.active[id] == s.active[id]
    {
      if Owned(batch.rows, 0, id) {
        var i :| 0 <= i < |batch.rows| && batch.rows[i].id == id;
        assert MayLaunch(batch.kind, s.active[id], s.stored[id], batch.rows[i]);
      }
    }
    assert failed.active == s.active;
  }

  // ----- events keep the invariant -----

  lemma LaunchedRow(kind: Kind, batch: nat, r: ActiveRequest, kv: seq<int>, row: Row)
    requires Settled(r, kv) && MayLaunch(kind, r, kv, row)
    ensures RowOk(kind, r.(phase := InFlight(batch)), kv, row)
  {
  }

  lemma LaunchGood(s: State, s': State, batch: Batch)
    requires Good(s, Prefill, 0, [], 0) && LaunchEnabled(s, batch) && s'.stored == s.stored && s'.active.Keys == s.active.Keys
    requires forall id :: id in s.active ==>
      s'.active[id] == if Owned(batch.rows, 0, id) then s.active[id].(phase := InFlight(batch.id)) else s.active[id]
    ensures Good(s', batch.kind, batch.id, batch.rows, 0)
  {
    forall id | id in s'.active
      ensures RequestOk(s'.active[id], s'.stored[id])
      ensures !Owned(batch.rows, 0, id) ==> Settled(s'.active[id], s'.stored[id])
    {
      assert RequestOk(s.active[id], s.stored[id]);
      assert !Owned([], 0, id);
    }
    forall i | 0 <= i < |batch.rows|
      ensures InFlightRow(s', batch.kind, batch.id, batch.rows[i])
    {
      var row := batch.rows[i];
      assert Owned(batch.rows, 0, row.id) && !Owned([], 0, row.id);
      LaunchedRow(batch.kind, batch.id, s.active[row.id], s.stored[row.id], row);
    }
  }

  lemma LaunchConsistent(s: State, batch: Batch)
    requires Consistent(s) && LaunchEnabled(s, batch)
    ensures Consistent(Apply(s, Launch(batch)))
  {
    var t := LaunchIn(s, batch);
    LaunchedRequests(s, batch);
    LaunchGood(s, t, batch);
    InFlightConsistent(t, batch);
  }

  lemma LaunchedRequests(s: State, batch: Batch)
    ensures var t := LaunchIn(s, batch);
      && t.inFlight == Some(batch) && t.stored == s.stored && t.active.Keys == s.active.Keys
      && forall id :: id in s.active ==>
        t.active[id] == if Owned(batch.rows, 0, id) then s.active[id].(phase := InFlight(batch.id)) else s.active[id]
  {
    LaunchRowsEffect(s.(inFlight := Some(batch), nextBatch := s.nextBatch + 1), batch.id, batch.rows, 0);
  }

  lemma InFlightConsistent(t: State, batch: Batch)
    requires t.inFlight == Some(batch) && Good(t, batch.kind, batch.id, batch.rows, 0) && batch.rows != []
    requires DistinctRows(batch.rows) && forall i :: 0 <= i < |batch.rows| ==> |batch.rows[i].tokens| == batch.Width()
    ensures Consistent(t)
  {
  }

  lemma LaunchConserved(s: State, batch: Batch)
    requires Conserved(s) && LaunchEnabled(s, batch)
    ensures Conserved(Apply(s, Launch(batch)))
  {
    var s0 := s.(inFlight := Some(batch), nextBatch := s.nextBatch + 1);
    var s' := LaunchRows(s0, batch.id, batch.rows, 0);
    LaunchRowsEffect(s0, batch.id, batch.rows, 0);
    ConservedSameRequests(s, s'.active, s.stored, Some(batch), s.nextBatch + 1);
  }

  lemma FailConsistent(s: State)
    requires Consistent(s) && s.inFlight.Some?
    ensures Consistent(Apply(s, Fail))
  {
    var batch := s.inFlight.value;
    var s' := Apply(s, Fail);
    FailRowsEffect(s.(inFlight := None), batch.kind, batch.rows, 0);
    forall id | id in s'.active
      ensures RequestOk(s'.active[id], s'.stored[id]) && Settled(s'.active[id], s'.stored[id])
    {
      assert RequestOk(s.active[id], s.stored[id]);
      if Owned(batch.rows, 0, id) {
        var i :| 0 <= i < |batch.rows| && batch.rows[i].id == id;
        assert InFlightRow(s, batch.kind, batch.id, batch.rows[i]);
      }
    }
    assert Good(s', Prefill, 0, [], 0);
  }

  lemma FailKeepsRequests(s: State)
    requires Consistent(s) && s.inFlight.Some?
    ensures var s' := Apply(s, Fail);
      && s' == s.(inFlight := None, active := s'.active) && s'.active.Keys == s.active.Keys
      && forall id :: id in s.active ==> s'.active[id] == s.active[id].(phase := s'.active[id].phase)
  {
    var batch := s.inFlight.value;
    var s' := Apply(s, Fail);
    FailRowsEffect(s.(inFlight := None), batch.kind, batch.rows, 0);
    forall id | id in s.active
      ensures s'.active[id] == s.active[id].(phase := s'.active[id].phase)
    {
      if Owned(batch.rows, 0, id) {
        var i :| 0 <= i < |batch.rows| && batch.rows[i].id == id;
      }
    }
  }

  /** Consistency is a property of each request by itself, so a change at one settled request is local. */
  lemma ChangeOne(s: State, s': State, id: nat)
    requires Consistent(s) && s'.inFlight == s.inFlight && SameExcept(s, s', id)
    requires id in s.active ==> !s.active[id].phase.InFlight?
    requires id in s'.active ==> RequestOk(s'.active[id], s'.stored[id]) && Settled(s'.active[id], s'.stored[id])
    ensures Consistent(s')
  {
    var kind := if s.inFlight.Some? then s.inFlight.value.kind else Prefill;
    var batch := if s.inFlight.Some? then s.inFlight.value.id else 0;
    var rows := if s.inFlight.Some? then s.inFlight.value.rows else [];
    assert Good(s, kind, batch, rows, 0);
    forall x | x in s'.active
      ensures RequestOk(s'.active[x], s'.stored[x])
      ensures !Owned(rows, 0, x) ==> Settled(s'.active[x], s'.stored[x])
    {
      if x != id {
        assert s'.active[x] == s.active[x] && s'.stored[x] == s.stored[x];
      }
    }
    forall i | 0 <= i < |rows|
      ensures InFlightRow(s', kind, batch, rows[i])
    {
      assert InFlightRow(s, kind, batch, rows[i]);
    }
    assert Good(s', kind, batch, rows, 0);
  }

  lemma PendingAppend(pending: seq<Pending>, p: Pending)
    ensures PendingIds(pending + [p]) == PendingIds(pending) + {p.id}
  {
    forall x | x in PendingIds(pending) + {p.id}
      ensures x in PendingIds(pending + [p])
    {
      if x == p.id {
        assert (pending + [p])[|pending|].id == x;
      } else {
        var i :| 0 <= i < |pending| && pending[i].id == x;
        assert (pending + [p])[i].id == x;
      }
    }
  }

  ghost predicate DistinctPending(pending: seq<Pending>) {
    forall i, j :: 0 <= i < j < |pending| ==> pending[i].id != pending[j].id
  }

  lemma PendingRemove(pending: seq<Pending>, position: nat)
    requires position < |pending| && DistinctPending(pending)
    ensures PendingIds(Remove(pending, position)) == PendingIds(pending) - {pending[position].id}
    ensures DistinctPending(Remove(pending, position))
    ensures forall i :: 0 <= i < |pending| - 1 ==> Remove(pending, position)[i] == pending[if i < position then i else i + 1]
  {
    var rest := Remove(pending, position);
    forall x | x in PendingIds(pending) && x != pending[position].id
      ensures x in PendingIds(rest)
    {
      var i :| 0 <= i < |pending| && pending[i].id == x;
      assert rest[if i < position then i else i - 1].id == x;
    }
  }

  lemma {:induction false} WithoutPendingRemoves(pending: seq<Pending>, id: nat, position: nat)
    requires position < |pending| && pending[position].id == id && DistinctPending(pending)
    ensures WithoutPending(pending, id) == Remove(pending, position)
  {
    if position == 0 {
      assert Remove(pending, 0) == pending[1..];
    } else {
      assert pending[0].id != id;
      WithoutPendingRemoves(pending[1..], id, position - 1);
      assert Remove(pending, position) == [pending[0]] + Remove(pending[1..], position - 1);
    }
  }

  /** Consistency looks at the active requests, the stored tokens and the batch only. */
  lemma ConsistentFrame(s: State, s': State)
    requires Consistent(s) && s'.active == s.active && s'.stored == s.stored && s'.inFlight == s.inFlight
    ensures Consistent(s')
  {
    match s.inFlight
    case None => assert Good(s', Prefill, 0, [], 0);
    case Some(batch) => assert Good(s', batch.kind, batch.id, batch.rows, 0);
  }

  lemma SubmitRecorded(s: State, spec: Spec)
    requires Conserved(s) && spec.prompt != []
    ensures Recorded(SubmitTo(s, spec))
  {
    var id := s.nextRequest;
    assert id !in s.submitted;
    forall i | 0 <= i < |s.pending|
      ensures s.pending[i].id != id
    {
      assert s.pending[i].id in s.submitted;
    }
    forall i | 0 <= i < |s.done|
      ensures s.done[i].id != id
    {
      assert s.done[i].id in s.submitted;
    }
  }

  lemma SubmitConserved(s: State, spec: Spec)
    requires Conserved(s) && spec.prompt != []
    ensures Conserved(SubmitTo(s, spec))
  {
    var id := s.nextRequest;
    SubmitRecorded(s, spec);
    assert id !in s.submitted.Keys;
    assert SubmitTo(s, spec).submitted.Keys == s.submitted.Keys + {id};
    if spec.maxNew == 0 {
      DoneAppend(s.done, Finished(id, spec.prompt, [], false));
    } else {
      PendingAppend(s.pending, Pending(id, spec));
    }
  }

  lemma AdmitConsistent(s: State, position: nat, cached: nat, admitted: nat)
    requires Consistent(s) && position < |s.pending| && cached < |s.pending[position].spec.prompt|
    requires s.pending[position].spec.maxNew > 0 && s.pending[position].id !in s.active
    ensures Consistent(AdmitTo(s, position, cached, admitted))
  {
    var p := s.pending[position];
    var s' := AdmitTo(s, position, cached, admitted);
    assert RequestOk(s'.active[p.id], s'.stored[p.id]);
    ChangeOne(s, s', p.id);
  }

  lemma AdmitConserved(s: State, position: nat, cached: nat, admitted: nat)
    requires Conserved(s) && position < |s.pending| && cached < |s.pending[position].spec.prompt|
    ensures s.pending[position].id !in s.active && s.pending[position].spec.maxNew > 0
    ensures Conserved(AdmitTo(s, position, cached, admitted))
  {
    var p := s.pending[position];
    var s' := AdmitTo(s, position, cached, admitted);
    assert p.id in PendingIds(s.pending);
    PendingRemove(s.pending, position);
    assert s'.active.Keys == s.active.Keys + {p.id};
  }

  lemma CancelPending(s: State, id: nat, position: nat)
    requires Conserved(s) && id !in s.active && position < |s.pending| && s.pending[position].id == id
    ensures Conserved(CancelIn(s, id))
  {
    assert id in PendingIds(s.pending);
    WithoutPendingRemoves(s.pending, id, position);
    PendingRemove(s.pending, position);
  }

  lemma CancelActive(s: State, id: nat)
    requires Conserved(s) && id in s.active
    ensures Conserved(CancelIn(s, id))
  {
    assert CancelIn(s, id).active.Keys == s.active.Keys - {id};
  }

  lemma CancelConserved(s: State, id: nat)
    requires Conserved(s) && Enabled(s, Cancel(id))
    ensures Conserved(CancelIn(s, id))
  {
    if id in s.active {
      CancelActive(s, id);
    } else {
      var position :| 0 <= position < |s.pending| && s.pending[position].id == id;
      CancelPending(s, id, position);
    }
  }

  lemma CancelConsistent(s: State, id: nat)
    requires Consistent(s) && Enabled(s, Cancel(id))
    ensures Consistent(CancelIn(s, id))
  {
    var s' := CancelIn(s, id);
    if id in s.active {
      assert s.active.Keys == s.stored.Keys;
      assert s'.active.Keys == s.active.Keys - {id} && s'.stored.Keys == s.stored.Keys - {id};
      ChangeOne(s, s', id);
    } else {
      ConsistentFrame(s, s');
    }
  }

  lemma PreemptConsistent(s: State, id: nat)
    requires Consistent(s) && Enabled(s, Preempt(id))
    ensures Consistent(Apply(s, Preempt(id)))
  {
    var s' := Apply(s, Preempt(id));
    assert RequestOk(s.active[id], s.stored[id]);
    assert RequestOk(s'.active[id], s'.stored[id]);
    ChangeOne(s, s', id);
  }

  lemma StepConsistent(s: State, e: Event)
    requires Inv(s) && Enabled(s, e)
    ensures Consistent(Apply(s, e))
  {
    match e
    case Submit(spec) => ConsistentFrame(s, SubmitTo(s, spec));
    case Admit(position, cached, admitted) =>
      AdmitConserved(s, position, cached, admitted);
      AdmitConsistent(s, position, cached, admitted);
    case Preempt(id) => PreemptConsistent(s, id);
    case Launch(batch) => LaunchConsistent(s, batch);
    case Complete(tokens) => CompleteKeeps(s, tokens);
    case CompleteVerify(argmax) => CompleteVerifyKeeps(s, argmax);
    case Fail => FailConsistent(s);
    case Cancel(id) => CancelConsistent(s, id);
  }

  lemma NothingInFlight(s: State, kind: Kind, batch: nat, rows: seq<Row>)
    requires Good(s, kind, batch, rows, |rows|) && s.inFlight.None?
    ensures Consistent(s)
  {
    forall id | id in s.active
      ensures Settled(s.active[id], s.stored[id])
    {
      assert !Owned(rows, |rows|, id);
    }
  }

  /** The rows of the batch in flight, with the batch slot already taken. */
  lemma TakeBatch(s: State)
    requires Inv(s) && s.inFlight.Some?
    ensures Conserved(s.(inFlight := None))
    ensures Good(s.(inFlight := None), s.inFlight.value.kind, s.inFlight.value.id, s.inFlight.value.rows, 0)
    ensures RowsReady(s.(inFlight := None), s.inFlight.value.kind, s.inFlight.value.id, s.inFlight.value.rows, 0)
  {
    var batch := s.inFlight.value;
    ConservedSameRequests(s, s.active, s.stored, None, s.nextBatch);
    forall j | 0 <= j < |batch.rows|
      ensures RowReady(s.(inFlight := None), batch.kind, batch.id, batch.rows[j])
    {
      assert InFlightRow(s, batch.kind, batch.id, batch.rows[j]);
    }
  }

  lemma CompleteKeeps(s: State, tokens: seq<int>)
    requires Inv(s) && Enabled(s, Complete(tokens))
    ensures Inv(Apply(s, Complete(tokens)))
  {
    var batch := s.inFlight.value;
    TakeBatch(s);
    var s0 := s.(inFlight := None);
    CompleteRowsGood(s0, batch.kind, batch.id, batch.rows, tokens, 0);
    CompleteRowsConserved(s0, batch.kind, batch.id, batch.rows, tokens, 0);
    NothingInFlight(CompleteRows(s0, batch.rows, tokens, 0), batch.kind, batch.id, batch.rows);
  }

  lemma CompleteVerifyKeeps(s: State, argmax: seq<int>)
    requires Inv(s) && Enabled(s, CompleteVerify(argmax))
    ensures Inv(Apply(s, CompleteVerify(argmax)))
  {
    var batch := s.inFlight.value;
    TakeBatch(s);
    var s0 := s.(inFlight := None);
    CompleteVerifyRowsGood(s0, batch.id, batch.rows, argmax, batch.Width(), 0);
    CompleteVerifyRowsConserved(s0, batch.id, batch.rows, argmax, batch.Width(), 0);
    NothingInFlight(CompleteVerifyRows(s0, batch.rows, argmax, batch.Width(), 0), Verify, batch.id, batch.rows);
  }

  lemma StepConserved(s: State, e: Event)
    requires Inv(s) && Enabled(s, e)
    ensures Conserved(Apply(s, e))
  {
    match e
    case Submit(spec) => SubmitConserved(s, spec);
    case Admit(position, cached, admitted) => AdmitConserved(s, position, cached, admitted);
    case Preempt(id) =>
      var s' := Apply(s, e);
      ConservedSameRequests(s, s'.active, s'.stored, s.inFlight, s.nextBatch);
    case Launch(batch) => LaunchConserved(s, batch);
    case Complete(tokens) => CompleteKeeps(s, tokens);
    case CompleteVerify(argmax) => CompleteVerifyKeeps(s, argmax);
    case Fail =>
      FailKeepsRequests(s);
      ConservedSameRequests(s, Apply(s, e).active, s.stored, None, s.nextBatch);
    case Cancel(id) => CancelConserved(s, id);
  }

  lemma StepKeeps(s: State, e: Event)
    requires Inv(s) && Enabled(s, e)
    ensures Inv(Apply(s, e))
  {
    StepConsistent(s, e);
    StepConserved(s, e);
  }

  // ----- streams -----

  /** Streams only look at each request's tokens. */
  lemma StreamsSameTokens(next: Model, s: State, s': State)
    requires Streams(next, s) && s'.done == s.done && s'.submitted == s.submitted
    requires forall id :: id in s'.active ==>
      id in s.active && s'.active[id].spec == s.active[id].spec && s'.active[id].generated == s.active[id].generated
    ensures Streams(next, s')
  {
  }

  lemma LaunchStreams(next: Model, s: State, batch: Batch)
    requires Streams(next, s) && LaunchEnabled(s, batch)
    ensures Streams(next, Apply(s, Launch(batch)))
  {
    LaunchRowsEffect(s.(inFlight := Some(batch), nextBatch := s.nextBatch + 1), batch.id, batch.rows, 0);
    StreamsSameTokens(next, s, Apply(s, Launch(batch)));
  }

  lemma CompleteStreams(next: Model, s: State, tokens: seq<int>)
    requires Inv(s) && Streams(next, s) && Enabled(s, Complete(tokens)) && HonestEvent(next, s, Complete(tokens))
    ensures Streams(next, Apply(s, Complete(tokens)))
  {
    var batch := s.inFlight.value;
    TakeBatch(s);
    var s0 := s.(inFlight := None);
    forall i | 0 <= i < |batch.rows|
      ensures HonestToken(next, s0, batch.rows[i], tokens[i])
    {
      assert HonestToken(next, s, batch.rows[i], tokens[i]);
    }
    StreamsSameTokens(next, s, s0);
    CompleteRowsStreams(next, s0, batch.kind, batch.id, batch.rows, tokens, 0);
  }

  lemma CompleteVerifyStreams(next: Model, s: State, argmax: seq<int>)
    requires Inv(s) && Streams(next, s) && Enabled(s, CompleteVerify(argmax)) && HonestEvent(next, s, CompleteVerify(argmax))
    ensures Streams(next, Apply(s, CompleteVerify(argmax)))
  {
    var batch := s.inFlight.value;
    TakeBatch(s);
    var s0 := s.(inFlight := None);
    forall i | 0 <= i < |batch.rows|
      ensures HonestPredictions(next, s0, batch.rows[i], Predictions(argmax, batch.Width(), i))
    {
      assert HonestPredictions(next, s, batch.rows[i], Predictions(argmax, batch.Width(), i));
    }
    StreamsSameTokens(next, s, s0);
    CompleteVerifyRowsStreams(next, s0, batch.id, batch.rows, argmax, batch.Width(), 0);
  }

  lemma AdmitStreams(next: Model, s: State, position: nat, cached: nat, admitted: nat)
    requires Streams(next, s) && position < |s.pending| && cached < |s.pending[position].spec.prompt|
    ensures Streams(next, AdmitTo(s, position, cached, admitted))
  {
  }

  lemma SubmitStreams(next: Model, s: State, spec: Spec)
    requires Streams(next, s) && Conserved(s)
    ensures Streams(next, SubmitTo(s, spec))
  {
    assert s.nextRequest !in s.submitted;
  }

  lemma StepStreams(next: Model, s: State, e: Event)
    requires Inv(s) && Streams(next, s) && Enabled(s, e) && HonestEvent(next, s, e)
    ensures Streams(next, Apply(s, e))
  {
    match e
    case Submit(spec) => SubmitStreams(next, s, spec);
    case Admit(position, cached, admitted) => AdmitStreams(next, s, position, cached, admitted);
    case Preempt(id) => StreamsSameTokens(next, s, Apply(s, e));
    case Launch(batch) => LaunchStreams(next, s, batch);
    case Complete(tokens) => CompleteStreams(next, s, tokens);
    case CompleteVerify(argmax) => CompleteVerifyStreams(next, s, argmax);
    case Fail =>
      FailKeepsRequests(s);
      StreamsSameTokens(next, s, Apply(s, e));
    case Cancel(id) => StreamsSameTokens(next, s, Apply(s, e));
  }

  // ----- whole runs -----

  /** Every state of every run is consistent and loses no request. */
  lemma {:induction false} RunsAreSafe(events: seq<Event>)
    requires Legal(events)
    ensures Inv(After(events))
    decreases |events|
  {
    if events != [] {
      var before, e := events[..|events| - 1], events[|events| - 1];
      assert LegalThen(before, e) && AfterThen(before, e) == Apply(After(before), e);
      RunsAreSafe(before);
      StepKeeps(After(before), e);
    }
  }

  lemma {:induction false} RunsFollowModel(next: Model, events: seq<Event>)
    requires Legal(events) && Honest(next, events)
    ensures Streams(next, After(events))
    decreases |events|
  {
    if events != [] {
      var before, e := events[..|events| - 1], events[|events| - 1];
      assert LegalThen(before, e) && AfterThen(before, e) == Apply(After(before), e);
      assert HonestThen(next, before, e);
      RunsAreSafe(before);
      RunsFollowModel(next, before);
      StepStreams(next, After(before), e);
    }
  }

  /**
   Whatever interleaving of submissions, admissions, chunked prefills, preemptions, speculative
   verifications, failures and cancellations produced it, a finished greedy generation is the
   single-sequence decoder's output.
   */
  lemma BatchingRefinesGreedyDecoding(next: Model, events: seq<Event>, i: nat)
    requires Legal(events) && Honest(next, events) && i < |After(events).done|
    ensures var f := After(events).done[i];
      && f.id in After(events).submitted
      && var spec := After(events).submitted[f.id];
         && f.prompt == spec.prompt
         && f.stoppedOnEos == (f.generated != [] && Last(f.generated) in spec.eos)
         && (spec.greedy ==> GreedyOutput(next, spec.prompt, spec.maxNew, spec.eos, f.generated))
  {
    RunsAreSafe(events);
    RunsFollowModel(next, events);
    var s := After(events);
    assert FinishedOk(s.done[i], s.submitted[s.done[i].id]);
  }

  /** Two runs that differ in scheduling, drafts and failures still answer the same request alike. */
  lemma OutputsDoNotDependOnScheduling(next: Model, a: seq<Event>, b: seq<Event>, i: nat, j: nat)
    requires Legal(a) && Honest(next, a) && i < |After(a).done|
    requires Legal(b) && Honest(next, b) && j < |After(b).done|
    requires After(a).done[i].id in After(a).submitted && After(b).done[j].id in After(b).submitted
    requires After(a).submitted[After(a).done[i].id] == After(b).submitted[After(b).done[j].id]
    requires After(a).submitted[After(a).done[i].id].greedy
    ensures After(a).done[i].generated == After(b).done[j].generated
    ensures After(a).done[i].stoppedOnEos == After(b).done[j].stoppedOnEos
  {
    BatchingRefinesGreedyDecoding(next, a, i);
    BatchingRefinesGreedyDecoding(next, b, j);
    var spec := After(a).submitted[After(a).done[i].id];
    GreedyOutputUnique(next, spec.prompt, spec.maxNew, spec.eos, After(a).done[i].generated, After(b).done[j].generated);
  }
}
