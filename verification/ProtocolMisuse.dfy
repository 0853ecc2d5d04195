/**
 `complete_batch` does not look at the kind of the batch it completes. Reporting one token per row for
 a verification batch commits the whole draft, so the KV cache no longer holds a prefix of the
 history. The exact condition under which nothing goes wrong: every reported token ends its request.
 */
module ProtocolMisuse {
  import opened Wrappers
  import opened Generation
  import opened Protocol
  import opened ProtocolSafety
  import opened ProtocolRuns
  import Scheduler

  ghost predicate Ends(s: State, row: Row, token: int) {
    row.id in s.active && token in s.active[row.id].spec.eos
  }

  lemma VerifyRowCompletedPlainly(s: State, batch: nat, row: Row, token: int)
    requires RowReady(s, Verify, batch, row)
    ensures var s' := CompleteRow(s, row, token);
      if Ends(s, row, token) then row.id !in s'.active && row.id !in s'.stored
      else row.id in s'.active && row.id in s'.stored && !RequestOk(s'.active[row.id], s'.stored[row.id])
  {
  }

  /** What the rows from `i` on came to: a row that ends is gone, any other one is broken. */
  ghost predicate PlainlyDone(s: State, s': State, rows: seq<Row>, tokens: seq<int>, i: nat)
    requires |tokens| == |rows|
  {
    && s'.active.Keys == s'.stored.Keys && s.active.Keys == s.stored.Keys && s'.inFlight == s.inFlight
    && (forall id :: id in s'.active ==> id in s.active)
    && (forall id :: id in s.active && !Owned(rows, i, id) ==>
      id in s'.active && s'.active[id] == s.active[id] && s'.stored[id] == s.stored[id])
    && (forall j :: i <= j < |rows| ==> RowPlainlyDone(s, s', rows[j], tokens[j]))
  }

  ghost predicate RowPlainlyDone(s: State, s': State, row: Row, token: int) {
    if Ends(s, row, token) then row.id !in s'.active
    else row.id in s'.active && row.id in s'.stored && !RequestOk(s'.active[row.id], s'.stored[row.id])
  }

  /** One row further back; `t` is the state between. */
  lemma PlainlyDoneBefore(s: State, t: State, s': State, batch: nat, rows: seq<Row>, tokens: seq<int>, i: nat)
    requires RowsReady(s, Verify, batch, rows, i) && DistinctRows(rows) && i < |rows| == |tokens|
    requires SameExcept(s, t, rows[i].id) && t.inFlight == s.inFlight && RowPlainlyDone(s, t, rows[i], tokens[i])
    requires rows[i].id in t.active ==> rows[i].id in s.active
    requires PlainlyDone(t, s', rows, tokens, i + 1)
    ensures PlainlyDone(s, s', rows, tokens, i)
  {
    assert !Owned(rows, i + 1, rows[i].id);
    forall id | id in s.active && !Owned(rows, i, id)
      ensures id in s'.active && s'.active[id] == s.active[id] && s'.stored[id] == s.stored[id]
    {
      assert rows[i].id != id && !Owned(rows, i + 1, id);
    }
    forall j | i <= j < |rows|
      ensures RowPlainlyDone(s, s', rows[j], tokens[j])
    {
      assert RowReady(s, Verify, batch, rows[j]);
      if j > i {
        assert RowPlainlyDone(t, s', rows[j], tokens[j]) && rows[j].id != rows[i].id;
      }
    }
  }

  lemma {:induction false} VerifyRowsCompletedPlainly(s: State, batch: nat, rows: seq<Row>, tokens: seq<int>, i: nat)
    requires RowsReady(s, Verify, batch, rows, i) && DistinctRows(rows) && |tokens| == |rows| && i <= |rows|
    ensures PlainlyDone(s, CompleteRows(s, rows, tokens, i), rows, tokens, i)
    decreases |rows| - i
  {
    if i < |rows| {
      var t := CompleteRow(s, rows[i], tokens[i]);
      VerifyRowCompletedPlainly(s, batch, rows[i], tokens[i]);
      CompleteRowLocal(s, rows[i], tokens[i]);
      OtherRowsReady(s, t, Verify, batch, rows, i);
      VerifyRowsCompletedPlainly(t, batch, rows, tokens, i + 1);
      PlainlyDoneBefore(s, t, CompleteRows(t, rows, tokens, i + 1), batch, rows, tokens, i);
    }
  }

  /** Completing a verification batch like a decode batch is sound exactly when every row ends. */
  lemma PlainCompletionOfVerifyBatch(s: State, tokens: seq<int>)
    requires Inv(s) && s.inFlight.Some? && s.inFlight.value.kind == Verify && |tokens| == |s.inFlight.value.rows|
    ensures var rows := s.inFlight.value.rows;
      Consistent(CompleteRows(s.(inFlight := None), rows, tokens, 0))
      <==> forall i :: 0 <= i < |rows| ==> Ends(s, rows[i], tokens[i])
  {
    var batch := s.inFlight.value;
    var s0 := s.(inFlight := None);
    TakeBatch(s);
    VerifyRowsCompletedPlainly(s0, batch.id, batch.rows, tokens, 0);
    var s' := CompleteRows(s0, batch.rows, tokens, 0);
    if forall i :: 0 <= i < |batch.rows| ==> Ends(s, batch.rows[i], tokens[i]) {
      forall id | id in s'.active
        ensures RequestOk(s'.active[id], s'.stored[id]) && Settled(s'.active[id], s'.stored[id])
      {
        forall j | 0 <= j < |batch.rows|
          ensures batch.rows[j].id != id
        {
          assert RowPlainlyDone(s0, s', batch.rows[j], tokens[j]) && Ends(s0, batch.rows[j], tokens[j]);
        }
        assert !Owned(batch.rows, 0, id);
      }
      assert Good(s', Prefill, 0, [], 0);
    } else {
      var i :| 0 <= i < |batch.rows| && !Ends(s, batch.rows[i], tokens[i]);
      assert RowPlainlyDone(s0, s', batch.rows[i], tokens[i]) && !Ends(s0, batch.rows[i], tokens[i]);
    }
  }

  // ----- a run that gets there -----

  const ExampleSpec: Spec := Spec([8, 9], 4, {}, true)

  const PrefillRow: Row := Row(1, [8, 9], 0, 2, [0], 1)

  /** The token `8` to decode, then the draft `9` that followed the earlier `8`. */
  const VerifyRow: Row := Row(1, [8, 9], 2, 4, [0], 2)

  const Start: seq<Event> := [Submit(ExampleSpec), Admit(0, 0, 0)]

  const Launched: seq<Event> := Start + [Launch(Batch(1, Prefill, [PrefillRow]))]

  const Answered: seq<Event> := Launched + [Complete([8])]

  const ExampleRun: seq<Event> := Answered + [Launch(Batch(2, Verify, [VerifyRow]))]

  const Prefilling: State :=
    State(map[1 := ExampleSpec], [],
          map[1 := ActiveRequest(ExampleSpec, [], [8, 9], 0, InFlight(1))],
          map[1 := []], Some(Batch(1, Prefill, [PrefillRow])), [], {}, 2, 2)

  /** Request 1 with its first token. */
  const Decoding: State :=
    State(map[1 := ExampleSpec], [],
          map[1 := ActiveRequest(ExampleSpec, [8], [8, 9, 8], 0, AwaitingDecode(8))],
          map[1 := [8, 9]], None, [], {}, 2, 2)

  /** The same with its draft in flight. */
  const Example: State :=
    State(map[1 := ExampleSpec], [],
          map[1 := ActiveRequest(ExampleSpec, [8], [8, 9, 8], 0, InFlight(2))],
          map[1 := [8, 9]], Some(Batch(2, Verify, [VerifyRow])), [], {}, 2, 3)

  lemma Extended(events: seq<Event>, e: Event, longer: seq<Event>)
    requires Legal(events) && Enabled(After(events), e) && longer == events + [e]
    ensures Legal(longer) && After(longer) == Apply(After(events), e)
  {
    assert longer[..|events|] == events;
    assert LegalThen(events, e) && AfterThen(events, e) == Apply(After(events), e);
  }

  lemma ExampleAdmitted()
    ensures Legal(Start)
    ensures After(Start) ==
      State(map[1 := ExampleSpec], [], map[1 := ActiveRequest(ExampleSpec, [], [8, 9], 0, NeedsPrefill)], map[1 := []], None, [], {}, 2, 1)
  {
    Extended([], Submit(ExampleSpec), [Submit(ExampleSpec)]);
    Extended([Submit(ExampleSpec)], Admit(0, 0, 0), Start);
  }

  lemma ExampleLaunched()
    ensures Legal(Launched) && After(Launched) == Prefilling
  {
    ExampleAdmitted();
    var batch, p := Batch(1, Prefill, [PrefillRow]), After(Start);
    assert batch.rows[0] == PrefillRow && MayLaunch(Prefill, p.active[1], p.stored[1], PrefillRow);
    Extended(Start, Launch(batch), Launched);
    OneLaunched(p, batch, PrefillRow);
  }

  lemma PrefillAnswered()
    ensures CompleteRow(Prefilling.(inFlight := None), PrefillRow, 8) == Decoding
  {
    var p := Prefilling.(inFlight := None);
    var r := p.active[1];
    assert p.stored[1] + PrefillRow.tokens == [8, 9] && r.generated + [8] == [8] && r.history + [8] == [8, 9, 8];
  }

  lemma ExampleAnswered()
    ensures Legal(Answered) && After(Answered) == Decoding
  {
    ExampleLaunched();
    Extended(Launched, Complete([8]), Answered);
    OneCompleted(Prefilling.(inFlight := None), PrefillRow, 8);
    PrefillAnswered();
  }

  lemma OneLaunched(p: State, batch: Batch, row: Row)
    requires batch.rows == [row]
    ensures LaunchIn(p, batch) == LaunchRow(p.(inFlight := Some(batch), nextBatch := p.nextBatch + 1), batch.id, row)
  {
    var s := p.(inFlight := Some(batch), nextBatch := p.nextBatch + 1);
    assert LaunchRows(s, batch.id, batch.rows, 0) == LaunchRows(LaunchRow(s, batch.id, row), batch.id, batch.rows, 1);
  }

  lemma OneCompleted(p: State, row: Row, token: int)
    ensures CompleteRows(p, [row], [token], 0) == CompleteRow(p, row, token)
  {
    assert CompleteRows(p, [row], [token], 0) == CompleteRows(CompleteRow(p, row, token), [row], [token], 1);
  }

  /** The row is the one drafting makes of the history: the last token also stands at its start, followed by `9`. */
  lemma ExampleDraft()
    ensures Scheduler.DraftAt([8, 9, 8], 1, 1, [9], 1, 0)
    ensures Scheduler.DraftedRow(Decoding.active[1], Scheduler.Speculative(1, 1), VerifyRow.tokens)
  {
    var history := [8, 9, 8];
    assert history[0..1] == [8] == history[2..] && history[1..2] == [9];
    assert Scheduler.Occurs(history, 1, 0);
    assert history[1..2] != history[2..];
    assert Scheduler.NoOccurrence(history, 1, 1);
    assert Scheduler.DraftAt(Decoding.active[1].history, 1, 1, [9], 1, 0);
    assert Scheduler.Padded([9], 1) == [9];
  }

  lemma ExampleReached()
    ensures Legal(ExampleRun) && After(ExampleRun) == Example
  {
    ExampleAnswered();
    var batch := Batch(2, Verify, [VerifyRow]);
    assert batch.rows[0] == VerifyRow && MayLaunch(Verify, Decoding.active[1], Decoding.stored[1], VerifyRow);
    Extended(Answered, Launch(batch), ExampleRun);
    OneLaunched(Decoding, batch, VerifyRow);
  }

  /** A run of the scheduler, and a token that leaves its request inconsistent. */
  lemma PlainCompletionExample()
    ensures Legal(ExampleRun) && After(ExampleRun) == Example
    ensures Scheduler.DraftedRow(Decoding.active[1], Scheduler.Speculative(1, 1), VerifyRow.tokens)
    ensures !Consistent(CompleteRows(Example.(inFlight := None), Example.inFlight.value.rows, [5], 0))
  {
    ExampleReached();
    ExampleDraft();
    RunsAreSafe(ExampleRun);
    PlainCompletionOfVerifyBatch(Example, [5]);
    assert !Ends(Example, Example.inFlight.value.rows[0], [5][0]);
  }
}
