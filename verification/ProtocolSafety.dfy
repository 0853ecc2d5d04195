/** Proofs that every event keeps the protocol's invariants, and what follows for whole runs. */
module ProtocolSafety {
  import opened Wrappers
  import opened Generation
  import opened Protocol

  // ----- streams -----

  lemma FollowsModelConcat(next: Model, context: seq<int>, a: seq<int>, b: seq<int>)
    requires FollowsModel(next, context, a) && FollowsModel(next, context + a, b)
    ensures FollowsModel(next, context, a + b)
  {
    var c := a + b;
    forall i | 0 <= i < |c|
      ensures c[i] == next(context + c[..i])
    {
      if i < |a| {
        assert c[..i] == a[..i];
      } else {
        assert context + c[..i] == (context + a) + b[..i - |a|];
      }
    }
  }

  /**
   What a verified row produces, whatever the draft was: all but its last token were drafted, nothing
   before the last token stops the request, the budget is respected, and the row stops only at the
   budget, a stop token, the end of the row, or the first draft token that differs.
   */
  lemma {:induction false} AcceptedShape(predictions: seq<int>, tokens: seq<int>, remaining: int, eos: set<int>, position: nat)
    requires position < |predictions| == |tokens|
    ensures var produced := Accepted(predictions, tokens, remaining, eos, position);
      && (remaining >= 1 ==> |produced| <= remaining)
      && produced == predictions[position..position + |produced|]
      && NoneIn(produced[..|produced| - 1], eos)
      && tokens[position + 1..position + |produced|] == produced[..|produced| - 1]
      && (|| |produced| == remaining || Last(produced) in eos || position + |produced| == |tokens|
          || tokens[position + |produced|] != Last(produced))
    decreases |predictions| - position
  {
    var prediction := predictions[position];
    if !(remaining == 1 || prediction in eos || position + 1 >= |tokens| || tokens[position + 1] != prediction) {
      AcceptedShape(predictions, tokens, remaining - 1, eos, position + 1);
      OneMoreAccepted(predictions, tokens, eos, position, Accepted(predictions, tokens, remaining - 1, eos, position + 1));
    }
  }

  lemma OneMoreAccepted(predictions: seq<int>, tokens: seq<int>, eos: set<int>, position: nat, rest: seq<int>)
    requires 1 <= |rest| <= |predictions| - position - 1 && |predictions| == |tokens| && rest == predictions[position + 1..position + 1 + |rest|]
    requires NoneIn(rest[..|rest| - 1], eos) && tokens[position + 2..position + 1 + |rest|] == rest[..|rest| - 1]
    requires predictions[position] !in eos && tokens[position + 1] == predictions[position]
    ensures var produced := [predictions[position]] + rest;
      && produced == predictions[position..position + |produced|] && NoneIn(produced[..|produced| - 1], eos)
      && tokens[position + 1..position + |produced|] == produced[..|produced| - 1] && Last(produced) == Last(rest)
  {
    var produced := [predictions[position]] + rest;
    assert produced[..|produced| - 1] == [predictions[position]] + rest[..|rest| - 1];
    assert tokens[position + 1..position + |produced|] == [tokens[position + 1]] + tokens[position + 2..position + 1 + |rest|];
  }

  /**
   What acceptance takes of a row's predictions, told without the loop: as many as agree with the draft, up to the
   first end-of-sequence token and the request's own token budget.
   */
  ghost predicate Taken(r: ActiveRequest, row: Row, predictions: seq<int>, produced: seq<int>) {
    && 1 <= |produced| <= |predictions| == |row.tokens| && produced == predictions[..|produced|]
    && (forall j :: 0 <= j < |produced| - 1 ==> produced[j] == row.tokens[j + 1] && produced[j] !in r.spec.eos)
    && (|r.generated| < r.spec.maxNew ==> |r.generated| + |produced| <= r.spec.maxNew)
    && (|| |r.generated| + |produced| == r.spec.maxNew || Last(produced) in r.spec.eos
        || |produced| == |row.tokens| || row.tokens[|produced|] != Last(produced))
  }

  lemma ProducedIsTaken(r: ActiveRequest, row: Row, predictions: seq<int>)
    requires row.tokens != [] && |predictions| == |row.tokens|
    ensures Taken(r, row, predictions, Produced(r, row, predictions))
  {
    var produced := Produced(r, row, predictions);
    AcceptedShape(predictions, row.tokens, r.spec.maxNew - |r.generated|, r.spec.eos, 0);
    forall j | 0 <= j < |produced| - 1
      ensures produced[j] == row.tokens[j + 1] && produced[j] !in r.spec.eos
    {
      assert produced[..|produced| - 1][j] == produced[j] && row.tokens[1..|produced|][j] == row.tokens[j + 1];
    }
  }

  /** Nothing else fits that description. */
  lemma TakenUnique(r: ActiveRequest, row: Row, predictions: seq<int>, a: seq<int>, b: seq<int>)
    requires |r.generated| < r.spec.maxNew && Taken(r, row, predictions, a) && Taken(r, row, predictions, b)
    ensures a == b
  {
    PrefixOf(predictions, a);
    PrefixOf(predictions, b);
    assert |a| == |b|;
  }

  lemma PrefixOf(s: seq<int>, part: seq<int>)
    requires |part| <= |s| && part == s[..|part|]
    ensures forall j :: 0 <= j < |part| ==> part[j] == s[j]
  {
  }

  lemma SlicePrefix(tokens: seq<int>, produced: seq<int>, i: nat)
    requires i < |produced| <= |tokens| && tokens[1..|produced|] == produced[..|produced| - 1]
    ensures tokens[1..i + 1] == produced[..i]
  {
    var drafted := produced[..|produced| - 1];
    assert tokens[1..i + 1] == tokens[1..|produced|][..i];
    assert produced[..i] == drafted[..i];
  }

  /** With an honest device the produced tokens are the model iterated from the row's history. */
  lemma AcceptedFollowsModel(next: Model, history: seq<int>, predictions: seq<int>, tokens: seq<int>, remaining: int, eos: set<int>)
    requires 0 < |predictions| == |tokens| && remaining >= 1
    requires forall p :: 0 <= p < |predictions| ==> predictions[p] == next(history + tokens[1..p + 1])
    ensures FollowsModel(next, history, Accepted(predictions, tokens, remaining, eos, 0))
  {
    AcceptedShape(predictions, tokens, remaining, eos, 0);
    var produced := Accepted(predictions, tokens, remaining, eos, 0);
    forall i | 0 <= i < |produced|
      ensures produced[i] == next(history + produced[..i])
    {
      SlicePrefix(tokens, produced, i);
    }
  }

  // ----- one row -----

  /** A request whose history has just grown, before it is retired or queued for decode. */
  ghost predicate Grown(r: ActiveRequest, kv: seq<int>) {
    && r.generated != [] && r.spec.prompt != []
    && r.history == r.spec.prompt + r.generated
    && NoneIn(r.generated[..|r.generated| - 1], r.spec.eos) && |r.generated| <= r.spec.maxNew
    && |kv| == |r.history| - 1 && kv == r.history[..|kv|]
  }

  /** Two states that differ at most at one request. */
  ghost predicate SameExcept(s: State, s': State, id: nat) {
    && s'.active.Keys == s'.stored.Keys
    && (forall x :: x in s.active && x in s.stored && x != id ==>
      x in s'.active && x in s'.stored && s'.active[x] == s.active[x] && s'.stored[x] == s.stored[x])
    && (forall x :: x in s'.active && x != id ==> x in s.active)
  }

  lemma ReleasedOk(s: State, s': State, id: nat)
    requires RequestsOk(s) && SameExcept(s, s', id) && s.active.Keys == s.stored.Keys
    requires id in s'.active ==> RequestOk(s'.active[id], s'.stored[id])
    ensures RequestsOk(s')
  {
    forall x | x in s'.active && x in s'.stored
      ensures RequestOk(s'.active[x], s'.stored[x])
    {
      if x != id {
        assert RequestOk(s.active[x], s.stored[x]);
      }
    }
  }

  lemma ReleasedSettled(s: State, s': State, rows: seq<Row>, i: nat)
    requires OthersSettled(s, rows, i) && i < |rows| && SameExcept(s, s', rows[i].id) && s.active.Keys == s.stored.Keys
    requires rows[i].id in s'.active ==> Settled(s'.active[rows[i].id], s'.stored[rows[i].id])
    ensures OthersSettled(s', rows, i + 1)
  {
    forall id | id in s'.active && id in s'.stored && !Owned(rows, i + 1, id)
      ensures Settled(s'.active[id], s'.stored[id])
    {
      if id != rows[i].id {
        assert !Owned(rows, i, id);
      }
    }
  }

  lemma ReleasedInFlight(s: State, s': State, kind: Kind, batch: nat, rows: seq<Row>, i: nat)
    requires RowsInFlight(s, kind, batch, rows, i) && i < |rows| && DistinctRows(rows) && SameExcept(s, s', rows[i].id)
    ensures RowsInFlight(s', kind, batch, rows, i + 1)
  {
    forall j | i + 1 <= j < |rows|
      ensures InFlightRow(s', kind, batch, rows[j])
    {
      assert InFlightRow(s, kind, batch, rows[j]);
    }
  }

  /** A row leaves the flight when its request becomes settled or disappears. */
  lemma ReleaseRow(s: State, s': State, kind: Kind, batch: nat, rows: seq<Row>, i: nat)
    requires Good(s, kind, batch, rows, i) && i < |rows| && DistinctRows(rows) && SameExcept(s, s', rows[i].id)
    requires rows[i].id in s'.active ==>
      RequestOk(s'.active[rows[i].id], s'.stored[rows[i].id]) && Settled(s'.active[rows[i].id], s'.stored[rows[i].id])
    ensures Good(s', kind, batch, rows, i + 1)
  {
    ReleasedOk(s, s', rows[i].id);
    ReleasedSettled(s, s', rows, i);
    ReleasedInFlight(s, s', kind, batch, rows, i);
  }

  lemma StaysActive(r: ActiveRequest, kv: seq<int>)
    requires Grown(r, kv) && Last(r.generated) !in r.spec.eos && |r.generated| < r.spec.maxNew
    ensures RequestOk(r.(phase := AwaitingDecode(Last(r.generated))), kv)
    ensures Settled(r.(phase := AwaitingDecode(Last(r.generated))), kv)
  {
    forall i | 0 <= i < |r.generated|
      ensures r.generated[i] !in r.spec.eos
    {
      if i < |r.generated| - 1 {
        assert r.generated[i] == r.generated[..|r.generated| - 1][i];
      }
    }
  }

  lemma SettleGood(s: State, kind: Kind, batch: nat, rows: seq<Row>, i: nat, r: ActiveRequest, kv: seq<int>)
    requires Good(s, kind, batch, rows, i) && i < |rows| && DistinctRows(rows) && Grown(r, kv)
    ensures Good(Settle(s, rows[i].id, r, kv), kind, batch, rows, i + 1)
  {
    var id := rows[i].id;
    var s' := Settle(s, id, r, kv);
    if id in s'.active {
      StaysActive(r, kv);
      assert s'.active[id] == r.(phase := AwaitingDecode(Last(r.generated))) && s'.stored[id] == kv;
    }
    assert SameExcept(s, s', id);
    ReleaseRow(s, s', kind, batch, rows, i);
  }

  /** Everything one in-flight row needs to be completed on its own. */
  ghost predicate RowReady(s: State, kind: Kind, batch: nat, row: Row) {
    && InFlightRow(s, kind, batch, row) && RequestOk(s.active[row.id], s.stored[row.id])
    && row.id in s.submitted && s.submitted[row.id] == s.active[row.id].spec
  }

  lemma RowReadyElsewhere(s: State, s': State, id: nat, kind: Kind, batch: nat, row: Row)
    requires SameExcept(s, s', id) && s'.submitted == s.submitted && row.id != id && RowReady(s, kind, batch, row)
    ensures RowReady(s', kind, batch, row)
  {
  }

  lemma DoneAppend(done: seq<Finished>, f: Finished)
    ensures DoneIds(done + [f]) == DoneIds(done) + {f.id}
  {
    forall x | x in DoneIds(done) + {f.id}
      ensures x in DoneIds(done + [f])
    {
      if x == f.id {
        assert (done + [f])[|done|].id == x;
      } else {
        var i :| 0 <= i < |done| && done[i].id == x;
        assert (done + [f])[i].id == x;
      }
    }
  }

  lemma SettleConserved(s: State, id: nat, r: ActiveRequest, kv: seq<int>)
    requires Conserved(s) && id in s.active && s.active[id].spec == r.spec && Grown(r, kv)
    ensures Conserved(Settle(s, id, r, kv))
  {
    var last := Last(r.generated);
    var f := Finished(id, r.spec.prompt, r.generated, last in r.spec.eos);
    DoneAppend(s.done, f);
    var s' := Settle(s, id, r, kv);
    if last in r.spec.eos || |r.generated| >= r.spec.maxNew {
      assert s'.active.Keys == s.active.Keys - {id};
      assert FinishedOk(f, s.submitted[id]);
      forall i | 0 <= i < |s.done|
        ensures s.done[i].id != id
      {
        assert s.done[i].id in DoneIds(s.done);
      }
    } else {
      assert s'.active.Keys == s.active.Keys;
    }
  }

  lemma SettleStreams(next: Model, s: State, id: nat, r: ActiveRequest, kv: seq<int>)
    requires Streams(next, s) && id in s.submitted && s.submitted[id] == r.spec && r.generated != []
    requires r.spec.greedy ==> FollowsModel(next, r.spec.prompt, r.generated)
    ensures Streams(next, Settle(s, id, r, kv))
  {
  }

  /** Completing a row of a prefill or decode batch takes it out of flight and nothing else. */
  lemma CompleteRowGood(s: State, kind: Kind, batch: nat, rows: seq<Row>, i: nat, token: int)
    requires Good(s, kind, batch, rows, i) && i < |rows| && DistinctRows(rows) && kind != Verify
    ensures Good(CompleteRow(s, rows[i], token), kind, batch, rows, i + 1)
  {
    var row := rows[i];
    var r := s.active[row.id];
    var kv := s.stored[row.id] + row.tokens;
    assert InFlightRow(s, kind, batch, row);
    RowExtendsStored(kind, r, s.stored[row.id], row);
    if row.context < |r.history| {
      ContinuesPrefill(s, kind, batch, rows, i, kv);
    } else {
      GrownByOne(r, kv, token);
      SettleGood(s, kind, batch, rows, i, Grow(r, [token]), kv);
    }
  }

  lemma CompleteRowConserved(s: State, kind: Kind, batch: nat, row: Row, token: int)
    requires Conserved(s) && RowReady(s, kind, batch, row) && kind != Verify
    ensures Conserved(CompleteRow(s, row, token))
  {
    var r := s.active[row.id];
    var kv := s.stored[row.id] + row.tokens;
    RowExtendsStored(kind, r, s.stored[row.id], row);
    if row.context < |r.history| {
      ConservedSameRequests(s, s.active[row.id := r.(phase := NeedsPrefill)], s.stored[row.id := kv], s.inFlight, s.nextBatch);
    } else {
      GrownByOne(r, kv, token);
      SettleConserved(s, row.id, Grow(r, [token]), kv);
    }
  }

  /** The inputs of a prefill or decode row are the next tokens of the history. */
  lemma RowExtendsStored(kind: Kind, r: ActiveRequest, kv: seq<int>, row: Row)
    requires kind != Verify && RequestOk(r, kv) && RowOk(kind, r, kv, row)
    ensures row.context <= |r.history| && kv + row.tokens == r.history[..row.context]
  {
  }

  lemma GrownByOne(r: ActiveRequest, kv: seq<int>, token: int)
    requires r.spec.prompt != [] && r.history == r.spec.prompt + r.generated
    requires NoneIn(r.generated, r.spec.eos) && |r.generated| < r.spec.maxNew && kv == r.history
    ensures Grown(Grow(r, [token]), kv)
  {
    var grown := Grow(r, [token]);
    assert grown.generated[..|grown.generated| - 1] == r.generated;
    assert grown.history[..|kv|] == r.history;
  }

  /** Changing phases and stored tokens moves no request. */
  lemma ConservedSameRequests(s: State, active: map<nat, ActiveRequest>, stored: map<nat, seq<int>>, inFlight: Option<Batch>, nextBatch: nat)
    requires Conserved(s) && active.Keys == s.active.Keys
    requires forall id :: id in active ==> active[id].spec == s.active[id].spec
    ensures Conserved(s.(active := active, stored := stored, inFlight := inFlight, nextBatch := nextBatch))
  {
  }

  lemma ContinuesPrefill(s: State, kind: Kind, batch: nat, rows: seq<Row>, i: nat, kv: seq<int>)
    requires Good(s, kind, batch, rows, i) && i < |rows| && DistinctRows(rows) && rows[i].id in s.active
    requires |kv| < |s.active[rows[i].id].history| && kv == s.active[rows[i].id].history[..|kv|]
    ensures Good(s.(active := s.active[rows[i].id := s.active[rows[i].id].(phase := NeedsPrefill)],
                    stored := s.stored[rows[i].id := kv]), kind, batch, rows, i + 1)
  {
    var id := rows[i].id;
    ReleaseRow(s, s.(active := s.active[id := s.active[id].(phase := NeedsPrefill)], stored := s.stored[id := kv]),
               kind, batch, rows, i);
  }

  lemma CompleteRowStreams(next: Model, s: State, kind: Kind, batch: nat, row: Row, token: int)
    requires Streams(next, s) && RowReady(s, kind, batch, row) && kind != Verify && HonestToken(next, s, row, token)
    ensures Streams(next, CompleteRow(s, row, token))
  {
    var r := s.active[row.id];
    RowExtendsStored(kind, r, s.stored[row.id], row);
    if row.context >= |r.history| {
      assert s.stored[row.id] + row.tokens == r.history;
      if r.spec.greedy {
        FollowsModelExtend(next, r.spec.prompt, r.generated, token);
      }
      SettleStreams(next, s, row.id, Grow(r, [token]), s.stored[row.id] + row.tokens);
    }
  }

  /**
   A verified row: the produced tokens extend the history, and the inputs that stay in the KV cache are
   exactly the new history without its last token.
   */
  lemma VerifiedRowGrows(r: ActiveRequest, kv: seq<int>, row: Row, predictions: seq<int>)
    requires RequestOk(r, kv) && RowOk(Verify, r, kv, row) && |predictions| == |row.tokens|
    ensures var produced := Produced(r, row, predictions);
      Grown(Grow(r, produced), kv + row.tokens[..|produced|])
  {
    AcceptedShape(predictions, row.tokens, r.spec.maxNew - |r.generated|, r.spec.eos, 0);
    var produced := Produced(r, row, predictions);
    assert row.tokens[1..|produced|] == produced[..|produced| - 1];
    assert r.history == kv + [row.tokens[0]];
    InputsAreHistory(r, kv, row.tokens, produced);
  }

  lemma InputsAreHistory(r: ActiveRequest, kv: seq<int>, tokens: seq<int>, produced: seq<int>)
    requires r.spec.prompt != [] && r.history == r.spec.prompt + r.generated && NoneIn(r.generated, r.spec.eos)
    requires 1 <= |produced| <= |tokens| && r.history == kv + [tokens[0]]
    requires tokens[1..|produced|] == produced[..|produced| - 1]
    requires NoneIn(produced[..|produced| - 1], r.spec.eos) && |r.generated| + |produced| <= r.spec.maxNew
    ensures Grown(Grow(r, produced), kv + tokens[..|produced|])
  {
    var drafted := produced[..|produced| - 1];
    var grown := Grow(r, produced);
    assert grown.generated[..|grown.generated| - 1] == r.generated + drafted;
    assert tokens[..|produced|] == [tokens[0]] + drafted;
    assert kv + tokens[..|produced|] == r.history + drafted;
    assert grown.history[..|grown.history| - 1] == r.history + drafted;
  }

  lemma CompleteVerifyRowGood(s: State, batch: nat, rows: seq<Row>, i: nat, predictions: seq<int>)
    requires Good(s, Verify, batch, rows, i) && i < |rows| && DistinctRows(rows) && |predictions| == |rows[i].tokens|
    ensures Good(CompleteVerifyRow(s, rows[i], predictions), Verify, batch, rows, i + 1)
  {
    var row := rows[i];
    var r := s.active[row.id];
    assert InFlightRow(s, Verify, batch, row);
    VerifiedRowGrows(r, s.stored[row.id], row, predictions);
    var produced := Produced(r, row, predictions);
    SettleGood(s, Verify, batch, rows, i, Grow(r, produced), s.stored[row.id] + row.tokens[..|produced|]);
  }

  lemma CompleteVerifyRowConserved(s: State, batch: nat, row: Row, predictions: seq<int>)
    requires Conserved(s) && RowReady(s, Verify, batch, row) && |predictions| == |row.tokens|
    ensures Conserved(CompleteVerifyRow(s, row, predictions))
  {
    var r := s.active[row.id];
    VerifiedRowGrows(r, s.stored[row.id], row, predictions);
    var produced := Produced(r, row, predictions);
    SettleConserved(s, row.id, Grow(r, produced), s.stored[row.id] + row.tokens[..|produced|]);
  }

  lemma VerifiedRowFollowsModel(next: Model, r: ActiveRequest, kv: seq<int>, row: Row, predictions: seq<int>)
    requires RequestOk(r, kv) && RowOk(Verify, r, kv, row) && |predictions| == |row.tokens|
    requires forall p :: 0 <= p < |predictions| ==> predictions[p] == next(kv + row.tokens[..p + 1])
    requires FollowsModel(next, r.spec.prompt, r.generated)
    ensures FollowsModel(next, r.spec.prompt, r.generated + Produced(r, row, predictions))
  {
    assert r.history == kv + [row.tokens[0]];
    forall p | 0 <= p < |predictions|
      ensures predictions[p] == next(r.history + row.tokens[1..p + 1])
    {
      assert r.history + row.tokens[1..p + 1] == kv + row.tokens[..p + 1];
    }
    AcceptedFollowsModel(next, r.history, predictions, row.tokens, r.spec.maxNew - |r.generated|, r.spec.eos);
    FollowsModelConcat(next, r.spec.prompt, r.generated, Produced(r, row, predictions));
  }

  lemma CompleteVerifyRowStreams(next: Model, s: State, batch: nat, row: Row, predictions: seq<int>)
    requires Streams(next, s) && RowReady(s, Verify, batch, row) && |predictions| == |row.tokens|
    requires HonestPredictions(next, s, row, predictions)
    ensures Streams(next, CompleteVerifyRow(s, row, predictions))
  {
    var r := s.active[row.id];
    var kv := s.stored[row.id];
    VerifiedRowFollowsModel(next, r, kv, row, predictions);
    var produced := Produced(r, row, predictions);
    SettleStreams(next, s, row.id, Grow(r, produced), kv + row.tokens[..|produced|]);
  }
}
