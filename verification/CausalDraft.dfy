/**
 Draft-and-verify decoding: a draft model runs ahead, the target checks a whole block, both caches are
 cut back, and accepted tokens are replayed from the captured deltas.

 A cache is modelled by the tokens whose state it holds; what capturing, truncating and appending do to
 such contents is what the dense cache's operations are proved to do.
 */
module CausalDraft {
  import opened Wrappers
  import opened Generation

  /** The span a delta covers: its first position and the tokens there. */
  datatype Delta = Delta(start: nat, tokens: seq<int>)

  datatype Verified<L> = Verified(
    candidates: seq<int>,
    logits: seq<L>,
    target: Delta,
    draft: Delta,
    cursor: nat,
    accepted: bool)

  datatype Row = Row(id: nat, start: nat, tokens: seq<int>, context: nat)

  /** The block's logits at position `j` are the target's after `j` candidates. */
  ghost predicate LogitsOk<L(!new)>(target: seq<int> -> L, base: seq<int>, candidates: seq<int>, logits: seq<L>) {
    && |logits| == |candidates| + 1
    && forall j: nat :: j < |logits| ==> logits[j] == target(base + candidates[..j])
  }

  /** A pending verification fits the cache: `cursor` candidates have been replayed on top of `base`. */
  ghost predicate VerifiedOk<L(!new)>(target: seq<int> -> L, cache: seq<int>, v: Verified<L>, base: seq<int>) {
    && v.cursor < |v.candidates| && cache == base + v.candidates[..v.cursor]
    && v.target == Delta(|base|, v.candidates) && v.draft == Delta(|base|, v.candidates)
    && LogitsOk(target, base, v.candidates, v.logits)
  }

  ghost predicate Pending<L(!new)>(target: seq<int> -> L, cache: seq<int>, v: Verified<L>) {
    v.cursor <= |cache| && VerifiedOk(target, cache, v, cache[..|cache| - v.cursor])
  }

  // ----- the caches -----

  /** One element of a delta goes back on top of a cache that has reached it. */
  function AppendDelta(cache: seq<int>, d: Delta, offset: nat): seq<int>
    requires offset < |d.tokens| && |cache| == d.start + offset
  {
    cache + [d.tokens[offset]]
  }

  function Capture(cache: seq<int>, start: nat, end: nat): Delta
    requires start < end <= |cache|
  {
    Delta(start, cache[start..end])
  }

  /** Replaying the next candidate keeps the pending verification in step with the cache. */
  lemma ReplayKeeps<L(!new)>(target: seq<int> -> L, cache: seq<int>, v: Verified<L>, token: int)
    requires Pending(target, cache, v) && token == v.candidates[v.cursor]
    ensures |cache| == v.target.start + v.cursor && AppendDelta(cache, v.target, v.cursor) == cache + [token]
    ensures AppendDelta(cache, v.draft, v.cursor) == cache + [token]
    ensures v.cursor + 1 < |v.logits| && v.logits[v.cursor + 1] == target(cache + [token])
    ensures v.cursor + 1 < |v.candidates| ==> Pending(target, cache + [token], v.(cursor := v.cursor + 1, accepted := false))
  {
    var base := cache[..|cache| - v.cursor];
    var longer := cache + [token];
    assert v.candidates[..v.cursor + 1] == v.candidates[..v.cursor] + [token];
    assert longer == base + v.candidates[..v.cursor + 1];
    assert longer[..|longer| - (v.cursor + 1)] == base;
  }

  // ----- one row ahead -----

  /** The draft's proposals: each is its greedy choice after the previous ones. */
  method Propose<L(!new)>(draft: seq<int> -> L, greedy: L -> int, cache: seq<int>, count: nat)
    returns (candidates: seq<int>, ahead: seq<int>)
    ensures |candidates| == count && ahead == cache + candidates
    ensures FollowsModel(context => greedy(draft(context)), cache, candidates)
  {
    candidates, ahead := [], cache;
    var logits := draft(ahead);
    ghost var next := context => greedy(draft(context));
    for step := 0 to count
      invariant |candidates| == step && ahead == cache + candidates && logits == draft(ahead)
      invariant FollowsModel(next, cache, candidates)
    {
      var token := greedy(logits);
      FollowsModelExtend(next, cache, candidates, token);
      candidates := candidates + [token];
      ahead := ahead + [token];
      logits := draft(ahead);
    }
  }

  /** The target's block forward: one row of logits for the anchor and each candidate. */
  function Block<L(!new)>(target: seq<int> -> L, base: seq<int>, candidates: seq<int>): (logits: seq<L>)
    ensures LogitsOk(target, base, candidates, logits)
  {
    seq(|candidates| + 1, (j: nat) requires j <= |candidates| => target(base + candidates[..j]))
  }

  lemma NewlyPending<L(!new)>(target: seq<int> -> L, base: seq<int>, candidates: seq<int>, v: Verified<L>)
    requires candidates != []
    requires v == Verified(candidates, Block(target, base, candidates), Delta(|base|, candidates), Delta(|base|, candidates), 0, false)
    ensures Pending(target, base, v)
  {
    assert base[..|base| - 0] == base && base + candidates[..0] == base;
  }

  predicate DistinctIds(rows: seq<Row>) {
    forall i, j :: 0 <= i < j < |rows| ==> rows[i].id != rows[j].id
  }

  predicate SingleTokens(rows: seq<Row>) {
    forall i :: 0 <= i < |rows| ==> |rows[i].tokens| == 1
  }

  ghost function TokensOf(cache: map<nat, seq<int>>, id: nat): seq<int> {
    if id in cache then cache[id] else []
  }

  // ----- the decoder -----

  class CausalDraftBatch<L(!new)> {
    const target: seq<int> -> L
    const draft: seq<int> -> L
    const greedy: L -> int
    const draftTokens: nat
    const maxLength: nat
    var targetCache: map<nat, seq<int>>
    var draftCache: map<nat, seq<int>>
    var verified: map<nat, Verified<L>>

    /** Both caches hold the same tokens of every request, and pending verifications fit them. */
    ghost predicate Valid()
      reads this
    {
      && targetCache == draftCache
      && forall id :: id in verified ==> id in targetCache && Pending(target, targetCache[id], verified[id])
    }

    constructor (target: seq<int> -> L, draft: seq<int> -> L, greedy: L -> int, draftTokens: nat, maxLength: nat)
      ensures Valid() && targetCache == map[] && this.target == target && this.greedy == greedy
    {
      this.target, this.draft, this.greedy := target, draft, greedy;
      this.draftTokens, this.maxLength := draftTokens, maxLength;
      targetCache, draftCache, verified := map[], map[], map[];
    }

    ghost function Cached(id: nat): seq<int>
      reads this
    {
      TokensOf(targetCache, id)
    }

    /** Every other request keeps its caches and its pending verification. */
    twostate predicate OnlyTouched(id: nat)
      reads this
    {
      && (forall o :: o != id ==> (o in targetCache <==> o in old(targetCache)))
      && (forall o :: o != id && o in targetCache ==> targetCache[o] == old(targetCache)[o])
      && (forall o :: o != id ==> (o in verified <==> o in old(verified)))
      && (forall o :: o != id && o in verified ==> verified[o] == old(verified)[o])
    }

    /** `ordinary` on one row: both models read the row's tokens. */
    method Ordinary(row: Row) returns (logits: L)
      requires Valid() && row.id !in verified
      modifies this`targetCache, this`draftCache
      ensures Valid() && OnlyTouched(row.id)
      ensures row.id in targetCache && targetCache[row.id] == old(Cached(row.id)) + row.tokens && logits == target(targetCache[row.id])
    {
      var t := (if row.id in targetCache then targetCache[row.id] else []) + row.tokens;
      var d := (if row.id in draftCache then draftCache[row.id] else []) + row.tokens;
      targetCache := targetCache[row.id := t];
      draftCache := draftCache[row.id := d];
      logits := target(t);
    }

    /** A row whose token is the accepted candidate: its state comes back from the deltas. */
    method Replay(row: Row) returns (logits: L)
      requires Valid() && row.id in verified && |row.tokens| == 1
      requires verified[row.id].candidates[verified[row.id].cursor] == row.tokens[0]
      modifies this
      ensures Valid() && OnlyTouched(row.id)
      ensures row.id in verified <==> old(verified[row.id]).cursor + 1 < |old(verified[row.id]).candidates|
      ensures row.id in verified ==>
        verified[row.id] == old(verified[row.id]).(cursor := old(verified[row.id]).cursor + 1, accepted := false)
      ensures row.id in targetCache && targetCache[row.id] == old(Cached(row.id)) + row.tokens && logits == target(targetCache[row.id])
    {
      var v := verified[row.id];
      ReplayKeeps(target, targetCache[row.id], v, row.tokens[0]);
      targetCache := targetCache[row.id := AppendDelta(targetCache[row.id], v.target, v.cursor)];
      draftCache := draftCache[row.id := AppendDelta(draftCache[row.id], v.draft, v.cursor)];
      v := v.(cursor := v.cursor + 1, accepted := false);
      logits := v.logits[v.cursor];
      verified := if v.cursor < |v.candidates| then verified[row.id := v] else verified - {row.id};
    }

    /** A row that runs `count` tokens ahead. */
    method RunAhead(row: Row, count: nat) returns (logits: L)
      requires Valid() && row.id !in verified && |row.tokens| == 1 && count > 0
      modifies this
      ensures Valid() && OnlyTouched(row.id)
      ensures row.id in verified && |verified[row.id].candidates| == count && verified[row.id].cursor == 0 && !verified[row.id].accepted
      ensures FollowsModel(context => greedy(draft(context)), targetCache[row.id], verified[row.id].candidates)
      ensures row.id in targetCache && targetCache[row.id] == old(Cached(row.id)) + row.tokens && logits == target(targetCache[row.id])
    {
      var base := (if row.id in targetCache then targetCache[row.id] else []) + row.tokens;
      var candidates, ahead := Propose(draft, greedy, (if row.id in draftCache then draftCache[row.id] else []) + row.tokens, count);
      var block := Block(target, base, candidates);
      var start, end := |base|, |base| + count;
      var v := Verified(candidates, block, Capture(base + candidates, start, end), Capture(ahead, start, end), 0, false);
      assert (base + candidates)[start..end] == candidates && ahead[..start] == base;
      NewlyPending(target, base, candidates, v);
      targetCache := targetCache[row.id := (base + candidates)[..start]];
      draftCache := draftCache[row.id := ahead[..start]];
      logits := block[0];
      assert base + candidates[..0] == base;
      verified := verified[row.id := v];
    }

    /** How far a row may run ahead: as far as its reservation, the draft length and the sequence limit allow. */
    function Count(lookahead: map<nat, nat>, row: Row): (r: nat)
      ensures r <= draftTokens && (r > 0 ==> row.id in lookahead && r < lookahead[row.id] && row.context + r <= maxLength)
      ensures r < draftTokens ==> row.id !in lookahead || r + 1 >= lookahead[row.id] || row.context + r >= maxLength
    {
      var room := if row.id in lookahead && lookahead[row.id] > 0 then lookahead[row.id] - 1 else 0;
      var left := if row.context < maxLength then maxLength - row.context else 0;
      var most := if room < draftTokens then room else draftTokens;
      if most < left then most else left
    }

    /** A prefill row: whatever was pending is dropped. */
    method PrefillRow(row: Row) returns (logits: L)
      requires Valid()
      modifies this
      ensures Valid() && OnlyTouched(row.id)
      ensures row.id in targetCache && targetCache[row.id] == old(Cached(row.id)) + row.tokens && logits == target(targetCache[row.id])
    {
      verified := verified - {row.id};
      logits := Ordinary(row);
    }

    /**
     `select_batch_token` for a greedy request: the target's choice, whatever the draft proposed. The
     cursor always points at a candidate.
     */
    method SelectToken(id: nat, values: L) returns (token: int)
      requires Valid()
      modifies this`verified
      ensures Valid() && OnlyTouched(id) && token == greedy(values)
      ensures id in verified <==> id in old(verified) && old(verified)[id].candidates[old(verified)[id].cursor] == token
      ensures id in verified ==> verified[id] == old(verified)[id].(accepted := true)
    {
      token := greedy(values);
      if id in verified {
        var v := verified[id];
        var candidate := v.candidates[v.cursor];
        verified := if token == candidate then verified[id := v.(accepted := true)] else verified - {id};
      }
    }

    // ----- batches -----

    /** Row `i` has been read: both caches sit at its context, and its logits are the target's there. */
    ghost predicate RowDone(before: map<nat, seq<int>>, row: Row, out: Option<L>)
      reads this
    {
      && row.id in targetCache && targetCache[row.id] == TokensOf(before, row.id) + row.tokens
      && out == Some(target(targetCache[row.id]))
    }

    /** The row's token is the candidate that was accepted for it. */
    predicate Hit(was: map<nat, Verified<L>>, row: Row)
      requires |row.tokens| == 1
    {
      && row.id in was && was[row.id].accepted && was[row.id].cursor < |was[row.id].candidates|
      && was[row.id].candidates[was[row.id].cursor] == row.tokens[0]
    }

    /** The same proposals are pending, one further on, until they are used up. */
    ghost predicate Moved(v: Verified<L>, id: nat)
      reads this
    {
      && (id in verified <==> v.cursor + 1 < |v.candidates|)
      && (id in verified ==> verified[id] == v.(cursor := v.cursor + 1, accepted := false))
    }

    /** As many new proposals of the draft model are pending as asked for. */
    ghost predicate Ahead(id: nat, count: nat)
      reads this
    {
      if count == 0 then id !in verified
      else
        && id in verified && id in targetCache && |verified[id].candidates| == count && verified[id].cursor == 0 && !verified[id].accepted
        && FollowsModel(context => greedy(draft(context)), targetCache[id], verified[id].candidates)
    }

    /** What a decode batch leaves pending for a row: the rest of an accepted draft, or a new one. */
    ghost predicate RowNext(was: map<nat, Verified<L>>, lookahead: map<nat, nat>, row: Row)
      requires |row.tokens| == 1
      reads this
    {
      if Hit(was, row) then Moved(was[row.id], row.id) else Ahead(row.id, Count(lookahead, row))
    }

    /** A row of a decode batch, read or still waiting. */
    ghost predicate RowState(before: map<nat, seq<int>>, was: map<nat, Verified<L>>, lookahead: map<nat, nat>, row: Row, out: Option<L>)
      requires |row.tokens| == 1
      reads this
    {
      if out.Some? then RowDone(before, row, out) && RowNext(was, lookahead, row)
      else RowWaits(before, row, out) && !Hit(was, row)
    }

    ghost predicate RowWaits(before: map<nat, seq<int>>, row: Row, out: Option<L>)
      reads this
    {
      out.None? && Cached(row.id) == TokensOf(before, row.id) && row.id !in verified
    }

    /** Requests outside the batch keep everything. */
    twostate predicate OnlyRows(rows: seq<Row>)
      reads this
    {
      forall o :: (forall i :: 0 <= i < |rows| ==> rows[i].id != o) ==> Cached(o) == old(Cached(o))
    }

    /** A row whose turn has not come. */
    ghost predicate Untouched(before: map<nat, seq<int>>, was: map<nat, Verified<L>>, id: nat)
      reads this
    {
      && Cached(id) == TokensOf(before, id) && (id in verified <==> id in was)
      && (id in was ==> verified[id] == was[id])
    }

    /** The first pass: accepted candidates are replayed, the other rows have nothing pending any more. */
    method ReplayRows(rows: seq<Row>, ghost lookahead: map<nat, nat>) returns (outputs: seq<Option<L>>)
      requires Valid() && DistinctIds(rows) && SingleTokens(rows)
      modifies this
      ensures Valid() && OnlyRows(rows) && |outputs| == |rows|
      ensures forall i :: 0 <= i < |rows| ==> RowState(old(targetCache), old(verified), lookahead, rows[i], outputs[i])
    {
      ghost var before, was := targetCache, verified;
      outputs := [];
      for i := 0 to |rows|
        invariant Valid() && OnlyRows(rows) && |outputs| == i
        invariant forall j :: 0 <= j < i ==> RowState(before, was, lookahead, rows[j], outputs[j])
        invariant forall j :: i <= j < |rows| ==> Untouched(before, was, rows[j].id)
      {
        outputs := ReplayNext(rows, i, outputs, before, was, lookahead);
      }
    }

    method ReplayNext(rows: seq<Row>, i: nat, outputs: seq<Option<L>>,
      ghost before: map<nat, seq<int>>, ghost was: map<nat, Verified<L>>, ghost lookahead: map<nat, nat>)
      returns (longer: seq<Option<L>>)
      requires Valid() && DistinctIds(rows) && SingleTokens(rows) && |outputs| == i < |rows|
      requires forall j :: 0 <= j < i ==> RowState(before, was, lookahead, rows[j], outputs[j])
      requires forall j :: i <= j < |rows| ==> Untouched(before, was, rows[j].id)
      modifies this
      ensures Valid() && OnlyTouched(rows[i].id) && |longer| == i + 1
      ensures forall j :: 0 <= j <= i ==> RowState(before, was, lookahead, rows[j], longer[j])
      ensures forall j :: i < j < |rows| ==> Untouched(before, was, rows[j].id)
    {
      assert Untouched(before, was, rows[i].id);
      assert Hit(verified, rows[i]) == Hit(was, rows[i]);
      var out := ReplayOrDrop(rows[i], lookahead);
      longer := outputs + [out];
      forall j | 0 <= j < i
        ensures RowState(before, was, lookahead, rows[j], longer[j])
      {
        assert rows[j].id != rows[i].id && old(RowState(before, was, lookahead, rows[j], outputs[j]));
      }
      forall j | i < j < |rows|
        ensures Untouched(before, was, rows[j].id)
      {
        assert rows[j].id != rows[i].id && old(Untouched(before, was, rows[j].id));
      }
    }

    method ReplayOrDrop(row: Row, ghost lookahead: map<nat, nat>) returns (out: Option<L>)
      requires Valid() && |row.tokens| == 1
      modifies this
      ensures Valid() && OnlyTouched(row.id) && RowState(old(targetCache), old(verified), lookahead, row, out)
    {
      if row.id in verified && verified[row.id].accepted && verified[row.id].candidates[verified[row.id].cursor] == row.tokens[0] {
        var logits := Replay(row);
        out := Some(logits);
      } else {
        verified := verified - {row.id};
        out := None;
      }
    }

    method RunRow(row: Row, count: nat) returns (logits: L)
      requires Valid() && row.id !in verified && |row.tokens| == 1
      modifies this
      ensures Valid() && OnlyTouched(row.id) && RowDone(old(targetCache), row, Some(logits)) && Ahead(row.id, count)
    {
      if count == 0 {
        logits := Ordinary(row);
      } else {
        logits := RunAhead(row, count);
      }
    }

    /** One waiting row runs, and no other row is touched. */
    method RunWaiting(rows: seq<Row>, lookahead: map<nat, nat>, count: nat, waiting: seq<Option<L>>, i: nat,
      ghost before: map<nat, seq<int>>, ghost was: map<nat, Verified<L>>)
      returns (outputs: seq<Option<L>>)
      requires Valid() && DistinctIds(rows) && SingleTokens(rows) && |waiting| == |rows|
      requires i < |rows| && waiting[i].None? && Count(lookahead, rows[i]) == count
      requires forall j :: 0 <= j < |rows| ==> RowState(before, was, lookahead, rows[j], waiting[j])
      modifies this
      ensures Valid() && OnlyTouched(rows[i].id) && |outputs| == |rows| && outputs[i].Some? && outputs == waiting[i := outputs[i]]
      ensures forall j :: 0 <= j < |rows| ==> RowState(before, was, lookahead, rows[j], outputs[j])
    {
      var logits := RunRow(rows[i], count);
      outputs := waiting[i := Some(logits)];
      forall j | 0 <= j < |rows| && j != i
        ensures RowState(before, was, lookahead, rows[j], outputs[j])
      {
        assert rows[j].id != rows[i].id && old(RowState(before, was, lookahead, rows[j], waiting[j]));
      }
    }

    /** A group: the waiting rows that run `count` tokens ahead. */
    method RunGroup(rows: seq<Row>, lookahead: map<nat, nat>, count: nat, waiting: seq<Option<L>>,
      ghost before: map<nat, seq<int>>, ghost was: map<nat, Verified<L>>)
      returns (outputs: seq<Option<L>>)
      requires Valid() && DistinctIds(rows) && SingleTokens(rows) && |waiting| == |rows|
      requires forall i :: 0 <= i < |rows| ==> RowState(before, was, lookahead, rows[i], waiting[i])
      modifies this
      ensures Valid() && OnlyRows(rows) && |outputs| == |rows|
      ensures forall i :: 0 <= i < |rows| ==> (outputs[i].Some? <==> waiting[i].Some? || Count(lookahead, rows[i]) == count)
      ensures forall i :: 0 <= i < |rows| ==> RowState(before, was, lookahead, rows[i], outputs[i])
    {
      outputs := waiting;
      for i := 0 to |rows|
        invariant Valid() && OnlyRows(rows) && |outputs| == |rows|
        invariant forall j :: 0 <= j < |rows| ==>
          (outputs[j].Some? <==> waiting[j].Some? || (j < i && Count(lookahead, rows[j]) == count))
        invariant forall j :: 0 <= j < |rows| ==> RowState(before, was, lookahead, rows[j], outputs[j])
      {
        if outputs[i].None? && Count(lookahead, rows[i]) == count {
          outputs := RunWaiting(rows, lookahead, count, outputs, i, before, was);
        }
      }
    }

    /** `forward_batch_sampling` on a decode batch of greedy requests. */
    method DecodeBatch(rows: seq<Row>, lookahead: map<nat, nat>) returns (r: Result<seq<L>>)
      requires Valid() && DistinctIds(rows)
      modifies this
      ensures Valid() && (r.Success? <==> SingleTokens(rows))
      ensures r.Failure? ==> targetCache == old(targetCache) && verified == old(verified)
      ensures r.Success? ==> OnlyRows(rows) && |r.value| == |rows|
      ensures r.Success? ==> forall i :: 0 <= i < |rows| ==> RowDone(old(targetCache), rows[i], Some(r.value[i]))
      ensures r.Success? ==> forall i :: 0 <= i < |rows| ==> RowNext(old(verified), lookahead, rows[i])
    {
      if !SingleTokens(rows) {
        return Failure;
      }
      ghost var before, was := targetCache, verified;
      var outputs := ReplayRows(rows, lookahead);
      for count := 0 to draftTokens + 1
        invariant Valid() && OnlyRows(rows) && |outputs| == |rows|
        invariant forall i :: 0 <= i < |rows| && Count(lookahead, rows[i]) < count ==> outputs[i].Some?
        invariant forall i :: 0 <= i < |rows| ==> RowState(before, was, lookahead, rows[i], outputs[i])
      {
        outputs := RunGroup(rows, lookahead, count, outputs, before, was);
      }
      assert forall i :: 0 <= i < |rows| ==> Count(lookahead, rows[i]) <= draftTokens;
      r := Success(seq(|outputs|, (i: nat) requires i < |outputs| && outputs[i].Some? => outputs[i].value));
    }

    /** ... and on a prefill batch. */
    method PrefillBatch(rows: seq<Row>) returns (logits: seq<L>)
      requires Valid() && DistinctIds(rows)
      modifies this
      ensures Valid() && OnlyRows(rows) && |logits| == |rows|
      ensures forall i :: 0 <= i < |rows| ==> RowDone(old(targetCache), rows[i], Some(logits[i]))
    {
      ghost var before := targetCache;
      logits := [];
      for i := 0 to |rows|
        invariant Valid() && OnlyRows(rows) && |logits| == i
        invariant forall j :: 0 <= j < i ==> RowDone(before, rows[j], Some(logits[j]))
        invariant forall j :: i <= j < |rows| ==> Cached(rows[j].id) == TokensOf(before, rows[j].id)
      {
        var one := PrefillRow(rows[i]);
        logits := logits + [one];
      }
    }

    /** `restore_prefix`: both caches take the prefix; nothing is pending. */
    method RestorePrefix(id: nat, prefix: seq<int>)
      requires Valid() && id !in targetCache
      modifies this
      ensures Valid() && OnlyTouched(id) && id !in verified && id in targetCache && targetCache[id] == prefix
    {
      targetCache, draftCache := targetCache[id := prefix], draftCache[id := prefix];
      verified := verified - {id};
    }

    /** `retain_batch_cache`. */
    method Retain(keep: set<nat>)
      requires Valid()
      modifies this
      ensures Valid() && targetCache == map id | id in old(targetCache) && id in keep :: old(targetCache)[id]
      ensures verified == map id | id in old(verified) && id in keep :: old(verified)[id]
    {
      targetCache := map id | id in targetCache && id in keep :: targetCache[id];
      draftCache := map id | id in draftCache && id in keep :: draftCache[id];
      verified := map id | id in verified && id in keep :: verified[id];
    }
  }

  // ----- whole runs -----

  datatype Round = Round(ids: seq<nat>, lookahead: map<nat, nat>)

  /** What the target alone would emit. */
  ghost function Choice<L(!new)>(target: seq<int> -> L, greedy: L -> int): Model {
    (context: seq<int>) => greedy(target(context))
  }

  predicate DistinctBelow(ids: seq<nat>, n: nat) {
    && (forall i :: 0 <= i < |ids| ==> ids[i] < n)
    && forall i, j :: 0 <= i < j < |ids| ==> ids[i] != ids[j]
  }

  /** Request `id`: its cache holds everything but the newest token, and its stream follows the target. */
  ghost predicate StreamOk<L(!new)>(target: seq<int> -> L, greedy: L -> int, prompt: seq<int>, out: seq<int>, cached: seq<int>) {
    && out != [] && cached == prompt + out[..|out| - 1]
    && FollowsModel(Choice(target, greedy), prompt, out)
  }

  lemma StreamGrows<L(!new)>(target: seq<int> -> L, greedy: L -> int, prompt: seq<int>, out: seq<int>, cached: seq<int>, token: int)
    requires StreamOk(target, greedy, prompt, out, cached)
    requires token == greedy(target(cached + [out[|out| - 1]]))
    ensures StreamOk(target, greedy, prompt, out + [token], cached + [out[|out| - 1]])
  {
    assert out == out[..|out| - 1] + [out[|out| - 1]];
    assert cached + [out[|out| - 1]] == prompt + out;
    assert (out + [token])[..|out|] == out;
    FollowsModelExtend(Choice(target, greedy), prompt, out, token);
  }

  lemma StreamStarts<L(!new)>(target: seq<int> -> L, greedy: L -> int, prompt: seq<int>)
    ensures StreamOk(target, greedy, prompt, [greedy(target(prompt))], prompt)
  {
    var out := [greedy(target(prompt))];
    assert prompt + out[..0] == prompt;
  }

  /** The tokens of a batch's rows are selected one by one. */
  method SelectAll<L(!new)>(decoder: CausalDraftBatch<L>, ids: seq<nat>, logits: seq<L>) returns (tokens: seq<int>)
    requires decoder.Valid() && |logits| == |ids|
    modifies decoder`verified
    ensures decoder.Valid() && |tokens| == |ids|
    ensures forall i :: 0 <= i < |ids| ==> tokens[i] == decoder.greedy(logits[i])
  {
    tokens := [];
    for i := 0 to |ids|
      invariant decoder.Valid() && |tokens| == i && decoder.targetCache == old(decoder.targetCache)
      invariant forall j :: 0 <= j < i ==> tokens[j] == decoder.greedy(logits[j])
    {
      var token := decoder.SelectToken(ids[i], logits[i]);
      tokens := tokens + [token];
    }
  }

  /**
   Any number of requests, any rounds of decoding in any order with any lookahead, any draft model: every
   request's stream is the target's own greedy stream.
   */
  method Decode<L(!new)>(decoder: CausalDraftBatch<L>, prompts: seq<seq<int>>, rounds: seq<Round>) returns (outs: seq<seq<int>>)
    requires decoder.Valid() && decoder.targetCache == map[]
    requires forall k :: 0 <= k < |rounds| ==> DistinctBelow(rounds[k].ids, |prompts|)
    modifies decoder
    ensures decoder.Valid() && |outs| == |prompts|
    ensures forall id: nat :: id < |prompts| ==>
      StreamOk(decoder.target, decoder.greedy, prompts[id], outs[id], decoder.Cached(id))
  {
    outs := Start(decoder, prompts);
    for k := 0 to |rounds|
      invariant decoder.Valid() && |outs| == |prompts|
      invariant forall id: nat :: id < |prompts| ==>
        StreamOk(decoder.target, decoder.greedy, prompts[id], outs[id], decoder.Cached(id))
    {
      outs := DecodeRound(decoder, prompts, outs, rounds[k]);
    }
  }

  method Start<L(!new)>(decoder: CausalDraftBatch<L>, prompts: seq<seq<int>>) returns (outs: seq<seq<int>>)
    requires decoder.Valid() && decoder.targetCache == map[]
    modifies decoder
    ensures decoder.Valid() && |outs| == |prompts|
    ensures forall id: nat :: id < |prompts| ==>
      StreamOk(decoder.target, decoder.greedy, prompts[id], outs[id], decoder.Cached(id))
  {
    var rows := seq(|prompts|, (i: nat) requires i < |prompts| => Row(i, 0, prompts[i], |prompts[i]|));
    var logits := decoder.PrefillBatch(rows);
    var tokens := SelectAll(decoder, seq(|prompts|, (i: nat) => i), logits);
    outs := seq(|prompts|, (i: nat) requires i < |tokens| => [tokens[i]]);
    forall id: nat | id < |prompts|
      ensures StreamOk(decoder.target, decoder.greedy, prompts[id], outs[id], decoder.Cached(id))
    {
      assert rows[id].id == id && [] + prompts[id] == prompts[id];
      StreamStarts(decoder.target, decoder.greedy, prompts[id]);
    }
  }

  method DecodeRound<L(!new)>(decoder: CausalDraftBatch<L>, prompts: seq<seq<int>>, outs: seq<seq<int>>, round: Round) returns (next: seq<seq<int>>)
    requires decoder.Valid() && |outs| == |prompts| && DistinctBelow(round.ids, |prompts|)
    requires forall id: nat :: id < |prompts| ==>
      StreamOk(decoder.target, decoder.greedy, prompts[id], outs[id], decoder.Cached(id))
    modifies decoder
    ensures decoder.Valid() && |next| == |prompts|
    ensures forall id: nat :: id < |prompts| ==>
      StreamOk(decoder.target, decoder.greedy, prompts[id], next[id], decoder.Cached(id))
    ensures forall id: nat :: id < |prompts| ==> |next[id]| == |outs[id]| + if id in round.ids then 1 else 0
  {
    var tokens := ForwardRound(decoder, prompts, outs, round);
    next := AppendTokens(outs, round.ids, tokens);
    forall id: nat | id < |prompts|
      ensures StreamOk(decoder.target, decoder.greedy, prompts[id], next[id], decoder.Cached(id))
    {
      if id in round.ids {
        var i :| 0 <= i < |round.ids| && round.ids[i] == id;
        StreamGrows(decoder.target, decoder.greedy, prompts[id], outs[id], old(decoder.Cached(id)), tokens[i]);
      }
    }
  }

  /** The newest token of each request goes in, the target's next one comes out. */
  method ForwardRound<L(!new)>(decoder: CausalDraftBatch<L>, prompts: seq<seq<int>>, outs: seq<seq<int>>, round: Round) returns (tokens: seq<int>)
    requires decoder.Valid() && |outs| == |prompts| && DistinctBelow(round.ids, |prompts|)
    requires forall id: nat :: id < |outs| ==> outs[id] != []
    modifies decoder
    ensures decoder.Valid() && |tokens| == |round.ids|
    ensures forall i :: 0 <= i < |round.ids| ==>
      decoder.Cached(round.ids[i]) == old(decoder.Cached(round.ids[i])) + RowOf(round.ids[i], prompts, outs).tokens
    ensures forall i :: 0 <= i < |round.ids| ==> tokens[i] == decoder.greedy(decoder.target(decoder.Cached(round.ids[i])))
    ensures forall id: nat :: id !in round.ids ==> decoder.Cached(id) == old(decoder.Cached(id))
  {
    var n := |round.ids|;
    var rows := seq(n, (i: nat) requires i < n && round.ids[i] < |outs| && outs[round.ids[i]] != [] =>
      RowOf(round.ids[i], prompts, outs));
    var result := decoder.DecodeBatch(rows, round.lookahead);
    assert result.Success?;
    assert forall id: nat :: id !in round.ids ==> forall i :: 0 <= i < n ==> rows[i].id != id;
    forall i | 0 <= i < n
      ensures decoder.Cached(round.ids[i]) == old(decoder.Cached(round.ids[i])) + rows[i].tokens
      ensures result.value[i] == decoder.target(decoder.Cached(round.ids[i]))
    {
      assert decoder.RowDone(old(decoder.targetCache), rows[i], Some(result.value[i]));
    }
    tokens := SelectAll(decoder, round.ids, result.value);
  }

  method AppendTokens(outs: seq<seq<int>>, ids: seq<nat>, tokens: seq<int>) returns (next: seq<seq<int>>)
    requires |tokens| == |ids| && DistinctBelow(ids, |outs|)
    ensures |next| == |outs|
    ensures forall id: nat :: id < |outs| && id !in ids ==> next[id] == outs[id]
    ensures forall j :: 0 <= j < |ids| ==> next[ids[j]] == outs[ids[j]] + [tokens[j]]
  {
    next := outs;
    for i := 0 to |ids|
      invariant |next| == |outs|
      invariant forall id: nat :: id < |outs| && id !in ids[..i] ==> next[id] == outs[id]
      invariant forall j :: 0 <= j < i ==> next[ids[j]] == outs[ids[j]] + [tokens[j]]
    {
      next := next[ids[i] := next[ids[i]] + [tokens[i]]];
      assert ids[..i + 1] == ids[..i] + [ids[i]];
    }
    assert ids[..|ids|] == ids;
  }

  /** The decode row of a request: its newest token is the anchor. */
  function RowOf(id: nat, prompts: seq<seq<int>>, outs: seq<seq<int>>): Row
    requires id < |prompts| == |outs| && outs[id] != []
  {
    var length := |prompts[id]| + |outs[id]|;
    Row(id, length - 1, [outs[id][|outs[id]| - 1]], length)
  }
}
