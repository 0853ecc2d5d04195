/** What the pages of the device hold: the keys and values of the requests' tokens, found through block tables. */
module PagedMemory {
  import opened Wrappers
  import opened Arithmetic
  import opened Protocol
  import opened PagedKv
  import opened SchedulerTies

  /** The token whose key and value stand at an offset of a page. */
  type Pool = map<(nat, nat), int>

  predicate Reaches(table: seq<nat>, size: nat, position: nat) {
    size > 0 && position / size < |table|
  }

  /** The slot of a position: the table's page for its block, at its offset in the block. */
  function Slot(table: seq<nat>, size: nat, position: nat): (nat, nat)
    requires Reaches(table, size, position)
  {
    (table[position / size], position % size)
  }

  /** What attention reads through a table; a slot never written reads as zero. */
  function Gather(pool: Pool, table: seq<nat>, size: nat, count: nat): seq<int> {
    seq(count, (i: nat) => if Reaches(table, size, i) && Slot(table, size, i) in pool then pool[Slot(table, size, i)] else 0)
  }

  ghost predicate SlotHolds(pool: Pool, table: seq<nat>, size: nat, position: nat, token: int) {
    Reaches(table, size, position) && Slot(table, size, position) in pool && pool[Slot(table, size, position)] == token
  }

  ghost predicate HeldIn(pool: Pool, table: seq<nat>, size: nat, tokens: seq<int>) {
    forall i: nat :: i < |tokens| ==> SlotHolds(pool, table, size, i, tokens[i])
  }

  /** Every sequence's table leads to the tokens it should hold. */
  ghost predicate Mirrors(pool: Pool, k: Cache, held: map<nat, seq<int>>) {
    forall id :: id in held ==> MirrorsOne(pool, k, id, held[id])
  }

  ghost predicate MirrorsOne(pool: Pool, k: Cache, id: nat, tokens: seq<int>) {
    id in k.sequences && HeldIn(pool, k.sequences[id].pages, k.config.blockSize, tokens)
  }

  lemma GatherHeld(pool: Pool, table: seq<nat>, size: nat, tokens: seq<int>)
    requires HeldIn(pool, table, size, tokens)
    ensures Gather(pool, table, size, |tokens|) == tokens
  {
    var read := Gather(pool, table, size, |tokens|);
    forall i: nat | i < |tokens|
      ensures read[i] == tokens[i]
    {
      assert SlotHolds(pool, table, size, i, tokens[i]);
    }
  }

  /** No two positions of any two sequences share a slot. */
  lemma SlotsApart(k: Cache, id: nat, i: nat, id': nat, j: nat)
    requires CacheOk(k) && id in k.sequences && id' in k.sequences
    requires Reaches(k.sequences[id].pages, k.config.blockSize, i) && Reaches(k.sequences[id'].pages, k.config.blockSize, j)
    requires Slot(k.sequences[id].pages, k.config.blockSize, i) == Slot(k.sequences[id'].pages, k.config.blockSize, j)
    ensures id == id' && i == j
  {
    var size := k.config.blockSize;
    assert k.slot[k.sequences[id].pages[i / size]] == (id, i / size);
    assert k.slot[k.sequences[id'].pages[j / size]] == (id', j / size);
    DivMod(i, size);
    DivMod(j, size);
  }

  /** Writing the next token of one sequence disturbs no other token of any sequence. */
  lemma WriteNext(pool: Pool, k: Cache, held: map<nat, seq<int>>, id: nat, token: int)
    requires CacheOk(k) && Mirrors(pool, k, held) && id in held && id in k.sequences
    requires Reaches(k.sequences[id].pages, k.config.blockSize, |held[id]|)
    ensures Mirrors(pool[Slot(k.sequences[id].pages, k.config.blockSize, |held[id]|) := token], k, held[id := held[id] + [token]])
  {
    var size, at := k.config.blockSize, |held[id]|;
    var pool', held' := pool[Slot(k.sequences[id].pages, size, at) := token], held[id := held[id] + [token]];
    forall x | x in held'
      ensures MirrorsOne(pool', k, x, held'[x])
    {
      assert MirrorsOne(pool, k, x, held[x]);
      forall i: nat | i < |held'[x]|
        ensures SlotHolds(pool', k.sequences[x].pages, size, i, held'[x][i])
      {
        if x != id || i != at {
          assert SlotHolds(pool, k.sequences[x].pages, size, i, held[x][i]);
          StillHolds(pool, k, id, at, token, x, i);
        }
      }
    }
  }

  lemma StillHolds(pool: Pool, k: Cache, id: nat, at: nat, token: int, x: nat, i: nat)
    requires CacheOk(k) && id in k.sequences && x in k.sequences && (x != id || i != at)
    requires Reaches(k.sequences[id].pages, k.config.blockSize, at) && Reaches(k.sequences[x].pages, k.config.blockSize, i)
    ensures Slot(k.sequences[x].pages, k.config.blockSize, i) != Slot(k.sequences[id].pages, k.config.blockSize, at)
  {
    if Slot(k.sequences[x].pages, k.config.blockSize, i) == Slot(k.sequences[id].pages, k.config.blockSize, at) {
      SlotsApart(k, x, i, id, at);
    }
  }

  lemma BlockInside(position: nat, n: nat, size: nat, pages: nat)
    requires size > 0 && position < n && pages >= CeilDiv(n, size)
    ensures position / size < pages
  {
    CeilDivBounds(n, size);
    DivMod(position, size);
    var q, c := position / size, CeilDiv(n, size);
    MulAtLeast(q - c, size);
    assert (q - c) * size == q * size - c * size;
  }

  /** A row that continues what its sequence holds, with room reserved for it. */
  ghost predicate Continues(k: Cache, held: map<nat, seq<int>>, row: Row) {
    && row.id in held && row.id in k.sequences && row.table == k.sequences[row.id].pages
    && row.start == |held[row.id]| && row.context == row.start + |row.tokens|
    && forall i: nat :: i < row.context ==> Reaches(row.table, k.config.blockSize, i)
  }

  /** What is held once the first `n` rows are written. */
  function Extended(held: map<nat, seq<int>>, rows: seq<Row>, n: nat): map<nat, seq<int>>
    requires n <= |rows|
  {
    if n == 0 then held
    else
      var before := Extended(held, rows, n - 1);
      var row := rows[n - 1];
      if row.id in before then before[row.id := before[row.id] + row.tokens] else before
  }

  lemma {:induction false} ExtendedMeans(held: map<nat, seq<int>>, rows: seq<Row>, n: nat)
    requires n <= |rows| && DistinctRows(rows)
    ensures Extended(held, rows, n).Keys == held.Keys
    ensures forall i :: 0 <= i < n && rows[i].id in held ==> Extended(held, rows, n)[rows[i].id] == held[rows[i].id] + rows[i].tokens
    ensures forall id :: id in held && (forall i :: 0 <= i < n ==> rows[i].id != id) ==> Extended(held, rows, n)[id] == held[id]
  {
    if n > 0 {
      ExtendedMeans(held, rows, n - 1);
    }
  }

  /** Holding more means holding less. */
  lemma MirrorsLess(pool: Pool, k: Cache, held: map<nat, seq<int>>, less: map<nat, seq<int>>)
    requires Mirrors(pool, k, held)
    requires forall id :: id in less ==> id in held && less[id] <= held[id]
    ensures Mirrors(pool, k, less)
  {
    forall id | id in less
      ensures MirrorsOne(pool, k, id, less[id])
    {
      assert MirrorsOne(pool, k, id, held[id]);
      forall i: nat | i < |less[id]|
        ensures SlotHolds(pool, k.sequences[id].pages, k.config.blockSize, i, less[id][i])
      {
        assert SlotHolds(pool, k.sequences[id].pages, k.config.blockSize, i, held[id][i]);
      }
    }
  }

  lemma HeldInPart(pool: Pool, table: seq<nat>, part: seq<nat>, size: nat, tokens: seq<int>)
    requires HeldIn(pool, table, size, tokens) && (part <= table || table <= part)
    requires forall i: nat :: i < |tokens| ==> Reaches(part, size, i)
    ensures HeldIn(pool, part, size, tokens)
  {
    forall i: nat | i < |tokens|
      ensures SlotHolds(pool, part, size, i, tokens[i])
    {
      assert SlotHolds(pool, table, size, i, tokens[i]) && Reaches(part, size, i);
    }
  }

  /** Settling, cancelling and removing give back only pages beyond the committed tokens. */
  lemma MirrorsTrimmed(pool: Pool, k: Cache, k': Cache, held: map<nat, seq<int>>)
    requires Mirrors(pool, k, held) && Trimmed(k, k') && CacheOk(k') && k'.config == k.config
    requires forall id :: id in held ==> id in k'.sequences && |held[id]| <= k'.sequences[id].committed
    ensures Mirrors(pool, k', held)
  {
    forall id | id in held
      ensures MirrorsOne(pool, k', id, held[id])
    {
      assert MirrorsOne(pool, k, id, held[id]);
      CommittedReached(k', id, |held[id]|);
      HeldInPart(pool, k.sequences[id].pages, k'.sequences[id].pages, k.config.blockSize, held[id]);
    }
  }

  lemma CommittedReached(k: Cache, id: nat, n: nat)
    requires CacheOk(k) && id in k.sequences && n <= k.sequences[id].committed
    ensures forall i: nat :: i < n ==> Reaches(k.sequences[id].pages, k.config.blockSize, i)
  {
    var s := k.sequences[id];
    assert SequenceOk(k, id);
    if s.pending.Some? {
      var v := k.reservations[s.pending.value];
      CeilDivMonotone(s.committed, v.start + v.count, k.config.blockSize);
    }
    forall i: nat | i < n
      ensures Reaches(s.pages, k.config.blockSize, i)
    {
      BlockInside(i, s.committed, k.config.blockSize, |s.pages|);
    }
  }

  /** Planning moves no token that is still stored. */
  lemma MirrorsPlanned(pool: Pool, p: State, k: Cache, p': State, k': Cache)
    requires Mirrors(pool, k, p.stored) && Kept(p, k, p', k') && k'.config == k.config && p'.stored.Keys <= k'.sequences.Keys
    ensures Mirrors(pool, k', p'.stored)
  {
    forall id | id in p'.stored
      ensures MirrorsOne(pool, k', id, p'.stored[id])
    {
      assert id in k'.sequences;
      if p'.stored[id] != [] {
        assert MirrorsOne(pool, k, id, p.stored[id]);
        forall i: nat | i < |p.stored[id]|
          ensures Reaches(k'.sequences[id].pages, k.config.blockSize, i)
        {
          assert SlotHolds(pool, k.sequences[id].pages, k.config.blockSize, i, p.stored[id][i]);
        }
        HeldInPart(pool, k.sequences[id].pages, k'.sequences[id].pages, k.config.blockSize, p.stored[id]);
      }
    }
  }
}
