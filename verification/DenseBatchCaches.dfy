/** The cache object of the dense adapters. */
module DenseBatchCaches {
  import opened Wrappers
  import opened Arithmetic
  import opened DenseKv
  import opened DenseCache

  // ----- page owners -----

  /** A request claims a page through its table or through an earlier row of the batch. */
  ghost predicate Claims(tables: map<nat, seq<nat>>, rows: seq<Row>, id: nat, p: nat) {
    || (id in tables && p in tables[id])
    || (exists j :: 0 <= j < |rows| && rows[j].id == id && p in rows[j].table)
  }

  ghost predicate OwnersMean(owners: map<nat, nat>, tables: map<nat, seq<nat>>, rows: seq<Row>) {
    && (forall p :: p in owners ==> Claims(tables, rows, owners[p], p))
    && (forall o, p :: o in tables && p in tables[o] ==> p in owners && owners[p] == o)
    && (forall j, p :: 0 <= j < |rows| && p in rows[j].table ==> p in owners && owners[p] == rows[j].id)
  }

  /** What the page loop of the validation tests. */
  predicate NoConflict(owners: map<nat, nat>, id: nat, table: seq<nat>, pages: nat) {
    && InArena(table, pages) && Distinct(table)
    && forall k :: 0 <= k < |table| && table[k] in owners ==> owners[table[k]] == id
  }

  function Claimed(owners: map<nat, nat>, id: nat, table: seq<nat>): map<nat, nat> {
    map p | p in owners.Keys + (set q | q in table) :: if p in table then id else owners[p]
  }

  /** Without a conflict the row's pages belong to nobody else, and only then. */
  lemma NoConflictMeans(owners: map<nat, nat>, tables: map<nat, seq<nat>>, rows: seq<Row>, id: nat, table: seq<nat>, pages: nat)
    requires OwnersMean(owners, tables, rows) && forall j :: 0 <= j < |rows| ==> rows[j].id != id
    ensures NoConflict(owners, id, table, pages) <==>
      && InArena(table, pages) && Distinct(table) && ApartFromOthers(tables, id, table)
      && forall j :: 0 <= j < |rows| ==> Apart(rows[j].table, table)
  {
    if NoConflict(owners, id, table, pages) {
      forall o | o in tables && o != id
        ensures Apart(tables[o], table)
      {
        forall i, k | 0 <= i < |tables[o]| && 0 <= k < |table|
          ensures tables[o][i] != table[k]
        {
          assert tables[o][i] in tables[o];
        }
      }
      forall j | 0 <= j < |rows|
        ensures Apart(rows[j].table, table)
      {
        forall i, k | 0 <= i < |rows[j].table| && 0 <= k < |table|
          ensures rows[j].table[i] != table[k]
        {
          assert rows[j].table[i] in rows[j].table;
        }
      }
    }
    if ApartFromOthers(tables, id, table) && forall j :: 0 <= j < |rows| ==> Apart(rows[j].table, table) {
      forall k | 0 <= k < |table| && table[k] in owners
        ensures owners[table[k]] == id
      {
        var o := owners[table[k]];
        assert Claims(tables, rows, o, table[k]);
        assert o in tables && o != id ==> Apart(tables[o], table);
      }
    }
  }

  lemma ClaimedMeans(owners: map<nat, nat>, tables: map<nat, seq<nat>>, rows: seq<Row>, row: Row)
    requires OwnersMean(owners, tables, rows) && ApartFromOthers(tables, row.id, row.table)
    requires forall j :: 0 <= j < |rows| ==> Apart(rows[j].table, row.table)
    ensures OwnersMean(Claimed(owners, row.id, row.table), tables, rows + [row])
  {
    var next, all := Claimed(owners, row.id, row.table), rows + [row];
    assert all[|rows|] == row;
    forall p | p in next
      ensures Claims(tables, all, next[p], p)
    {
      if p !in row.table {
        assert Claims(tables, rows, owners[p], p);
        if !(owners[p] in tables && p in tables[owners[p]]) {
          var j :| 0 <= j < |rows| && rows[j].id == owners[p] && p in rows[j].table;
          assert all[j] == rows[j];
        }
      }
    }
    forall o, p | o in tables && p in tables[o]
      ensures p in next && next[p] == o
    {
      if o != row.id {
        assert Apart(tables[o], row.table);
      }
    }
    forall j, p | 0 <= j < |all| && p in all[j].table
      ensures p in next && next[p] == all[j].id
    {
    }
  }

  method CheckPages(owners: map<nat, nat>, id: nat, table: seq<nat>, pages: nat) returns (ok: bool, next: map<nat, nat>)
    ensures ok <==> NoConflict(owners, id, table, pages)
    ensures ok ==> next == Claimed(owners, id, table)
  {
    next := owners;
    for k := 0 to |table|
      invariant NoConflict(owners, id, table[..k], pages)
      invariant next == Claimed(owners, id, table[..k])
    {
      var page := table[k];
      if page >= pages || page in table[..k] || (page in next && next[page] != id) {
        Conflict(owners, id, table, pages, k);
        return false, next;
      }
      ClaimedOne(owners, id, table, k);
      NoConflictYet(owners, id, table, pages, k);
      next := next[page := id];
    }
    assert table[..|table|] == table;
    ok := true;
  }

  lemma OneMorePage(table: seq<nat>, k: nat)
    requires k < |table|
    ensures forall p :: p in table[..k + 1] <==> p in table[..k] || p == table[k]
  {
    assert table[..k + 1] == table[..k] + [table[k]];
  }

  lemma ClaimedOne(owners: map<nat, nat>, id: nat, table: seq<nat>, k: nat)
    requires k < |table|
    ensures Claimed(owners, id, table[..k])[table[k] := id] == Claimed(owners, id, table[..k + 1])
  {
    OneMorePage(table, k);
  }

  lemma NoConflictYet(owners: map<nat, nat>, id: nat, table: seq<nat>, pages: nat, k: nat)
    requires k < |table| && NoConflict(owners, id, table[..k], pages)
    requires table[k] < pages && table[k] !in table[..k] && (table[k] in owners ==> owners[table[k]] == id)
    ensures NoConflict(owners, id, table[..k + 1], pages)
  {
    var front, longer := table[..k], table[..k + 1];
    assert longer == front + [table[k]];
    forall i, j | 0 <= i < j < |longer|
      ensures longer[i] != longer[j]
    {
      assert longer[i] == front[i] && front[i] in front;
    }
  }

  lemma Conflict(owners: map<nat, nat>, id: nat, table: seq<nat>, pages: nat, k: nat)
    requires k < |table|
    requires table[k] >= pages || table[k] in table[..k] || (table[k] in owners && owners[table[k]] != id)
    ensures !NoConflict(owners, id, table, pages)
  {
    if table[k] in table[..k] {
      var i :| 0 <= i < k && table[..k][i] == table[k];
      assert table[i] == table[k];
    }
  }

  function TableOwners<V(!new)>(s: Store<V>): (owners: map<nat, nat>)
    requires StoreOk(s)
    ensures OwnersMean(owners, s.tables, [])
  {
    assert forall a, b :: a in s.tables && b in s.tables && a != b ==> Apart(s.tables[a], s.tables[b]);
    map id, i | id in s.tables && 0 <= i < |s.tables[id]| :: s.tables[id][i] := id
  }

  /** One row against the earlier ones. */
  method ValidateRow<V(!new)>(s: Store<V>, rows: seq<Row>, width: nat, limits: Limits, i: nat, requests: set<nat>, owners: map<nat, nat>)
    returns (ok: bool, next: map<nat, nat>)
    requires i < |rows| && OwnersMean(owners, s.tables, rows[..i]) && requests == set j | 0 <= j < i :: rows[j].id
    ensures ok <==> Accepted(s, rows, width, limits, i)
    ensures ok ==> OwnersMean(next, s.tables, rows[..i + 1])
  {
    var row := rows[i];
    if row.id in requests || !RowFits(s, row, width, limits) {
      return false, owners;
    }
    PagesDecide(s, rows, width, limits, i, owners);
    ok, next := CheckPages(owners, row.id, row.table, s.geometry.pages);
  }

  /** `validate`: rows are checked in order against the owners of all pages so far. */
  method ValidateRows<V(!new)>(s: Store<V>, rows: seq<Row>, width: nat, limits: Limits) returns (ok: bool)
    requires StoreOk(s)
    ensures ok <==> BatchValid(s, rows, width, limits)
  {
    if rows == [] || width == 0 {
      return false;
    }
    var requests: set<nat> := {};
    var owners := TableOwners(s);
    for i := 0 to |rows|
      invariant requests == set j | 0 <= j < i :: rows[j].id
      invariant OwnersMean(owners, s.tables, rows[..i])
      invariant forall j: nat :: j < i ==> Accepted(s, rows, width, limits, j)
    {
      ok, owners := ValidateRow(s, rows, width, limits, i, requests, owners);
      if !ok {
        RowDecides(s, rows, width, limits, i);
        return;
      }
      requests := requests + {rows[i].id};
    }
    AllAccepted(s, rows, width, limits);
    return true;
  }

  // ----- the cache -----

  class DenseBatchCache<V(!new)> {
    const geometry: Geometry
    const blank: V
    var arena: Option<seq<seq<V>>>
    var positions: map<nat, nat>
    var tables: map<nat, seq<nat>>

    function Snapshot(): Store<V>
      reads this
    {
      Store(geometry, arena, positions, tables)
    }

    ghost predicate Valid()
      reads this
    {
      StoreOk(Snapshot())
    }

    constructor (geometry: Geometry, blank: V)
      requires geometry.block > 0
      ensures Valid() && this.geometry == geometry && positions == map[] && arena.None?
    {
      this.geometry, this.blank := geometry, blank;
      arena, positions, tables := None, map[], map[];
    }

    method Truncate(id: nat, position: nat) returns (r: Result<()>)
      requires Valid()
      modifies this
      ensures r.Success? <==> id in old(positions) && position <= old(positions[id])
      ensures r.Success? ==> OthersKept(old(Snapshot()), Snapshot(), id) && id in tables
      ensures r.Success? ==> Logical(Snapshot(), id) == Logical(old(Snapshot()), id)[..position]
      ensures r.Success? && CeilDiv(position, geometry.block) <= |old(tables)[id]| ==>
        Snapshot() == TruncateTo(old(Snapshot()), id, position)
      ensures Valid() && (r.Failure? ==> Snapshot() == old(Snapshot()))
    {
      if id !in positions || position > positions[id] {
        return Failure;
      }
      TruncateKeeps(Snapshot(), id, position);
      positions := positions[id := position];
      tables := tables[id := tables[id][..CeilDiv(position, geometry.block)]];
      return Success(());
    }

    /** A span of known positions can always be captured: the layers are then complete. */
    method CaptureDelta(id: nat, start: nat, end: nat) returns (r: Result<Delta<V>>)
      requires Valid()
      ensures r.Success? <==> start < end && id in positions && end <= positions[id]
      ensures r.Success? ==> r.value == Delta(start, Logical(Snapshot(), id)[start..end])
    {
      if start >= end || id !in positions || end > positions[id] {
        return Failure;
      }
      assert arena.Some?;
      var values := GatherSpan(geometry, arena.value, tables[id], positions[id], start, end);
      return Success(Delta(start, values));
    }

    method AppendDelta(id: nat, table: seq<nat>, delta: Delta<V>, offset: nat) returns (r: Result<()>)
      requires Valid()
      modifies this
      ensures r.Success? <==>
        offset < |delta.values| && old(arena).Some? && Destination(old(Snapshot()), id, table, delta.start + offset)
      ensures r.Success? ==> OthersKept(old(Snapshot()), Snapshot(), id) && id in tables
      ensures r.Success? ==> Logical(Snapshot(), id) == Logical(old(Snapshot()), id) + [delta.values[offset]]
      ensures r.Success? ==> Snapshot() == Appended(old(Snapshot()), id, table, delta.values[offset])
      ensures Valid() && (r.Failure? ==> Snapshot() == old(Snapshot()))
    {
      var position := delta.start + offset;
      if offset >= |delta.values| || !Destination(Snapshot(), id, table, position) || arena.None? {
        return Failure;
      }
      var w := WriteAt(geometry, arena.value, table, position + 1, position, delta.values[offset]);
      AppendKeeps(Snapshot(), id, table, delta.values[offset]);
      arena := Some(w);
      positions := positions[id := position + 1];
      tables := tables[id := table];
      return Success(());
    }

    method CapturePrefix(id: nat) returns (r: Result<seq<V>>)
      requires Valid()
      ensures r.Success? <==> id in positions && arena.Some?
      ensures r.Success? ==> r.value == Logical(Snapshot(), id)
    {
      if id !in positions || arena.None? {
        return Failure;
      }
      if positions[id] == 0 {
        return Success([]);
      }
      var values := GatherSpan(geometry, arena.value, tables[id], positions[id], 0, positions[id]);
      return Success(values);
    }

    method RestorePrefix(id: nat, table: seq<nat>, values: seq<V>) returns (r: Result<()>)
      requires Valid()
      modifies this
      ensures r.Success? <==>
        && id !in old(positions) && |values| <= geometry.maxLength
        && |table| == CeilDiv(|values|, geometry.block) && InArena(table, geometry.pages) && Distinct(table)
        && ApartFromOthers(old(tables), id, table)
      ensures r.Success? ==> OthersKept(old(Snapshot()), Snapshot(), id) && id in tables
      ensures r.Success? ==> Logical(Snapshot(), id) == values && tables[id] == table
      ensures Valid() && (r.Failure? ==> Snapshot() == old(Snapshot()))
    {
      if id in positions || |values| > geometry.maxLength || |table| != CeilDiv(|values|, geometry.block)
        || !InArena(table, geometry.pages) || !Distinct(table) || !ApartFromOthers(tables, id, table)
      {
        return Failure;
      }
      var a := if arena.Some? then arena.value else seq(geometry.pages, _ => seq(geometry.block, _ => blank));
      var w := CopyPages(geometry, a, table, values);
      WithKeeps(Snapshot(), id, w, |values|, table);
      arena := Some(w);
      positions := positions[id := |values|];
      tables := tables[id := table];
      return Success(());
    }

    method Validate(rows: seq<Row>, width: nat, limits: Limits) returns (ok: bool)
      requires Valid()
      ensures ok <==> BatchValid(Snapshot(), rows, width, limits)
    {
      ok := ValidateRows(Snapshot(), rows, width, limits);
    }

    /** The forward pass of an accepted batch: the rows' values are written and the rows committed. */
    method Commit(rows: seq<Row>, width: nat, limits: Limits, values: seq<seq<V>>)
      requires Valid() && BatchValid(Snapshot(), rows, width, limits)
      requires |values| == |rows| && forall i :: 0 <= i < |rows| ==> |values[i]| == width
      modifies this
      ensures Valid() && Committed(old(Snapshot()), Snapshot(), rows, values, |rows|)
    {
      ghost var s := Snapshot();
      for k := 0 to |rows|
        invariant Valid() && Snapshot().geometry == s.geometry
        invariant k < |rows| ==> BatchValid(Snapshot(), rows[k..], width, limits)
        invariant Committed(s, Snapshot(), rows, values, k)
      {
        ghost var before := Snapshot();
        assert rows[k..][0] == rows[k];
        CommitRow(rows[k], width, limits, values[k]);
        if k + 1 < |rows| {
          assert rows[k..][1..] == rows[k + 1..];
          RestStaysValid(before, Snapshot(), rows[k..], width, limits, arena.value);
        }
        CommittedNext(s, before, Snapshot(), rows, values, k);
      }
    }

    method CommitRow(row: Row, width: nat, limits: Limits, values: seq<V>)
      requires Valid() && RowValid(Snapshot(), row, width, limits) && ApartFromOthers(tables, row.id, row.table)
      requires |values| == width
      modifies this
      ensures arena.Some? && Snapshot() == With(old(Snapshot()), row.id, arena, row.context, row.table)
      ensures OthersKept(old(Snapshot()), Snapshot(), row.id)
      ensures Logical(Snapshot(), row.id) == Contents(old(Snapshot()), row.id) + values
    {
      ghost var before := Snapshot();
      var a := if arena.Some? then arena.value else seq(geometry.pages, _ => seq(geometry.block, _ => blank));
      var r := WriteRow(geometry, a, row, values);
      RowKeeps(before, row, width, limits, values, a, r);
      arena := Some(r);
      positions := positions[row.id := row.context];
      tables := tables[row.id := row.table];
    }
  }

  /** The first `k` rows are written; every other request is as it was. */
  ghost predicate Committed<V(!new)>(s: Store<V>, t: Store<V>, rows: seq<Row>, values: seq<seq<V>>, k: nat)
    requires StoreOk(s) && StoreOk(t) && |values| == |rows| && k <= |rows|
  {
    && (forall i :: 0 <= i < k ==> rows[i].id in t.tables && Logical(t, rows[i].id) == Contents(s, rows[i].id) + values[i])
    && (forall o :: (forall i :: 0 <= i < k ==> rows[i].id != o) ==> Contents(t, o) == Contents(s, o) && (o in s.tables ==> o in t.tables))
  }

  lemma CommittedNext<V(!new)>(s: Store<V>, t: Store<V>, u: Store<V>, rows: seq<Row>, values: seq<seq<V>>, k: nat)
    requires StoreOk(s) && StoreOk(t) && |values| == |rows| && k < |rows| && Committed(s, t, rows, values, k)
    requires forall i, j :: 0 <= i < j < |rows| ==> rows[i].id != rows[j].id
    requires OthersKept(t, u, rows[k].id) && rows[k].id in u.tables
    requires Logical(u, rows[k].id) == Contents(t, rows[k].id) + values[k]
    ensures Committed(s, u, rows, values, k + 1)
  {
    forall i | 0 <= i < k + 1
      ensures rows[i].id in u.tables && Logical(u, rows[i].id) == Contents(s, rows[i].id) + values[i]
    {
    }
    forall o | forall i :: 0 <= i < k + 1 ==> rows[i].id != o
      ensures Contents(u, o) == Contents(s, o) && (o in s.tables ==> o in u.tables)
    {
      assert rows[k].id != o;
    }
  }

  /** A row of a new request that fits is accepted exactly when the page loop finds no conflict. */
  lemma PagesDecide<V(!new)>(s: Store<V>, rows: seq<Row>, width: nat, limits: Limits, i: nat, owners: map<nat, nat>)
    requires i < |rows| && RowFits(s, rows[i], width, limits) && OwnersMean(owners, s.tables, rows[..i])
    requires forall j :: 0 <= j < i ==> rows[j].id != rows[i].id
    ensures NoConflict(owners, rows[i].id, rows[i].table, s.geometry.pages) <==> Accepted(s, rows, width, limits, i)
    ensures Accepted(s, rows, width, limits, i) ==>
      OwnersMean(Claimed(owners, rows[i].id, rows[i].table), s.tables, rows[..i + 1])
  {
    var row, front := rows[i], rows[..i];
    NoConflictMeans(owners, s.tables, front, row.id, row.table, s.geometry.pages);
    assert forall j :: 0 <= j < i ==> front[j] == rows[j];
    if Accepted(s, rows, width, limits, i) {
      assert rows[..i + 1] == front + [row];
      ClaimedMeans(owners, s.tables, front, row);
    }
  }

  /** Row `i` passes its own checks and those against the earlier rows. */
  ghost predicate Accepted<V(!new)>(s: Store<V>, rows: seq<Row>, width: nat, limits: Limits, i: nat)
    requires i < |rows|
  {
    && RowValid(s, rows[i], width, limits) && ApartFromOthers(s.tables, rows[i].id, rows[i].table)
    && forall j :: 0 <= j < i ==> rows[j].id != rows[i].id && Apart(rows[j].table, rows[i].table)
  }

  lemma RowDecides<V(!new)>(s: Store<V>, rows: seq<Row>, width: nat, limits: Limits, i: nat)
    requires i < |rows| && !Accepted(s, rows, width, limits, i)
    ensures !BatchValid(s, rows, width, limits)
  {
    if BatchValid(s, rows, width, limits) {
      ValidAccepts(s, rows, width, limits, i);
    }
  }

  lemma ValidAccepts<V(!new)>(s: Store<V>, rows: seq<Row>, width: nat, limits: Limits, i: nat)
    requires i < |rows| && BatchValid(s, rows, width, limits)
    ensures Accepted(s, rows, width, limits, i)
  {
    forall j | 0 <= j < i
      ensures rows[j].id != rows[i].id && Apart(rows[j].table, rows[i].table)
    {
    }
  }

  lemma AllAccepted<V(!new)>(s: Store<V>, rows: seq<Row>, width: nat, limits: Limits)
    requires rows != [] && width > 0 && forall i: nat :: i < |rows| ==> Accepted(s, rows, width, limits, i)
    ensures BatchValid(s, rows, width, limits)
  {
    forall i | 0 <= i < |rows|
      ensures RowValid(s, rows[i], width, limits) && ApartFromOthers(s.tables, rows[i].id, rows[i].table)
    {
      assert Accepted(s, rows, width, limits, i);
    }
    forall i, j | 0 <= i < j < |rows|
      ensures rows[i].id != rows[j].id && Apart(rows[i].table, rows[j].table)
    {
      assert Accepted(s, rows, width, limits, j);
    }
  }

  // ----- speculation -----

  /** One table after another: each extends the one before and is a free destination. */
  ghost predicate TableFollows<V(!new)>(s: Store<V>, id: nat, before: seq<nat>, table: seq<nat>, position: nat) {
    && s.geometry.block > 0 && position < s.geometry.maxLength && before <= table
    && |table| == CeilDiv(position + 1, s.geometry.block) && InArena(table, s.geometry.pages) && Distinct(table)
    && ApartFromOthers(s.tables, id, table)
  }

  ghost predicate ReplayTables<V(!new)>(s: Store<V>, id: nat, start: nat, tables: seq<seq<nat>>) {
    && id in s.tables && tables != [] && tables[0] == s.tables[id]
    && forall k: nat {:trigger tables[k]} :: k + 1 < |tables| ==> TableFollows(s, id, tables[k], tables[k + 1], start + k)
  }

  lemma OthersKeptTwice<V(!new)>(s: Store<V>, t: Store<V>, u: Store<V>, id: nat)
    requires OthersKept(s, t, id) && OthersKept(t, u, id)
    ensures OthersKept(s, u, id)
  {
  }

  /** The next table is a destination the append accepts. */
  lemma ReplayReady<V(!new)>(t: Store<V>, u: Store<V>, id: nat, start: nat, tables: seq<seq<nat>>, k: nat)
    requires k + 1 < |tables| && ReplayTables(t, id, start, tables)
    requires StoreOk(u) && u.arena.Some? && u.geometry == t.geometry && u.tables == t.tables[id := tables[k]]
    requires |Logical(u, id)| == start + k
    ensures MayAppend(u, id, tables[k + 1])
  {
    assert TableFollows(t, id, tables[k], tables[k + 1], start + k);
  }

  /** The cache after the first `k` captured elements have been appended again. */
  ghost function Replayed<V(!new)>(t: Store<V>, id: nat, tables: seq<seq<nat>>, values: seq<V>, k: nat): (u: Option<Store<V>>)
    requires |tables| == |values| + 1 && k <= |values|
  {
    if k == 0 then Some(t)
    else
      var before := Replayed(t, id, tables, values, k - 1);
      if before.Some? && MayAppend(before.value, id, tables[k]) then Some(Appended(before.value, id, tables[k], values[k - 1]))
      else None
  }

  ghost predicate ReplayedTo<V(!new)>(t: Store<V>, u: Store<V>, id: nat, table: seq<nat>, held: seq<V>) {
    && OthersKept(t, u, id) && u.arena.Some? && u.tables == t.tables[id := table] && Logical(u, id) == held
  }

  lemma ReplayStep<V(!new)>(t: Store<V>, u: Store<V>, id: nat, start: nat, tables: seq<seq<nat>>, k: nat, held: seq<V>, v: V)
    requires k + 1 < |tables| && ReplayTables(t, id, start, tables)
    requires ReplayedTo(t, u, id, tables[k], held) && |held| == start + k
    ensures MayAppend(u, id, tables[k + 1]) && ReplayedTo(t, Appended(u, id, tables[k + 1], v), id, tables[k + 1], held + [v])
  {
    ReplayReady(t, u, id, start, tables, k);
    AppendKeeps(u, id, tables[k + 1], v);
    ReplayKeeps(t, u, Appended(u, id, tables[k + 1], v), id, tables[k], tables[k + 1], held, v);
  }

  lemma ReplayKeeps<V(!new)>(t: Store<V>, u: Store<V>, w: Store<V>, id: nat, table: seq<nat>, next: seq<nat>, held: seq<V>, v: V)
    requires ReplayedTo(t, u, id, table, held) && OthersKept(u, w, id)
    requires w.arena.Some? && w.tables == u.tables[id := next] && Logical(w, id) == held + [v]
    ensures ReplayedTo(t, w, id, next, held + [v])
  {
    OthersKeptTwice(t, u, w, id);
  }

  lemma PrefixGrows<V(!new)>(held: seq<V>, values: seq<V>, k: nat)
    requires k <= |values|
    ensures k == 0 ==> held + values[..k] == held
    ensures k > 0 ==> held + values[..k - 1] + [values[k - 1]] == held + values[..k]
  {
  }

  lemma PrefixSplits<V(!new)>(whole: seq<V>, start: nat, end: nat, k: nat)
    requires start <= end <= |whole| && k <= end - start
    ensures whole[..start] + whole[start..end][..k] == whole[..start + k]
  {
  }

  lemma ReplayedNext<V(!new)>(t: Store<V>, u: Store<V>, id: nat, tables: seq<seq<nat>>, values: seq<V>, p: nat)
    requires |tables| == |values| + 1 && p < |values| && Replayed(t, id, tables, values, p) == Some(u)
    requires MayAppend(u, id, tables[p + 1])
    ensures Replayed(t, id, tables, values, p + 1) == Some(Appended(u, id, tables[p + 1], values[p]))
  {
  }

  /** Every append of the replay is accepted and gives back exactly one more element. */
  lemma {:induction false} ReplayRebuilds<V(!new)>(t: Store<V>, id: nat, start: nat, tables: seq<seq<nat>>, values: seq<V>, k: nat)
    requires StoreOk(t) && t.arena.Some? && |tables| == |values| + 1 && k <= |values|
    requires ReplayTables(t, id, start, tables) && |Logical(t, id)| == start
    ensures var u := Replayed(t, id, tables, values, k);
      u.Some? && ReplayedTo(t, u.value, id, tables[k], Logical(t, id) + values[..k])
    decreases k
  {
    var held := Logical(t, id);
    PrefixGrows(held, values, k);
    if k > 0 {
      var p: nat := k - 1;
      ReplayRebuilds(t, id, start, tables, values, p);
      var u := Replayed(t, id, tables, values, p).value;
      ReplayStep(t, u, id, start, tables, p, held + values[..p], values[p]);
      ReplayedNext(t, u, id, tables, values, p);
    }
  }

  /**
   Running ahead and coming back: a span is captured, the request truncated to its start, and the
   captured elements appended one at a time. At every intermediate length the logical contents are the
   original ones up to there, whatever pages the later tables name, and no other request changes.
   */
  lemma ReplayRestores<V(!new)>(s: Store<V>, id: nat, start: nat, end: nat, tables: seq<seq<nat>>, k: nat)
    requires StoreOk(s) && id in s.tables && start < end <= s.positions[id] && k <= end - start
    requires |tables| == end - start + 1 && CeilDiv(start, s.geometry.block) <= |s.tables[id]|
    requires ReplayTables(TruncateTo(s, id, start), id, start, tables)
    ensures var u := Replayed(TruncateTo(s, id, start), id, tables, Logical(s, id)[start..end], k);
      u.Some? && OthersKept(s, u.value, id) && id in u.value.tables && Logical(u.value, id) == Logical(s, id)[..start + k]
  {
    var t, values := TruncateTo(s, id, start), Logical(s, id)[start..end];
    TruncateKeeps(s, id, start);
    ReplayRebuilds(t, id, start, tables, values, k);
    OthersKeptTwice(s, t, Replayed(t, id, tables, values, k).value, id);
    PrefixSplits(Logical(s, id), start, end, k);
  }
}
