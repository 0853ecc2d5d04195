/** `DenseBatchCache`: its operations on the paged storage, and what each does to the logical contents. */
module DenseCache {
  import opened Wrappers
  import opened Arithmetic
  import opened DenseKv

  /** Every request but `id` keeps its logical contents. */
  ghost predicate OthersKept<V(!new)>(s: Store<V>, t: Store<V>, id: nat) {
    && StoreOk(s) && StoreOk(t) && t.geometry == s.geometry
    && (forall o :: o in s.tables && o != id ==> o in t.tables && Logical(t, o) == Logical(s, o))
    && (forall o :: o in t.tables && o != id ==> o in s.tables)
  }

  // ----- one request's table, position and pages change -----

  function With<V(!new)>(s: Store<V>, id: nat, arena: Option<seq<seq<V>>>, n: nat, table: seq<nat>): Store<V> {
    s.(arena := arena, positions := s.positions[id := n], tables := s.tables[id := table])
  }

  predicate ApartFromOthers(tables: map<nat, seq<nat>>, id: nat, table: seq<nat>) {
    forall o {:trigger Apart(tables[o], table)} :: o in tables && o != id ==> Apart(tables[o], table)
  }

  lemma WithOk<V(!new)>(s: Store<V>, id: nat, arena: Option<seq<seq<V>>>, n: nat, table: seq<nat>)
    requires StoreOk(s) && TableOk(s.geometry, n, table) && ApartFromOthers(s.tables, id, table)
    requires ArenaOk(s.geometry, arena) && (arena.None? ==> s.arena.None? && n == 0)
    ensures StoreOk(With(s, id, arena, n, table))
  {
    var t := With(s, id, arena, n, table);
    forall x, y | x in t.tables && y in t.tables && x != y
      ensures Apart(t.tables[x], t.tables[y])
    {
      if y == id {
        assert Apart(s.tables[x], table);
      } else if x == id {
        assert Apart(s.tables[y], table);
      }
    }
  }

  /** The pages that changed are in the request's own table. */
  ghost predicate OnlyPagesOf<V(!new)>(g: Geometry, table: seq<nat>, a: Option<seq<seq<V>>>, b: seq<seq<V>>) {
    && ArenaOk(g, a) && ArenaOk(g, Some(b))
    && (a.Some? ==> forall p: nat :: p < g.pages && p !in table ==> b[p] == a.value[p])
  }

  /** Then no other request notices. */
  lemma WithKeeps<V(!new)>(s: Store<V>, id: nat, a: seq<seq<V>>, n: nat, table: seq<nat>)
    requires StoreOk(s) && TableOk(s.geometry, n, table) && ApartFromOthers(s.tables, id, table)
    requires OnlyPagesOf(s.geometry, table, s.arena, a)
    ensures var t := With(s, id, Some(a), n, table);
      OthersKept(s, t, id) && Logical(t, id) == Held(s.geometry, a, table, n)
  {
    WithOk(s, id, Some(a), n, table);
    var t := With(s, id, Some(a), n, table);
    forall o | o in s.tables && o != id
      ensures Logical(t, o) == Logical(s, o)
    {
      if s.arena.Some? {
        PagesUntouched(s.geometry, table, s.arena.value, a, s.tables[o]);
        HeldFrame(s.geometry, s.arena.value, a, s.tables[o], s.positions[o]);
      }
    }
  }

  lemma PagesUntouched<V(!new)>(g: Geometry, table: seq<nat>, a: seq<seq<V>>, b: seq<seq<V>>, other: seq<nat>)
    requires OnlyPagesOf(g, table, Some(a), b) && Apart(other, table) && InArena(other, g.pages)
    ensures forall i :: 0 <= i < |other| ==> a[other[i]] == b[other[i]]
  {
  }

  // ----- truncate -----

  function TruncateTo<V(!new)>(s: Store<V>, id: nat, position: nat): Store<V>
    requires s.geometry.block > 0 && id in s.tables && CeilDiv(position, s.geometry.block) <= |s.tables[id]|
  {
    With(s, id, s.arena, position, s.tables[id][..CeilDiv(position, s.geometry.block)])
  }

  lemma TruncateOk<V(!new)>(s: Store<V>, id: nat, position: nat)
    requires StoreOk(s) && id in s.tables && position <= s.positions[id]
    ensures CeilDiv(position, s.geometry.block) <= |s.tables[id]| && StoreOk(TruncateTo(s, id, position))
  {
    CeilDivMonotone(position, s.positions[id], s.geometry.block);
    var table := s.tables[id][..CeilDiv(position, s.geometry.block)];
    forall o | o in s.tables && o != id
      ensures Apart(s.tables[o], table)
    {
      assert Apart(s.tables[o], s.tables[id]);
    }
    WithOk(s, id, s.arena, position, table);
  }

  /** Truncation keeps a prefix of the request and all of the others. */
  lemma TruncateKeeps<V(!new)>(s: Store<V>, id: nat, position: nat)
    requires StoreOk(s) && id in s.tables && position <= s.positions[id]
    ensures CeilDiv(position, s.geometry.block) <= |s.tables[id]|
    ensures var t := TruncateTo(s, id, position);
      OthersKept(s, t, id) && Logical(t, id) == Logical(s, id)[..position]
  {
    TruncateOk(s, id, position);
    if s.arena.Some? {
      HeldPrefix(s.geometry, s.arena.value, s.tables[id], s.positions[id], position);
    }
  }

  // ----- append -----

  /** The destination the source accepts for one more position. */
  predicate Destination<V(!new)>(s: Store<V>, id: nat, table: seq<nat>, position: nat) {
    && s.geometry.block > 0 && id in s.positions && s.positions[id] == position && position < s.geometry.maxLength
    && |table| == CeilDiv(position + 1, s.geometry.block) && InArena(table, s.geometry.pages) && Distinct(table)
    && id in s.tables && s.tables[id] <= table && ApartFromOthers(s.tables, id, table)
  }

  /** Writing one position of a table changes that table's pages only. */
  lemma WriteOnlyPagesOf<V(!new)>(g: Geometry, a: seq<seq<V>>, table: seq<nat>, n: nat, p: nat, v: V)
    requires ArenaOk(g, Some(a)) && TableOk(g, n, table) && p < n
    ensures OnlyPagesOf(g, table, Some(a), WriteAt(g, a, table, n, p, v))
  {
    PageInTable(p, n, g.block);
  }

  lemma HeldAppend<V(!new)>(g: Geometry, a: seq<seq<V>>, short: seq<nat>, table: seq<nat>, p: nat, v: V)
    requires ArenaOk(g, Some(a)) && TableOk(g, p, short) && TableOk(g, p + 1, table) && short <= table
    ensures var w := WriteAt(g, a, table, p + 1, p, v);
      ArenaOk(g, Some(w)) && Held(g, w, table, p + 1) == Held(g, a, short, p) + [v]
  {
    HeldWrite(g, a, table, p + 1, p, v);
    HeldLonger(g, a, short, p, table, p + 1);
    var whole := Held(g, a, table, p + 1);
    assert whole[p := v] == whole[..p] + [v];
  }

  ghost predicate MayAppend<V(!new)>(s: Store<V>, id: nat, table: seq<nat>) {
    StoreOk(s) && s.arena.Some? && id in s.positions && Destination(s, id, table, s.positions[id])
  }

  ghost function Appended<V(!new)>(s: Store<V>, id: nat, table: seq<nat>, v: V): Store<V>
    requires MayAppend(s, id, table)
  {
    var p := s.positions[id];
    With(s, id, Some(WriteAt(s.geometry, s.arena.value, table, p + 1, p, v)), p + 1, table)
  }

  /** Appending adds one element to the request and touches no other. */
  lemma AppendKeeps<V(!new)>(s: Store<V>, id: nat, table: seq<nat>, v: V)
    requires MayAppend(s, id, table)
    ensures var t := Appended(s, id, table, v);
      OthersKept(s, t, id) && Logical(t, id) == Logical(s, id) + [v]
  {
    var g, a, p := s.geometry, s.arena.value, s.positions[id];
    var w := WriteAt(g, a, table, p + 1, p, v);
    WriteOnlyPagesOf(g, a, table, p + 1, p, v);
    WithKeeps(s, id, w, p + 1, table);
    HeldAppend(g, a, s.tables[id], table, p, v);
  }

  // ----- deltas -----

  datatype Delta<V> = Delta(start: nat, values: seq<V>)

  /** Gathering pages and cutting at an offset addresses the same slots. */
  lemma GatheredIndex(start: nat, j: nat, b: nat)
    requires b > 0
    ensures (start % b + j) / b + start / b == (start + j) / b && (start % b + j) % b == (start + j) % b
  {
    DivMod(start, b);
    ModShift(start % b + j, start / b, b);
    assert start % b + j + start / b * b == start + j;
  }

  lemma SliceAt(table: seq<nat>, first: nat, last: nat, page: nat, at: nat)
    requires first <= last <= |table| && page + first == at < last
    ensures page < |table[first..last]| && table[first..last][page] == table[at]
  {
  }

  lemma GatheredSlot(start: nat, j: nat, end: nat, b: nat)
    requires b > 0 && start + j < end
    ensures (start % b + j) / b + start / b == (start + j) / b < CeilDiv(end, b)
    ensures (start % b + j) % b == (start + j) % b
  {
    GatheredIndex(start, j, b);
    PageInTable(start + j, end, b);
  }

  lemma GatheredIs<V(!new)>(g: Geometry, a: seq<seq<V>>, table: seq<nat>, n: nat, first: nat, last: nat, page: nat, slot: nat, i: nat)
    requires TableOk(g, n, table) && ArenaOk(g, Some(a)) && i < n && first <= last <= |table|
    requires page + first == i / g.block < last && slot == i % g.block
    ensures page < last - first && table[first..last][page] < |a| && slot < |a[table[first..last][page]]|
    ensures a[table[first..last][page]][slot] == HeldAt(g, a, table, n, i)
  {
    SliceAt(table, first, last, page, page + first);
    PageInTable(i, n, g.block);
  }

  /** `capture_delta`: the pages that cover the span are gathered, then cut. */
  method GatherSpan<V(!new)>(g: Geometry, a: seq<seq<V>>, table: seq<nat>, ghost n: nat, start: nat, end: nat)
    returns (values: seq<V>)
    requires TableOk(g, n, table) && ArenaOk(g, Some(a)) && start < end <= n
    ensures values == Held(g, a, table, n)[start..end]
  {
    CeilDivMonotone(end, n, g.block);
    PageInTable(start, end, g.block);
    values := GatherFrom(g, a, table, n, start, end, start / g.block, CeilDiv(end, g.block), start % g.block);
  }

  method GatherFrom<V(!new)>(g: Geometry, a: seq<seq<V>>, table: seq<nat>, ghost n: nat, start: nat, end: nat, first: nat, last: nat, offset: nat)
    returns (values: seq<V>)
    requires TableOk(g, n, table) && ArenaOk(g, Some(a)) && start < end <= n
    requires first == start / g.block && last == CeilDiv(end, g.block) && offset == start % g.block && first <= last <= |table|
    ensures values == Held(g, a, table, n)[start..end]
  {
    var pages := table[first..last];
    values := [];
    for j := 0 to end - start
      invariant |values| == j
      invariant forall k: nat :: k < j ==> values[k] == HeldAt(g, a, table, n, start + k)
    {
      var page, slot := (offset + j) / g.block, (offset + j) % g.block;
      GatheredSlot(start, j, end, g.block);
      GatheredIs(g, a, table, n, first, last, page, slot, start + j);
      values := values + [a[pages[page]][slot]];
    }
  }

  // ----- prefixes -----

  /** Page `q` of the table holds its part of the values. */
  ghost predicate PageHolds<V(!new)>(a: seq<seq<V>>, table: seq<nat>, values: seq<V>, b: nat, q: nat) {
    && q < |table| && table[q] < |a| && |a[table[q]]| == b
    && forall slot: nat :: slot < b && q * b + slot < |values| ==> a[table[q]][slot] == values[q * b + slot]
  }

  lemma PagesHoldAll<V(!new)>(g: Geometry, a: seq<seq<V>>, table: seq<nat>, values: seq<V>)
    requires TableOk(g, |values|, table) && ArenaOk(g, Some(a))
    requires forall q: nat :: q < |table| ==> PageHolds(a, table, values, g.block, q)
    ensures Held(g, a, table, |values|) == values
  {
    forall i: nat | i < |values|
      ensures HeldAt(g, a, table, |values|, i) == values[i]
    {
      PageInTable(i, |values|, g.block);
      DivMod(i, g.block);
      assert PageHolds(a, table, values, g.block, i / g.block);
    }
  }

  /** The part of the values that goes to page `q`, over what the page held. */
  function PageWith<V(!new)>(page: seq<V>, values: seq<V>, start: nat): (r: seq<V>)
    requires start <= |values|
    ensures |r| == |page|
  {
    var count := if |page| < |values| - start then |page| else |values| - start;
    values[start..start + count] + page[count..]
  }

  lemma PageWithHolds<V(!new)>(page: seq<V>, values: seq<V>, b: nat, q: nat, slot: nat)
    requires |page| == b && q * b <= |values| && slot < b && q * b + slot < |values|
    ensures PageWith(page, values, q * b)[slot] == values[q * b + slot]
  {
  }

  /** The copying loop of `restore_prefix`, page by page. */
  method CopyPages<V(!new)>(g: Geometry, a: seq<seq<V>>, table: seq<nat>, values: seq<V>) returns (r: seq<seq<V>>)
    requires TableOk(g, |values|, table) && ArenaOk(g, Some(a))
    ensures ArenaOk(g, Some(r)) && Held(g, r, table, |values|) == values
    ensures forall p: nat :: p < g.pages && p !in table ==> r[p] == a[p]
  {
    var b := g.block;
    r := a;
    for q := 0 to |table|
      invariant ArenaOk(g, Some(r))
      invariant forall k: nat :: k < q ==> PageHolds(r, table, values, b, k)
      invariant forall p: nat :: p < g.pages && p !in table ==> r[p] == a[p]
    {
      StartsInside(q, |values|, b);
      ghost var before := r;
      var page := PageWith(r[table[q]], values, q * b);
      forall slot: nat | slot < b && q * b + slot < |values|
        ensures page[slot] == values[q * b + slot]
      {
        PageWithHolds(r[table[q]], values, b, q, slot);
      }
      r := r[table[q] := page];
      forall k: nat | k < q
        ensures PageHolds(r, table, values, b, k)
      {
        assert PageHolds(before, table, values, b, k) && table[k] != table[q];
      }
    }
    PagesHoldAll(g, r, table, values);
  }

  lemma StartsInside(q: nat, n: nat, b: nat)
    requires b > 0 && q < CeilDiv(n, b)
    ensures q * b < n
  {
    CeilDivBounds(n, b);
    MulMonotone(q + 1, CeilDiv(n, b), b);
    assert (q + 1) * b == q * b + b;
  }

  // ----- batches -----

  /** A scheduled row as the cache sees it. */
  datatype Row = Row(id: nat, start: nat, tokens: seq<int>, context: nat, table: seq<nat>)

  datatype Limits = Limits(vocabulary: nat, maxLength: nat)

  predicate RowFits<V(!new)>(s: Store<V>, row: Row, width: nat, limits: Limits) {
    && s.geometry.block > 0 && |row.tokens| == width && row.start + width == row.context
    && row.context <= s.geometry.maxLength && row.context <= limits.maxLength
    && (if row.id in s.positions then s.positions[row.id] else 0) == row.start
    && |row.table| == CeilDiv(row.context, s.geometry.block)
    && (forall i :: 0 <= i < |row.tokens| ==> 0 <= row.tokens[i] < limits.vocabulary)
    && (row.id in s.tables ==> s.tables[row.id] <= row.table)
  }

  predicate RowValid<V(!new)>(s: Store<V>, row: Row, width: nat, limits: Limits) {
    RowFits(s, row, width, limits) && InArena(row.table, s.geometry.pages) && Distinct(row.table)
  }

  /** What the validation accepts: valid rows of distinct requests on pages nobody else owns. */
  ghost predicate BatchValid<V(!new)>(s: Store<V>, rows: seq<Row>, width: nat, limits: Limits) {
    && rows != [] && width > 0
    && (forall i :: 0 <= i < |rows| ==> RowValid(s, rows[i], width, limits) && ApartFromOthers(s.tables, rows[i].id, rows[i].table))
    && (forall i, j :: 0 <= i < j < |rows| ==> rows[i].id != rows[j].id && Apart(rows[i].table, rows[j].table))
  }

  /** The contents of a request, empty if it is unknown. */
  ghost function Contents<V(!new)>(s: Store<V>, id: nat): seq<V>
    requires StoreOk(s)
  {
    if id in s.tables then Logical(s, id) else []
  }

  /** The values of a row's tokens, written position by position. */
  method WriteRow<V(!new)>(g: Geometry, a: seq<seq<V>>, row: Row, values: seq<V>) returns (r: seq<seq<V>>)
    requires ArenaOk(g, Some(a)) && TableOk(g, row.context, row.table) && row.start + |values| == row.context
    ensures OnlyPagesOf(g, row.table, Some(a), r)
    ensures Held(g, r, row.table, row.context) == Held(g, a, row.table, row.context)[..row.start] + values
  {
    r := a;
    ghost var first := Held(g, a, row.table, row.context);
    for j := 0 to |values|
      invariant OnlyPagesOf(g, row.table, Some(a), r)
      invariant Held(g, r, row.table, row.context)[..row.start + j] == first[..row.start] + values[..j]
    {
      var p := row.start + j;
      ghost var h := Held(g, r, row.table, row.context);
      HeldWrite(g, r, row.table, row.context, p, values[j]);
      WriteOnlyPagesOf(g, r, row.table, row.context, p, values[j]);
      r := WriteAt(g, r, row.table, row.context, p, values[j]);
      assert h[p := values[j]][..p + 1] == h[..p] + [values[j]];
    }
    assert values[..|values|] == values;
  }

  /** One row: the request grows by the row's values. */
  lemma RowKeeps<V(!new)>(s: Store<V>, row: Row, width: nat, limits: Limits, values: seq<V>, a: seq<seq<V>>, r: seq<seq<V>>)
    requires StoreOk(s) && RowValid(s, row, width, limits) && ApartFromOthers(s.tables, row.id, row.table)
    requires |values| == width && ArenaOk(s.geometry, Some(a)) && (s.arena.Some? ==> s.arena.value == a)
    requires OnlyPagesOf(s.geometry, row.table, Some(a), r)
    requires Held(s.geometry, r, row.table, row.context) == Held(s.geometry, a, row.table, row.context)[..row.start] + values
    ensures var t := With(s, row.id, Some(r), row.context, row.table);
      OthersKept(s, t, row.id) && Logical(t, row.id) == Contents(s, row.id) + values
  {
    WithKeeps(s, row.id, r, row.context, row.table);
    if row.id in s.tables && s.arena.Some? {
      HeldLonger(s.geometry, a, s.tables[row.id], row.start, row.table, row.context);
    }
  }

  /** The rows still to come stay valid. */
  lemma RestStaysValid<V(!new)>(s: Store<V>, t: Store<V>, rows: seq<Row>, width: nat, limits: Limits, r: seq<seq<V>>)
    requires BatchValid(s, rows, width, limits) && |rows| > 1
    requires t == With(s, rows[0].id, Some(r), rows[0].context, rows[0].table)
    ensures BatchValid(t, rows[1..], width, limits)
  {
    forall i | 1 <= i < |rows|
      ensures RowValid(t, rows[i], width, limits) && ApartFromOthers(t.tables, rows[i].id, rows[i].table)
    {
      assert rows[0].id != rows[i].id && Apart(rows[0].table, rows[i].table);
      assert RowValid(s, rows[i], width, limits) && ApartFromOthers(s.tables, rows[i].id, rows[i].table);
    }
  }
}
