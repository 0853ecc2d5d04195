/** The paged key/value storage of the dense adapters: pages, tables, and what they hold logically. */
module DenseKv {
  import opened Wrappers
  import opened Arithmetic

  datatype Geometry = Geometry(block: nat, pages: nat, maxLength: nat)

  /** All layers' keys and values of one position are one element. */
  datatype Store<V> = Store(
    geometry: Geometry,
    arena: Option<seq<seq<V>>>,
    positions: map<nat, nat>,
    tables: map<nat, seq<nat>>)

  lemma PageInTable(i: nat, n: nat, b: nat)
    requires b > 0 && i < n
    ensures i / b < CeilDiv(n, b) && i % b < b
  {
    CeilDivBounds(n, b);
    DivMod(i, b);
    if i / b >= CeilDiv(n, b) {
      MulMonotone(CeilDiv(n, b), i / b, b);
    }
  }

  // ----- the invariant -----

  predicate Distinct(t: seq<nat>) {
    forall i, j :: 0 <= i < j < |t| ==> t[i] != t[j]
  }

  predicate Apart(t: seq<nat>, u: seq<nat>) {
    forall i, j :: 0 <= i < |t| && 0 <= j < |u| ==> t[i] != u[j]
  }

  predicate InArena(t: seq<nat>, pages: nat) {
    forall i :: 0 <= i < |t| ==> t[i] < pages
  }

  ghost predicate ArenaOk<V(!new)>(g: Geometry, a: Option<seq<seq<V>>>) {
    a.Some? ==> |a.value| == g.pages && forall p :: 0 <= p < g.pages ==> |a.value[p]| == g.block
  }

  ghost predicate TableOk(g: Geometry, position: nat, table: seq<nat>) {
    && g.block > 0 && position <= g.maxLength
    && |table| == CeilDiv(position, g.block) && InArena(table, g.pages) && Distinct(table)
  }

  ghost predicate StoreOk<V(!new)>(s: Store<V>) {
    && s.geometry.block > 0 && ArenaOk(s.geometry, s.arena) && s.positions.Keys == s.tables.Keys
    && (forall id :: id in s.tables ==> TableOk(s.geometry, s.positions[id], s.tables[id]))
    && (forall a, b {:trigger Apart(s.tables[a], s.tables[b])} ::
      a in s.tables && b in s.tables && a != b ==> Apart(s.tables[a], s.tables[b]))
    && (s.arena.None? ==> forall id :: id in s.positions ==> s.positions[id] == 0)
  }

  // ----- what the pages hold -----

  /** Positions `0..n` of the pages of a table. */
  ghost function Held<V(!new)>(g: Geometry, a: seq<seq<V>>, table: seq<nat>, n: nat): (r: seq<V>)
    requires TableOk(g, n, table) && ArenaOk(g, Some(a))
    ensures |r| == n
  {
    seq(n, (i: nat) requires i < n => HeldAt(g, a, table, n, i))
  }

  function HeldAt<V(!new)>(g: Geometry, a: seq<seq<V>>, table: seq<nat>, ghost n: nat, i: nat): V
    requires TableOk(g, n, table) && ArenaOk(g, Some(a)) && i < n
  {
    PageInTable(i, n, g.block);
    assert table[i / g.block] < g.pages;
    a[table[i / g.block]][i % g.block]
  }

  /** The logical contents of a request. */
  ghost function Logical<V(!new)>(s: Store<V>, id: nat): (r: seq<V>)
    requires StoreOk(s) && id in s.tables
    ensures |r| == s.positions[id]
  {
    if s.arena.None? then [] else Held(s.geometry, s.arena.value, s.tables[id], s.positions[id])
  }

  /** Pages outside the table do not matter. */
  lemma HeldFrame<V(!new)>(g: Geometry, a: seq<seq<V>>, b: seq<seq<V>>, table: seq<nat>, n: nat)
    requires TableOk(g, n, table) && ArenaOk(g, Some(a)) && ArenaOk(g, Some(b))
    requires forall i :: 0 <= i < |table| ==> a[table[i]] == b[table[i]]
    ensures Held(g, a, table, n) == Held(g, b, table, n)
  {
    forall i: nat | i < n
      ensures HeldAt(g, a, table, n, i) == HeldAt(g, b, table, n, i)
    {
      PageInTable(i, n, g.block);
    }
  }

  /** A shorter table holds a prefix. */
  lemma HeldPrefix<V(!new)>(g: Geometry, a: seq<seq<V>>, table: seq<nat>, n: nat, m: nat)
    requires TableOk(g, n, table) && ArenaOk(g, Some(a)) && m <= n
    ensures CeilDiv(m, g.block) <= |table| && TableOk(g, m, table[..CeilDiv(m, g.block)])
    ensures Held(g, a, table[..CeilDiv(m, g.block)], m) == Held(g, a, table, n)[..m]
  {
    CeilDivMonotone(m, n, g.block);
    var short := table[..CeilDiv(m, g.block)];
    forall i: nat | i < m
      ensures HeldAt(g, a, short, m, i) == HeldAt(g, a, table, n, i)
    {
      PageInTable(i, m, g.block);
    }
  }

  /** Two positions of one table share neither page and slot. */
  lemma SlotsDiffer(i: nat, j: nat, n: nat, b: nat, table: seq<nat>)
    requires b > 0 && i < n && j < n && i != j && |table| == CeilDiv(n, b) && Distinct(table)
    ensures i / b < |table| && j / b < |table|
    ensures table[i / b] != table[j / b] || i % b != j % b
  {
    PageInTable(i, n, b);
    PageInTable(j, n, b);
    DivMod(i, b);
    DivMod(j, b);
    if i / b != j / b {
      assert table[i / b] != table[j / b];
    }
  }

  /** The arena with position `p` of a table written. */
  function WriteAt<V(!new)>(g: Geometry, a: seq<seq<V>>, table: seq<nat>, ghost n: nat, p: nat, v: V): seq<seq<V>>
    requires TableOk(g, n, table) && ArenaOk(g, Some(a)) && p < n
  {
    PageInTable(p, n, g.block);
    assert table[p / g.block] < g.pages;
    var page, slot := table[p / g.block], p % g.block;
    a[page := a[page][slot := v]]
  }

  /** A longer table holds the same at the positions of the shorter one. */
  lemma HeldLonger<V(!new)>(g: Geometry, a: seq<seq<V>>, short: seq<nat>, n: nat, table: seq<nat>, m: nat)
    requires ArenaOk(g, Some(a)) && TableOk(g, n, short) && TableOk(g, m, table) && short <= table && n <= m
    ensures Held(g, a, table, m)[..n] == Held(g, a, short, n)
  {
    forall i: nat | i < n
      ensures HeldAt(g, a, table, m, i) == HeldAt(g, a, short, n, i)
    {
      HeldAtLonger(g, a, short, n, table, m, i);
    }
  }

  lemma HeldAtLonger<V(!new)>(g: Geometry, a: seq<seq<V>>, short: seq<nat>, n: nat, table: seq<nat>, m: nat, i: nat)
    requires ArenaOk(g, Some(a)) && TableOk(g, n, short) && TableOk(g, m, table) && short <= table && i < n <= m
    ensures HeldAt(g, a, table, m, i) == HeldAt(g, a, short, n, i)
  {
    PageInTable(i, n, g.block);
    var page := i / g.block;
    assert short[page] == table[page];
  }

  lemma WriteOk<V(!new)>(g: Geometry, a: seq<seq<V>>, table: seq<nat>, n: nat, p: nat, v: V)
    requires ArenaOk(g, Some(a)) && TableOk(g, n, table) && p < n
    ensures ArenaOk(g, Some(WriteAt(g, a, table, n, p, v)))
  {
    PageInTable(p, n, g.block);
  }

  lemma WriteOne<V(!new)>(g: Geometry, a: seq<seq<V>>, table: seq<nat>, n: nat, p: nat, v: V, i: nat)
    requires ArenaOk(g, Some(a)) && TableOk(g, n, table) && p < n && i < n
    requires ArenaOk(g, Some(WriteAt(g, a, table, n, p, v)))
    ensures HeldAt(g, WriteAt(g, a, table, n, p, v), table, n, i) == if i == p then v else HeldAt(g, a, table, n, i)
  {
    PageInTable(p, n, g.block);
    PageInTable(i, n, g.block);
    if i != p {
      SlotsDiffer(i, p, n, g.block, table);
    }
  }

  /** Writing one position changes what is held there and nowhere else. */
  lemma HeldWrite<V(!new)>(g: Geometry, a: seq<seq<V>>, table: seq<nat>, n: nat, p: nat, v: V)
    requires ArenaOk(g, Some(a)) && TableOk(g, n, table) && p < n
    ensures var w := WriteAt(g, a, table, n, p, v);
      ArenaOk(g, Some(w)) && Held(g, w, table, n) == Held(g, a, table, n)[p := v]
  {
    WriteOk(g, a, table, n, p, v);
    var w := WriteAt(g, a, table, n, p, v);
    forall i: nat | i < n
      ensures HeldAt(g, w, table, n, i) == if i == p then v else HeldAt(g, a, table, n, i)
    {
      WriteOne(g, a, table, n, p, v, i);
    }
  }
}
