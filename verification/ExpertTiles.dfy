/** The tile map of the grouped expert kernels, and the search for a token's document. */
module ExpertTiles {
  import opened Arithmetic

  /** The tiles of the experts before `e`. */
  function Before(counts: seq<nat>, rows: nat, e: nat): nat
    requires rows > 0 && e <= |counts|
  {
    if e == 0 then 0 else Before(counts, rows, e - 1) + CeilDiv(counts[e - 1], rows)
  }

  lemma {:induction false} BeforeMonotone(counts: seq<nat>, rows: nat, d: nat, e: nat)
    requires rows > 0 && d <= e <= |counts|
    ensures Before(counts, rows, d) <= Before(counts, rows, e)
    decreases e
  {
    if d < e {
      BeforeMonotone(counts, rows, d, e - 1);
    }
  }

  lemma NextBefore(counts: seq<nat>, rows: nat, e: nat)
    requires rows > 0 && e < |counts|
    ensures Before(counts, rows, e + 1) == Before(counts, rows, e) + CeilDiv(counts[e], rows)
  {
  }

  ghost predicate IsTable(counts: seq<nat>, rows: nat, table: seq<nat>) {
    rows > 0 && |table| == |counts| + 1 && forall e: nat :: e < |table| ==> table[e] == Before(counts, rows, e)
  }

  /** `tile_table`: the exclusive prefix sums, the last entry being the total. */
  method TileTable(counts: seq<nat>, rows: nat) returns (table: seq<nat>)
    requires rows > 0
    ensures IsTable(counts, rows, table)
  {
    table := [0];
    for e := 0 to |counts|
      invariant |table| == e + 1
      invariant forall d: nat :: d < |table| ==> table[d] == Before(counts, rows, d)
    {
      var tiles := CeilDiv(counts[e], rows);
      NextBefore(counts, rows, e);
      table := table + [table[e] + tiles];
    }
  }

  /** The expert a tile belongs to: its interval of the prefix sums contains the tile. */
  ghost predicate Owns(counts: seq<nat>, rows: nat, e: nat, tile: nat) {
    rows > 0 && e < |counts| && Before(counts, rows, e) <= tile < Before(counts, rows, e + 1)
  }

  /** At most one expert owns a tile. */
  lemma OwnerUnique(counts: seq<nat>, rows: nat, d: nat, e: nat, tile: nat)
    requires Owns(counts, rows, d, tile) && Owns(counts, rows, e, tile)
    ensures d == e
  {
    if d < e {
      BeforeMonotone(counts, rows, d + 1, e);
    } else if e < d {
      BeforeMonotone(counts, rows, e + 1, d);
    }
  }

  /**
   `tile_expert`: as many halvings as the number of experts has bits find the owner. Experts without
   rows own no tile and are skipped.
   */
  method TileExpert(counts: seq<nat>, rows: nat, table: seq<nat>, tile: nat, steps: nat) returns (lo: nat)
    requires IsTable(counts, rows, table) && |counts| == Pow2(steps) && tile < table[|counts|]
    ensures Owns(counts, rows, lo, tile)
  {
    lo := 0;
    var hi := |counts| - 1;
    for i := 0 to steps
      invariant lo <= hi < |counts| && hi - lo + 1 <= Pow2(steps - i)
      invariant table[lo] <= tile < table[hi + 1]
    {
      var mid := (lo + hi + 1) / 2;
      if table[mid] <= tile {
        lo := mid;
      } else {
        hi := mid - 1;
      }
    }
    assert Pow2(0) == 1;
  }

  // ----- the tile loop -----

  /** What one round of the loop works on. */
  datatype Visit = Visit(tile: nat, expert: nat, rowBase: nat, colBase: nat)

  ghost predicate VisitOk(counts: seq<nat>, rows: nat, mTiles: nat, v: Visit) {
    && mTiles > 0 && Owns(counts, rows, v.expert, v.tile % mTiles)
    && v.rowBase == (v.tile % mTiles - Before(counts, rows, v.expert)) * rows
    && v.colBase == v.tile / mTiles * rows
  }

  /** The elements the round writes: the rows beyond the expert's count are masked. */
  ghost predicate Covers(counts: seq<nat>, rows: nat, v: Visit, e: nat, row: nat, col: nat) {
    && v.expert == e && e < |counts| && v.rowBase <= row < v.rowBase + rows && row < counts[e]
    && v.colBase <= col < v.colBase + rows
  }

  /** What one thread block does: it starts at its own index and strides by the number of blocks. */
  ghost predicate BlockOk(counts: seq<nat>, rows: nat, nTiles: nat, block: nat, grid: nat, visits: seq<Visit>) {
    rows > 0 &&
    var mTiles := Before(counts, rows, |counts|);
    && (forall i :: 0 <= i < |visits| ==> visits[i].tile == block + i * grid < mTiles * nTiles && VisitOk(counts, rows, mTiles, visits[i]))
    && block + |visits| * grid >= mTiles * nTiles
  }

  method BlockVisits(counts: seq<nat>, steps: nat, rows: nat, nTiles: nat, block: nat, grid: nat) returns (visits: seq<Visit>)
    requires rows > 0 && |counts| == Pow2(steps) && block < grid
    ensures BlockOk(counts, rows, nTiles, block, grid, visits)
  {
    var table := TileTable(counts, rows);
    var mTiles := table[|counts|];
    visits := [];
    var tile := block;
    while tile < mTiles * nTiles
      invariant tile == block + |visits| * grid
      invariant forall i :: 0 <= i < |visits| ==> visits[i].tile == block + i * grid < mTiles * nTiles && VisitOk(counts, rows, mTiles, visits[i])
      decreases mTiles * nTiles - tile
    {
      SomeTile(tile, mTiles, nTiles);
      var v := VisitTile(counts, steps, rows, table, tile);
      NextTile(block, |visits|, grid);
      visits := visits + [v];
      tile := tile + grid;
    }
  }

  method VisitTile(counts: seq<nat>, steps: nat, rows: nat, table: seq<nat>, tile: nat) returns (v: Visit)
    requires IsTable(counts, rows, table) && |counts| == Pow2(steps) && table[|counts|] > 0
    ensures v.tile == tile && VisitOk(counts, rows, table[|counts|], v)
  {
    var mTiles := table[|counts|];
    DivMod(tile, mTiles);
    var mTile: nat, column: nat := tile % mTiles, tile / mTiles;
    var expert := TileExpert(counts, rows, table, mTile, steps);
    var k: nat := mTile - table[expert];
    v := Visit(tile, expert, k * rows, column * rows);
  }

  lemma SomeTile(tile: nat, mTiles: nat, nTiles: nat)
    requires tile < mTiles * nTiles
    ensures mTiles > 0
  {
  }

  lemma NextTile(block: nat, i: nat, grid: nat)
    ensures block + i * grid + grid == block + (i + 1) * grid
  {
  }

  /** The visits of all blocks of a grid. */
  ghost predicate GridOk(counts: seq<nat>, rows: nat, nTiles: nat, visits: seq<seq<Visit>>) {
    |visits| > 0 && forall b: nat :: b < |visits| ==> BlockOk(counts, rows, nTiles, b, |visits|, visits[b])
  }

  /** Round `i` of block `b` works on the tile. */
  ghost predicate VisitedAt(visits: seq<seq<Visit>>, tile: nat, b: nat, i: nat) {
    b < |visits| && i < |visits[b]| && visits[b][i].tile == tile
  }

  /** Every tile is visited by exactly one block, in exactly one round. */
  lemma TileVisitedOnce(counts: seq<nat>, rows: nat, nTiles: nat, visits: seq<seq<Visit>>, tile: nat)
    requires rows > 0 && GridOk(counts, rows, nTiles, visits) && tile < Before(counts, rows, |counts|) * nTiles
    ensures VisitedAt(visits, tile, tile % |visits|, tile / |visits|)
    ensures forall b: nat, i: nat :: VisitedAt(visits, tile, b, i) ==> b == tile % |visits| && i == tile / |visits|
  {
    var grid := |visits|;
    DivMod(tile, grid);
    var b: nat, i: nat := tile % grid, tile / grid;
    assert BlockOk(counts, rows, nTiles, b, grid, visits[b]);
    RoundBelow(b, i, |visits[b]|, grid, Before(counts, rows, |counts|) * nTiles);
    forall c: nat, j: nat | VisitedAt(visits, tile, c, j)
      ensures c == b && j == i
    {
      assert BlockOk(counts, rows, nTiles, c, grid, visits[c]);
      DivModUnique(tile, j, c, grid);
    }
  }

  /** A tile in reach comes before the block's last round. */
  lemma RoundBelow(b: nat, i: nat, count: nat, grid: nat, total: nat)
    requires b + i * grid < total <= b + count * grid
    ensures i < count
  {
    MulAtLeast(i - count, grid);
    assert (i - count) * grid == i * grid - count * grid;
  }

  /** The one tile that covers an element. */
  function TileOf(counts: seq<nat>, rows: nat, e: nat, row: nat, col: nat): nat
    requires rows > 0 && e < |counts|
  {
    DivMod(col, rows);
    DivMod(row, rows);
    var c: nat, r: nat := col / rows, row / rows;
    c * Before(counts, rows, |counts|) + (Before(counts, rows, e) + r)
  }

  lemma RowTile(count: nat, rows: nat, row: nat)
    requires rows > 0 && row < count
    ensures row / rows < CeilDiv(count, rows)
  {
    DivMod(row, rows);
    DivMod(count + rows - 1, rows);
    MulAtLeast(row / rows - CeilDiv(count, rows), rows);
    var c := row / rows - CeilDiv(count, rows);
    assert c * rows == row / rows * rows - CeilDiv(count, rows) * rows;
    if c == 0 {
      assert false;
    }
  }

  lemma OwnedRow(counts: seq<nat>, rows: nat, e: nat, row: nat)
    requires rows > 0 && e < |counts| && row < counts[e]
    ensures Owns(counts, rows, e, Before(counts, rows, e) + row / rows)
    ensures Before(counts, rows, e) + row / rows < Before(counts, rows, |counts|)
  {
    RowTile(counts[e], rows, row);
    BeforeMonotone(counts, rows, e + 1, |counts|);
  }

  /** An element is covered by the visit of its tile ... */
  lemma ElementCovered(counts: seq<nat>, rows: nat, nTiles: nat, e: nat, row: nat, col: nat, v: Visit)
    requires rows > 0 && e < |counts| && row < counts[e] && col < nTiles * rows
    requires v.tile == TileOf(counts, rows, e, row, col) && VisitOk(counts, rows, Before(counts, rows, |counts|), v)
    ensures v.tile < Before(counts, rows, |counts|) * nTiles && Covers(counts, rows, v, e, row, col)
  {
    var m := Before(counts, rows, |counts|);
    var mTile := Before(counts, rows, e) + row / rows;
    OwnedRow(counts, rows, e, row);
    DivModUnique(v.tile, col / rows, mTile, m);
    OwnerUnique(counts, rows, e, v.expert, mTile);
    DivMod(row, rows);
    DivMod(col, rows);
    ColumnTile(col, rows, nTiles, m, mTile);
  }

  lemma ColumnTile(col: nat, rows: nat, nTiles: nat, m: nat, mTile: nat)
    requires rows > 0 && col < nTiles * rows && mTile < m
    ensures col / rows * m + mTile < m * nTiles
  {
    var q := col / rows;
    DivMod(col, rows);
    MulAtLeast(q - nTiles, rows);
    assert (q - nTiles) * rows == q * rows - nTiles * rows;
    assert q < nTiles;
    MulAtLeast(nTiles - q, m);
    assert (nTiles - q) * m == nTiles * m - q * m;
  }

  /** ... and by no other. */
  lemma ElementCoveredOnce(counts: seq<nat>, rows: nat, e: nat, row: nat, col: nat, v: Visit)
    requires rows > 0 && e < |counts|
    requires VisitOk(counts, rows, Before(counts, rows, |counts|), v) && Covers(counts, rows, v, e, row, col)
    ensures v.tile == TileOf(counts, rows, e, row, col)
  {
    var m := Before(counts, rows, |counts|);
    var k := v.tile % m - Before(counts, rows, e);
    DivModUnique(row, k, row - v.rowBase, rows);
    DivModUnique(col, v.tile / m, col - v.colBase, rows);
    DivMod(v.tile, m);
  }

  lemma TileInReach(counts: seq<nat>, rows: nat, nTiles: nat, e: nat, row: nat, col: nat)
    requires rows > 0 && e < |counts| && row < counts[e] && col < nTiles * rows
    ensures TileOf(counts, rows, e, row, col) < Before(counts, rows, |counts|) * nTiles
  {
    OwnedRow(counts, rows, e, row);
    ColumnTile(col, rows, nTiles, Before(counts, rows, |counts|), Before(counts, rows, e) + row / rows);
  }

  /** Round `i` of block `b` writes the element. */
  ghost predicate CoveredAt(counts: seq<nat>, rows: nat, visits: seq<seq<Visit>>, e: nat, row: nat, col: nat, b: nat, i: nat) {
    b < |visits| && i < |visits[b]| && Covers(counts, rows, visits[b][i], e, row, col)
  }

  /** One round of one block writes the element, and no other. */
  ghost predicate WrittenOnce(counts: seq<nat>, rows: nat, visits: seq<seq<Visit>>, e: nat, row: nat, col: nat) {
    exists b: nat, i: nat ::
      && CoveredAt(counts, rows, visits, e, row, col, b, i)
      && forall c: nat, j: nat :: CoveredAt(counts, rows, visits, e, row, col, c, j) ==> c == b && j == i
  }

  lemma ElementWrittenOnce(counts: seq<nat>, rows: nat, nTiles: nat, visits: seq<seq<Visit>>, e: nat, row: nat, col: nat)
    requires rows > 0 && GridOk(counts, rows, nTiles, visits)
    requires e < |counts| && row < counts[e] && col < nTiles * rows
    ensures WrittenOnce(counts, rows, visits, e, row, col)
  {
    var tile, grid := TileOf(counts, rows, e, row, col), |visits|;
    TileInReach(counts, rows, nTiles, e, row, col);
    TileVisitedOnce(counts, rows, nTiles, visits, tile);
    DivMod(tile, grid);
    var b: nat, i: nat := tile % grid, tile / grid;
    assert VisitedAt(visits, tile, b, i);
    assert BlockOk(counts, rows, nTiles, b, grid, visits[b]);
    ElementCovered(counts, rows, nTiles, e, row, col, visits[b][i]);
    forall c: nat, j: nat | CoveredAt(counts, rows, visits, e, row, col, c, j)
      ensures c == b && j == i
    {
      assert BlockOk(counts, rows, nTiles, c, grid, visits[c]);
      ElementCoveredOnce(counts, rows, e, row, col, visits[c][j]);
      assert VisitedAt(visits, tile, c, j);
    }
    assert CoveredAt(counts, rows, visits, e, row, col, b, i);
  }

  /** Nothing outside the output's columns is written. */
  lemma OnlyColumnsWritten(counts: seq<nat>, rows: nat, nTiles: nat, visits: seq<seq<Visit>>, e: nat, row: nat, col: nat, b: nat, i: nat)
    requires rows > 0 && GridOk(counts, rows, nTiles, visits) && CoveredAt(counts, rows, visits, e, row, col, b, i)
    ensures col < nTiles * rows
  {
    assert BlockOk(counts, rows, nTiles, b, |visits|, visits[b]);
    var v, m := visits[b][i], Before(counts, rows, |counts|);
    DivMod(v.tile, m);
    var q: nat := v.tile / m;
    ColumnInside(v.tile, q, v.tile % m, m, nTiles, rows);
    assert v.colBase == q * rows;
  }

  lemma ColumnInside(tile: nat, q: nat, r: nat, m: nat, nTiles: nat, rows: nat)
    requires tile == q * m + r && tile < m * nTiles
    ensures q * rows + rows <= nTiles * rows
  {
    RoundBelow(r, q, nTiles, m, tile + 1) by {
      assert nTiles * m == m * nTiles;
    }
    MulMonotone(q + 1, nTiles, rows);
    assert (q + 1) * rows == q * rows + rows;
  }

  /**
   The tile loop of the whole grid: whatever the counts, zeros included, and whatever the number of
   blocks, every row below its expert's count is written in every column exactly once, and nothing else is.
   */
  method GridVisits(counts: seq<nat>, steps: nat, rows: nat, nTiles: nat, grid: nat) returns (visits: seq<seq<Visit>>)
    requires rows > 0 && |counts| == Pow2(steps) && grid > 0
    ensures |visits| == grid && GridOk(counts, rows, nTiles, visits)
    ensures forall e: nat, row: nat, col: nat :: e < |counts| && row < counts[e] && col < nTiles * rows ==>
      WrittenOnce(counts, rows, visits, e, row, col)
    ensures forall e: nat, row: nat, col: nat, b: nat, i: nat :: CoveredAt(counts, rows, visits, e, row, col, b, i) ==>
      e < |counts| && row < counts[e] && col < nTiles * rows
  {
    visits := [];
    for block := 0 to grid
      invariant |visits| == block
      invariant forall b: nat :: b < block ==> BlockOk(counts, rows, nTiles, b, grid, visits[b])
    {
      var one := BlockVisits(counts, steps, rows, nTiles, block, grid);
      visits := visits + [one];
    }
    forall e: nat, row: nat, col: nat | e < |counts| && row < counts[e] && col < nTiles * rows
      ensures WrittenOnce(counts, rows, visits, e, row, col)
    {
      ElementWrittenOnce(counts, rows, nTiles, visits, e, row, col);
    }
    forall e: nat, row: nat, col: nat, b: nat, i: nat | CoveredAt(counts, rows, visits, e, row, col, b, i)
      ensures e < |counts| && row < counts[e] && col < nTiles * rows
    {
      OnlyColumnsWritten(counts, rows, nTiles, visits, e, row, col, b, i);
    }
  }

  // ----- documents -----

  /** The end of document `d` in the schedule of six numbers each. */
  function End(schedule: seq<nat>, d: nat): nat
    requires 6 * d + 1 < |schedule|
  {
    schedule[d * 6 + 1]
  }

  predicate EndsAround(schedule: seq<nat>, token: nat, documents: nat, d: nat)
    requires |schedule| == documents * 6 && d <= documents
  {
    (d < documents ==> token < End(schedule, d)) && (d > 0 ==> End(schedule, d - 1) <= token)
  }

  /** `document`: the first document that ends after the token, or the end of the schedule. */
  method Document(schedule: seq<nat>, token: nat, documents: nat) returns (record: nat)
    requires |schedule| == documents * 6
    requires forall a: nat, b: nat :: a <= b < documents ==> End(schedule, a) <= End(schedule, b)
    ensures exists d: nat :: d <= documents && record == d * 6 && EndsAround(schedule, token, documents, d)
  {
    var low: nat, high: nat := 0, documents;
    while low < high
      invariant low <= high <= documents
      invariant low > 0 ==> End(schedule, low - 1) <= token
      invariant high < documents ==> token < End(schedule, high)
    {
      var middle := (low + high) / 2;
      if token >= schedule[middle * 6 + 1] {
        low := middle + 1;
      } else {
        high := middle;
      }
    }
    assert EndsAround(schedule, token, documents, low);
    record := low * 6;
  }
}
