/**
 Physical-page bookkeeping of the paged KV cache, with prefix caching off: which pages a sequence
 holds, how many tokens it has committed, and the reserve/commit/cancel protocol of an append.
 */
module PagedKv {
  import opened Wrappers
  import opened Arithmetic

  datatype Sequence = Sequence(committed: nat, pages: seq<nat>, pending: Option<nat>)

  datatype Reservation = Reservation(request: nat, previousPages: nat, start: nat, count: nat)

  datatype Config = Config(blockSize: nat, numPages: nat, maxLength: nat)

  /** The manager's fields; `slot` says which position of which table holds a page. */
  datatype Cache = Cache(
    config: Config,
    free: set<nat>,
    sequences: map<nat, Sequence>,
    reservations: map<nat, Reservation>,
    nextReservation: nat,
    slot: map<nat, (nat, nat)>)

  // ----- invariant -----

  ghost predicate PagesOk(k: Cache) {
    && (forall id, i :: id in k.sequences && 0 <= i < |k.sequences[id].pages| ==>
      k.sequences[id].pages[i] in k.slot && k.slot[k.sequences[id].pages[i]] == (id, i))
    && (forall p :: p in k.slot ==>
      && k.slot[p].0 in k.sequences && k.slot[p].1 < |k.sequences[k.slot[p].0].pages|
      && k.sequences[k.slot[p].0].pages[k.slot[p].1] == p)
    && (forall p :: p in k.slot ==> p !in k.free)
    && (forall p :: 0 <= p < k.config.numPages <==> p in k.slot || p in k.free)
  }

  ghost predicate SequenceOk(k: Cache, id: nat)
    requires id in k.sequences && k.config.blockSize > 0
  {
    var s := k.sequences[id];
    match s.pending
    case None => |s.pages| == CeilDiv(s.committed, k.config.blockSize) && s.committed <= k.config.maxLength
    case Some(r) =>
      && r in k.reservations && r < k.nextReservation
      && var v := k.reservations[r];
         && v.request == id && v.start == s.committed && v.count > 0 && v.start + v.count <= k.config.maxLength
         && v.previousPages == CeilDiv(s.committed, k.config.blockSize)
         && |s.pages| == CeilDiv(v.start + v.count, k.config.blockSize)
  }

  ghost predicate CacheOk(k: Cache) {
    && k.config.blockSize > 0
    && PagesOk(k)
    && (forall id :: id in k.sequences ==> SequenceOk(k, id))
    && (forall r :: r in k.reservations ==>
      && r < k.nextReservation && k.reservations[r].request in k.sequences
      && k.sequences[k.reservations[r].request].pending == Some(r))
  }

  /**
   `CacheOk` behind a recursion, so that code which only passes the invariant on does not see its
   quantifiers; `SoundIsOk` opens it.
   */
  ghost predicate SoundAt(depth: nat, k: Cache) {
    if depth == 0 then CacheOk(k) else SoundAt(depth - 1, k)
  }

  ghost predicate Sound(k: Cache) {
    k.config.blockSize > 0 && SoundAt(1 + |k.free|, k)
  }

  lemma {:induction false} SoundAtIsOk(depth: nat, k: Cache)
    ensures SoundAt(depth, k) <==> CacheOk(k)
  {
    if depth > 0 {
      SoundAtIsOk(depth - 1, k);
    }
  }

  lemma SoundIsOk(k: Cache)
    ensures Sound(k) <==> CacheOk(k)
  {
    SoundAtIsOk(1 + |k.free|, k);
  }

  predicate CanAppend(k: Cache, id: nat, count: nat)
    requires k.config.blockSize > 0
  {
    && id in k.sequences && count > 0 && k.sequences[id].pending.None?
    && k.sequences[id].committed + count <= k.config.maxLength
    && CeilDiv(k.sequences[id].committed + count, k.config.blockSize) <= |k.free| + |k.sequences[id].pages|
  }

  // ----- transitions on values -----

  function PageSet(pages: seq<nat>): set<nat> {
    set i | 0 <= i < |pages| :: pages[i]
  }

  /** Keep the first `count` pages of a table and set the sequence's other fields. */
  ghost function Shrink(k: Cache, id: nat, count: nat, committed: nat, reservations: map<nat, Reservation>): Cache
    requires id in k.sequences && count <= |k.sequences[id].pages|
  {
    var released := PageSet(k.sequences[id].pages[count..]);
    k.(sequences := k.sequences[id := Sequence(committed, k.sequences[id].pages[..count], None)],
       reservations := reservations, free := k.free + released, slot := k.slot - released)
  }

  ghost function Drop(k: Cache, id: nat): Cache
    requires id in k.sequences
  {
    var released := PageSet(k.sequences[id].pages);
    k.(sequences := k.sequences - {id}, free := k.free + released, slot := k.slot - released)
  }

  lemma InPageSet(pages: seq<nat>, i: nat)
    requires i < |pages|
    ensures pages[i] in PageSet(pages)
  {
  }

  lemma ReleasedPages(k: Cache, id: nat, count: nat)
    requires PagesOk(k) && id in k.sequences && count <= |k.sequences[id].pages|
    ensures forall p :: p in PageSet(k.sequences[id].pages[count..]) <==> p in k.slot && k.slot[p].0 == id && count <= k.slot[p].1
  {
    var pages := k.sequences[id].pages;
    forall p
      ensures p in PageSet(pages[count..]) <==> p in k.slot && k.slot[p].0 == id && count <= k.slot[p].1
    {
      if p in PageSet(pages[count..]) {
        var i :| 0 <= i < |pages[count..]| && pages[count..][i] == p;
        assert pages[count + i] == p;
      }
      if p in k.slot && k.slot[p].0 == id && count <= k.slot[p].1 {
        assert pages[count..][k.slot[p].1 - count] == p;
        InPageSet(pages[count..], k.slot[p].1 - count);
      }
    }
  }

  lemma ShrinkPagesOk(k: Cache, id: nat, count: nat, committed: nat, reservations: map<nat, Reservation>)
    requires PagesOk(k) && id in k.sequences && count <= |k.sequences[id].pages|
    ensures PagesOk(Shrink(k, id, count, committed, reservations))
  {
    ReleasedPages(k, id, count);
  }

  lemma DropPagesOk(k: Cache, id: nat)
    requires PagesOk(k) && id in k.sequences
    ensures PagesOk(Drop(k, id))
  {
    ReleasedPages(k, id, 0);
    assert k.sequences[id].pages[0..] == k.sequences[id].pages;
  }

  /** Settling a reservation with any number of committed tokens keeps the cache consistent. */
  lemma SettleOk(k: Cache, r: nat, count: nat)
    requires CacheOk(k) && r in k.reservations && count <= k.reservations[r].count
    ensures var v := k.reservations[r];
      && CeilDiv(v.start + count, k.config.blockSize) <= |k.sequences[v.request].pages|
      && CacheOk(Shrink(k, v.request, CeilDiv(v.start + count, k.config.blockSize), v.start + count, k.reservations - {r}))
  {
    var v := k.reservations[r];
    assert SequenceOk(k, v.request);
    CeilDivMonotone(v.start + count, v.start + v.count, k.config.blockSize);
    var pages := CeilDiv(v.start + count, k.config.blockSize);
    ShrinkPagesOk(k, v.request, pages, v.start + count, k.reservations - {r});
    var k' := Shrink(k, v.request, pages, v.start + count, k.reservations - {r});
    forall id | id in k'.sequences
      ensures SequenceOk(k', id)
    {
      assert SequenceOk(k, id);
    }
  }

  lemma CreateOk(k: Cache, id: nat)
    requires CacheOk(k) && id !in k.sequences
    ensures CacheOk(k.(sequences := k.sequences[id := Sequence(0, [], None)]))
  {
    var k' := k.(sequences := k.sequences[id := Sequence(0, [], None)]);
    forall x | x in k'.sequences
      ensures SequenceOk(k', x)
    {
      assert x != id ==> SequenceOk(k, x);
    }
  }

  lemma DropOk(k: Cache, id: nat)
    requires CacheOk(k) && id in k.sequences && k.sequences[id].pending.None?
    ensures CacheOk(Drop(k, id))
  {
    DropPagesOk(k, id);
    var k' := Drop(k, id);
    forall x | x in k'.sequences
      ensures SequenceOk(k', x)
    {
      assert SequenceOk(k, x);
    }
  }

  /** A page moves from the free set to the end of a table. */
  ghost function Take(k: Cache, id: nat, page: nat): Cache
    requires id in k.sequences
  {
    var s := k.sequences[id];
    k.(free := k.free - {page}, slot := k.slot[page := (id, |s.pages|)],
       sequences := k.sequences[id := s.(pages := s.pages + [page])])
  }

  lemma TakePagesOk(k: Cache, id: nat, page: nat)
    requires PagesOk(k) && id in k.sequences && page in k.free
    ensures PagesOk(Take(k, id, page))
  {
    var k' := Take(k, id, page);
    assert page !in k.slot;
    forall x, i | x in k'.sequences && 0 <= i < |k'.sequences[x].pages|
      ensures k'.sequences[x].pages[i] in k'.slot && k'.slot[k'.sequences[x].pages[i]] == (x, i)
    {
      if x != id || i < |k.sequences[id].pages| {
        assert k'.sequences[x].pages[i] == k.sequences[x].pages[i];
      }
    }
  }

  ghost function TakeAll(k: Cache, id: nat, pages: seq<nat>): Cache
    requires id in k.sequences
    ensures id in TakeAll(k, id, pages).sequences
  {
    if pages == [] then k
    else Take(TakeAll(k, id, pages[..|pages| - 1]), id, pages[|pages| - 1])
  }

  ghost predicate Ascending(pages: seq<nat>) {
    forall i, j :: 0 <= i < j < |pages| ==> pages[i] < pages[j]
  }

  lemma {:induction false} TakeAllEffect(k: Cache, id: nat, pages: seq<nat>)
    requires id in k.sequences && Ascending(pages)
    ensures var k' := TakeAll(k, id, pages);
      && k'.free == k.free - PageSet(pages)
      && k' == k.(free := k'.free, slot := k'.slot,
                  sequences := k.sequences[id := k.sequences[id].(pages := k.sequences[id].pages + pages)])
  {
    if pages == [] {
      assert k.sequences[id].pages + pages == k.sequences[id].pages;
      assert k.sequences[id := k.sequences[id]] == k.sequences;
    } else {
      var front, last := pages[..|pages| - 1], pages[|pages| - 1];
      LastPage(pages);
      TakeAllEffect(k, id, front);
      assert (k.sequences[id].pages + front) + [last] == k.sequences[id].pages + pages;
    }
  }

  lemma {:induction false} TakeAllOk(k: Cache, id: nat, pages: seq<nat>)
    requires PagesOk(k) && id in k.sequences && Ascending(pages) && PageSet(pages) <= k.free
    ensures PagesOk(TakeAll(k, id, pages))
  {
    if pages != [] {
      var front, last := pages[..|pages| - 1], pages[|pages| - 1];
      LastPage(pages);
      TakeAllOk(k, id, front);
      TakeAllEffect(k, id, front);
      TakePagesOk(TakeAll(k, id, front), id, last);
    }
  }

  lemma LastPage(pages: seq<nat>)
    requires pages != [] && Ascending(pages)
    ensures var front, last := pages[..|pages| - 1], pages[|pages| - 1];
      PageSet(pages) == PageSet(front) + {last} && last !in PageSet(front) && Ascending(front)
  {
    var front, last := pages[..|pages| - 1], pages[|pages| - 1];
    forall p | p in PageSet(pages)
      ensures p in PageSet(front) + {last}
    {
      var i :| 0 <= i < |pages| && pages[i] == p;
      if i < |front| {
        InPageSet(front, i);
      }
    }
  }

  /** The page invariant looks at the tables, not at committed lengths or reservations. */
  lemma PagesOkFrame(k: Cache, k': Cache)
    requires PagesOk(k) && k'.config == k.config && k'.free == k.free && k'.slot == k.slot
    requires k'.sequences.Keys == k.sequences.Keys
    requires forall id :: id in k.sequences ==> k'.sequences[id].pages == k.sequences[id].pages
    ensures PagesOk(k')
  {
  }

  /** What a successful reservation changes. */
  ghost predicate Reserved(k: Cache, k': Cache, id: nat, count: nat, r: nat) {
    && k.config.blockSize > 0 && CanAppend(k, id, count) && k'.config == k.config
    && r == k.nextReservation && r !in k.reservations
    && k'.sequences.Keys == k.sequences.Keys
    && (forall x :: x in k.sequences && x != id ==> k'.sequences[x] == k.sequences[x])
    && k'.sequences[id].committed == k.sequences[id].committed && k'.sequences[id].pending == Some(r)
    && k.sequences[id].pages <= k'.sequences[id].pages && |k'.free| <= |k.free|
    && k'.reservations == k.reservations[r := Reservation(id, |k.sequences[id].pages|, k.sequences[id].committed, count)]
  }

  /** The state after reserving `count` tokens with the given new pages. */
  ghost function Reserve(k: Cache, id: nat, count: nat, pages: seq<nat>): Cache
    requires id in k.sequences
  {
    var s := k.sequences[id];
    k.(free := k.free - PageSet(pages), slot := TakeAll(k, id, pages).slot, nextReservation := k.nextReservation + 1,
       sequences := k.sequences[id := Sequence(s.committed, s.pages + pages, Some(k.nextReservation))],
       reservations := k.reservations[k.nextReservation := Reservation(id, |s.pages|, s.committed, count)])
  }

  lemma ReserveSequences(k: Cache, id: nat, count: nat, pages: seq<nat>)
    requires CacheOk(k) && CanAppend(k, id, count)
    requires |k.sequences[id].pages| + |pages| == CeilDiv(k.sequences[id].committed + count, k.config.blockSize)
    ensures forall x :: x in Reserve(k, id, count, pages).sequences ==> SequenceOk(Reserve(k, id, count, pages), x)
  {
    var k' := Reserve(k, id, count, pages);
    assert SequenceOk(k, id);
    forall x | x in k'.sequences
      ensures SequenceOk(k', x)
    {
      assert SequenceOk(k, x);
    }
  }

  lemma ReserveOk(k: Cache, id: nat, count: nat, pages: seq<nat>)
    requires CacheOk(k) && CanAppend(k, id, count) && Ascending(pages) && PageSet(pages) <= k.free
    requires |k.sequences[id].pages| + |pages| == CeilDiv(k.sequences[id].committed + count, k.config.blockSize)
    ensures CacheOk(Reserve(k, id, count, pages))
  {
    var k' := Reserve(k, id, count, pages);
    TakeAllOk(k, id, pages);
    TakeAllEffect(k, id, pages);
    PagesOkFrame(TakeAll(k, id, pages), k');
    ReserveSequences(k, id, count, pages);
  }

  lemma ReserveReserves(k: Cache, id: nat, count: nat, pages: seq<nat>)
    requires k.config.blockSize > 0 && CanAppend(k, id, count) && k.nextReservation !in k.reservations
    ensures Reserved(k, Reserve(k, id, count, pages), id, count, k.nextReservation)
  {
    SubsetSize(k.free - PageSet(pages), k.free);
  }

  /** With nobody else holding pages, an append fits whenever the whole pool would be enough. */
  lemma LoneHolderCanAppend(k: Cache, id: nat, count: nat)
    requires CacheOk(k) && id in k.sequences && count > 0 && k.sequences[id].pending.None?
    requires k.sequences[id].committed + count <= k.config.maxLength <= k.config.numPages * k.config.blockSize
    requires forall x :: x in k.sequences && x != id ==> k.sequences[x].pages == []
    ensures CanAppend(k, id, count)
  {
    var held := PageSet(k.sequences[id].pages);
    var all := Below(k.config.numPages);
    forall p | p in all
      ensures p in k.free + held
    {
      if p !in k.free {
        InPageSet(k.sequences[id].pages, k.slot[p].1);
      }
    }
    assert all <= k.free + held;
    SubsetSize(all, k.free + held);
    PageSetSize(k.sequences[id].pages);
    CeilDivAtMost(k.sequences[id].committed + count, k.config.blockSize, k.config.numPages);
  }

  lemma {:induction false} PageSetSize(pages: seq<nat>)
    ensures |PageSet(pages)| <= |pages|
  {
    if pages != [] {
      var front := pages[..|pages| - 1];
      PageSetSize(front);
      assert PageSet(pages) <= PageSet(front) + {pages[|pages| - 1]};
      SubsetSize(PageSet(pages), PageSet(front) + {pages[|pages| - 1]});
    }
  }

  // ----- the manager -----

  ghost predicate Least(s: set<nat>, x: nat) {
    x in s && forall y :: y in s ==> x <= y
  }

  lemma {:induction false} MinExists(s: set<nat>)
    requires s != {}
    ensures exists x :: Least(s, x)
  {
    var x :| x in s;
    var rest := s - {x};
    assert s == rest + {x};
    if rest == {} {
      assert Least(s, x);
    } else {
      MinExists(rest);
      var m :| Least(rest, m);
      assert Least(s, if x <= m then x else m);
    }
  }

  /** `BTreeSet::pop_first`. */
  method PopFirst(s: set<nat>) returns (x: nat)
    requires s != {}
    ensures x in s && forall y :: y in s ==> x <= y
  {
    MinExists(s);
    assert exists x :: x in s && forall y :: y in s ==> x <= y by {
      var m :| Least(s, m);
      assert m in s && forall y :: y in s ==> m <= y;
    }
    x :| x in s && forall y :: y in s ==> x <= y;
  }

  /** The pages that left `before` are the lowest ones. */
  ghost predicate LowestTaken(before: set<nat>, after: set<nat>) {
    forall p, q :: p in before - after && q in after ==> p < q
  }

  lemma TakenAreLowest(free: set<nat>, pages: seq<nat>)
    requires forall i, q :: 0 <= i < |pages| && q in free - PageSet(pages) ==> pages[i] < q
    ensures LowestTaken(free, free - PageSet(pages))
  {
  }

  lemma TakeOneLowest(free: set<nat>, pages: seq<nat>, page: nat)
    requires Ascending(pages) && page in free - PageSet(pages)
    requires forall i, q :: 0 <= i < |pages| && q in free - PageSet(pages) ==> pages[i] < q
    requires forall q :: q in free - PageSet(pages) ==> page <= q
    ensures Ascending(pages + [page]) && PageSet(pages + [page]) == PageSet(pages) + {page}
    ensures forall i, q :: 0 <= i < |pages + [page]| && q in free - PageSet(pages + [page]) ==> (pages + [page])[i] < q
  {
    var longer := pages + [page];
    assert forall i :: 0 <= i < |pages| ==> pages[i] < page;
    assert Ascending(longer) && longer[..|longer| - 1] == pages;
    LastPage(longer);
    forall i, q | 0 <= i < |longer| && q in free - PageSet(longer)
      ensures longer[i] < q
    {
      assert q in free - PageSet(pages) && q != page;
      if i < |pages| {
        assert longer[i] == pages[i];
      }
    }
  }

  method TakeLowest(free: set<nat>, count: nat) returns (pages: seq<nat>, rest: set<nat>)
    requires count <= |free|
    ensures |pages| == count && Ascending(pages)
    ensures PageSet(pages) <= free && rest == free - PageSet(pages) && LowestTaken(free, rest)
  {
    pages, rest := [], free;
    while |pages| < count
      invariant |pages| <= count && |rest| == |free| - |pages| && Ascending(pages)
      invariant PageSet(pages) <= free && rest == free - PageSet(pages)
      invariant forall i, q :: 0 <= i < |pages| && q in free - PageSet(pages) ==> pages[i] < q
    {
      var page := PopFirst(rest);
      TakeOneLowest(free, pages, page);
      pages, rest := pages + [page], rest - {page};
    }
    TakenAreLowest(free, pages);
  }

  ghost predicate DistinctReservations(rows: seq<(nat, nat)>) {
    forall i, j :: 0 <= i < j < |rows| ==> rows[i].0 != rows[j].0
  }

  /** A group of reservations that can be settled, each with its number of committed tokens. */
  ghost predicate GroupOk(k: Cache, rows: seq<(nat, nat)>) {
    && DistinctReservations(rows)
    && forall i :: 0 <= i < |rows| ==>
      && rows[i].0 in k.reservations && rows[i].1 <= k.reservations[rows[i].0].count
      && k.reservations[rows[i].0].request in k.sequences
  }

  /** The sequence keeps exactly its first pages, as many as its committed tokens need. */
  ghost predicate KeepsPages(k: Cache, k': Cache, id: nat, committed: nat) {
    && k.config.blockSize > 0 && id in k.sequences && id in k'.sequences
    && var keep := CeilDiv(committed, k.config.blockSize);
      keep <= |k.sequences[id].pages| && k'.sequences[id].pages == k.sequences[id].pages[..keep]
  }

  /** No table grows: what is left of each is a front part of what it was. */
  ghost predicate Trimmed(k: Cache, k': Cache) {
    forall id :: id in k'.sequences ==> id in k.sequences && k'.sequences[id].pages <= k.sequences[id].pages
  }

  /** The reservation is gone, its tokens are committed, and only the pages they need are kept. */
  ghost predicate RowSettled(k: Cache, k': Cache, row: (nat, nat)) {
    && row.0 in k.reservations && row.0 !in k'.reservations
    && var v := k.reservations[row.0];
      && v.request in k'.sequences && k'.sequences[v.request].committed == v.start + row.1
      && k'.sequences[v.request].pending == None && KeepsPages(k, k', v.request, v.start + row.1)
  }

  /** Rows before `i` are settled, the others and everybody else are as they were. */
  ghost predicate GroupSettled(k: Cache, k': Cache, rows: seq<(nat, nat)>, i: nat)
    requires GroupOk(k, rows)
  {
    && k'.config == k.config && k'.nextReservation == k.nextReservation
    && k'.sequences.Keys == k.sequences.Keys
    && (forall r :: r in k'.reservations ==> r in k.reservations && k'.reservations[r] == k.reservations[r])
    && (forall j :: 0 <= j < i && j < |rows| ==> RowSettled(k, k', rows[j]))
    && (forall j :: i <= j < |rows| ==> rows[j].0 in k'.reservations)
    && (forall x :: x in k.sequences && !SettledIn(k, rows, i, x) ==> k'.sequences[x] == k.sequences[x])
  }

  ghost predicate SettledIn(k: Cache, rows: seq<(nat, nat)>, i: nat, id: nat)
    requires GroupOk(k, rows)
  {
    exists j :: 0 <= j < i && j < |rows| && k.reservations[rows[j].0].request == id
  }

  /** One settled reservation, as the manager's `Settle` leaves it. */
  ghost predicate OneSettled(k: Cache, k': Cache, r: nat, count: nat)
    requires r in k.reservations
  {
    var v := k.reservations[r];
    && k'.sequences.Keys == k.sequences.Keys && v.request in k.sequences
    && (forall x :: x in k.sequences && x != v.request ==> k'.sequences[x] == k.sequences[x])
    && k'.sequences[v.request].committed == v.start + count && k'.sequences[v.request].pending == None
    && KeepsPages(k, k', v.request, v.start + count)
    && k'.reservations == k.reservations - {r}
    && k'.config == k.config && k'.nextReservation == k.nextReservation
  }

  lemma TrimmedThen(k: Cache, k': Cache, k'': Cache)
    requires Trimmed(k, k') && Trimmed(k', k'')
    ensures Trimmed(k, k'')
  {
  }

  lemma FewerTrimmed(k: Cache, k': Cache, id: nat)
    requires k'.sequences == k.sequences || k'.sequences == k.sequences - {id}
    ensures Trimmed(k, k')
  {
  }

  lemma OneTrimmed(k: Cache, k': Cache, r: nat, count: nat)
    requires r in k.reservations && OneSettled(k, k', r, count)
    ensures Trimmed(k, k')
  {
  }

  lemma GroupTrimmed(k: Cache, k': Cache, rows: seq<(nat, nat)>)
    requires GroupOk(k, rows) && GroupSettled(k, k', rows, |rows|)
    ensures Trimmed(k, k')
  {
    forall id | id in k'.sequences
      ensures id in k.sequences && k'.sequences[id].pages <= k.sequences[id].pages
    {
      if SettledIn(k, rows, |rows|, id) {
        var j :| 0 <= j < |rows| && k.reservations[rows[j].0].request == id;
        assert RowSettled(k, k', rows[j]);
      }
    }
  }

  ghost predicate DistinctRequests(k: Cache, rows: seq<(nat, nat)>)
    requires GroupOk(k, rows)
  {
    forall i, j :: 0 <= i < j < |rows| ==> k.reservations[rows[i].0].request != k.reservations[rows[j].0].request
  }

  lemma RequestsAreDistinct(k: Cache, rows: seq<(nat, nat)>)
    requires CacheOk(k) && GroupOk(k, rows)
    ensures DistinctRequests(k, rows)
  {
    forall i, j | 0 <= i < j < |rows|
      ensures k.reservations[rows[i].0].request != k.reservations[rows[j].0].request
    {
      assert k.sequences[k.reservations[rows[i].0].request].pending == Some(rows[i].0);
      assert k.sequences[k.reservations[rows[j].0].request].pending == Some(rows[j].0);
    }
  }

  lemma SettleNext(k: Cache, k': Cache, k'': Cache, rows: seq<(nat, nat)>, i: nat)
    requires GroupOk(k, rows) && DistinctRequests(k, rows) && GroupSettled(k, k', rows, i) && i < |rows|
    requires rows[i].0 in k'.reservations && OneSettled(k', k'', rows[i].0, rows[i].1)
    ensures GroupSettled(k, k'', rows, i + 1)
  {
    SettledSoFar(k, k', k'', rows, i);
    forall x | x in k.sequences && !SettledIn(k, rows, i + 1, x)
      ensures k''.sequences[x] == k.sequences[x]
    {
      assert x != k.reservations[rows[i].0].request && !SettledIn(k, rows, i, x);
    }
  }

  /** The reservations settled before keep their results. */
  lemma SettledSoFar(k: Cache, k': Cache, k'': Cache, rows: seq<(nat, nat)>, i: nat)
    requires GroupOk(k, rows) && DistinctRequests(k, rows) && GroupSettled(k, k', rows, i) && i < |rows|
    requires rows[i].0 in k'.reservations && OneSettled(k', k'', rows[i].0, rows[i].1)
    ensures forall j :: 0 <= j < i + 1 ==> RowSettled(k, k'', rows[j])
  {
    assert !SettledIn(k, rows, i, k.reservations[rows[i].0].request);
    forall j | 0 <= j < i + 1
      ensures RowSettled(k, k'', rows[j])
    {
      assert j < i ==> RowSettled(k, k', rows[j]);
    }
  }

  /** Settling with no committed token undoes a reservation. */
  function Rollbacks(ids: seq<nat>): seq<(nat, nat)> {
    seq(|ids|, (i: nat) requires i < |ids| => (ids[i], 0))
  }

  class Manager {
    const config: Config
    var free: set<nat>
    var sequences: map<nat, Sequence>
    var reservations: map<nat, Reservation>
    var nextReservation: nat
    ghost var slot: map<nat, (nat, nat)>

    ghost function Snapshot(): Cache
      reads this
    {
      Cache(config, free, sequences, reservations, nextReservation, slot)
    }

    ghost predicate Valid()
      reads this
    {
      Sound(Snapshot())
    }

    constructor (config: Config)
      requires config.blockSize > 0 && config.numPages > 0 && config.maxLength > 0
      ensures Valid() && this.config == config
      ensures sequences == map[] && reservations == map[] && free == Below(config.numPages)
    {
      this.config := config;
      free := Below(config.numPages);
      sequences := map[];
      reservations := map[];
      nextReservation := 1;
      slot := map[];
      new;
      SoundIsOk(Snapshot());
    }

    method CreateSequence(id: nat) returns (r: Result<()>)
      requires Valid()
      modifies this`sequences
      ensures r.Success? <==> id !in old(sequences)
      ensures Valid()
      ensures sequences == if r.Success? then old(sequences)[id := Sequence(0, [], None)] else old(sequences)
    {
      if id in sequences {
        return Failure;
      }
      ghost var k := Snapshot();
      SoundIsOk(k);
      CreateOk(k, id);
      sequences := sequences[id := Sequence(0, [], None)];
      SoundIsOk(Snapshot());
      return Success(());
    }

    method CommittedTokens(id: nat) returns (r: Result<nat>)
      ensures r == if id in sequences then Success(sequences[id].committed) else Failure
    {
      if id !in sequences {
        return Failure;
      }
      return Success(sequences[id].committed);
    }

    method BlockTable(id: nat) returns (r: Result<seq<nat>>)
      ensures r == if id in sequences then Success(sequences[id].pages) else Failure
    {
      if id !in sequences {
        return Failure;
      }
      return Success(sequences[id].pages);
    }

    method CanAppendTokens(id: nat, count: nat) returns (r: Result<bool>)
      requires Valid()
      ensures id in sequences ==> r == Success(CanAppend(Snapshot(), id, count))
      ensures id !in sequences ==> r == (if count == 0 then Success(false) else Failure)
    {
      if count == 0 {
        return Success(false);
      }
      if id !in sequences {
        return Failure;
      }
      var s := sequences[id];
      if s.pending.Some? {
        return Success(false);
      }
      var end := s.committed + count;
      if end > config.maxLength {
        return Success(false);
      }
      var required := CeilDiv(end, config.blockSize);
      var missing := if required > |s.pages| then required - |s.pages| else 0;
      return Success(missing <= |free|);
    }

    /** Reserve room for `count` more tokens, taking the lowest-numbered free pages. */
    method BeginAppend(id: nat, count: nat) returns (r: Result<nat>)
      requires Valid()
      modifies this
      ensures r.Success? <==> CanAppend(old(Snapshot()), id, count)
      ensures Valid()
      ensures r.Success? ==> Reserved(old(Snapshot()), Snapshot(), id, count, r.value)
      ensures r.Failure? ==> Snapshot() == old(Snapshot())
      ensures r.Success? ==> LowestTaken(old(free), free)
    {
      if count == 0 || id !in sequences || sequences[id].pending.Some? {
        return Failure;
      }
      var s := sequences[id];
      var context := s.committed + count;
      if context > config.maxLength {
        return Failure;
      }
      var required := CeilDiv(context, config.blockSize);
      SoundIsOk(Snapshot());
      assert SequenceOk(Snapshot(), id);
      CeilDivMonotone(s.committed, context, config.blockSize);
      var additional := required - |s.pages|;
      if additional > |free| {
        return Failure;
      }
      var reservation := TakePages(id, count, additional);
      return Success(reservation);
    }

    /** The part of an append that cannot fail any more: the lowest free pages and a new reservation. */
    method TakePages(id: nat, count: nat, additional: nat) returns (reservation: nat)
      requires Valid() && CanAppend(Snapshot(), id, count) && additional <= |free|
      requires |sequences[id].pages| + additional == CeilDiv(sequences[id].committed + count, config.blockSize)
      modifies this
      ensures Valid() && Reserved(old(Snapshot()), Snapshot(), id, count, reservation) && LowestTaken(old(free), free)
    {
      ghost var k := Snapshot();
      SoundIsOk(k);
      var s := sequences[id];
      reservation := nextReservation;
      nextReservation := nextReservation + 1;
      var pages, rest := TakeLowest(free, additional);
      ReserveOk(k, id, count, pages);
      ReserveReserves(k, id, count, pages);
      free := rest;
      slot := TakeAll(k, id, pages).slot;
      sequences := sequences[id := Sequence(s.committed, s.pages + pages, Some(reservation))];
      reservations := reservations[reservation := Reservation(id, |s.pages|, s.committed, count)];
      assert Snapshot() == Reserve(k, id, count, pages);
      SoundIsOk(Snapshot());
    }

    /** Settle one reservation: commit `count` tokens and give back the pages beyond them. */
    method Settle(r: nat, count: nat)
      requires Valid() && r in reservations && count <= reservations[r].count
      modifies this
      ensures Valid() && nextReservation == old(nextReservation)
      ensures OneSettled(old(Snapshot()), Snapshot(), r, count)
    {
      SoundIsOk(Snapshot());
      SettleOk(Snapshot(), r, count);
      var v := reservations[r];
      var s := sequences[v.request];
      var keep := CeilDiv(v.start + count, config.blockSize);
      var released := PageSet(s.pages[keep..]);
      ghost var after := Shrink(Snapshot(), v.request, keep, v.start + count, reservations - {r});
      reservations := reservations - {r};
      sequences := sequences[v.request := Sequence(v.start + count, s.pages[..keep], None)];
      free := free + released;
      slot := slot - released;
      assert Snapshot() == after;
      SoundIsOk(after);
    }

    /** `commit_append_prefixes`: nothing changes unless every row is valid. */
    method CommitAppendPrefixes(rows: seq<(nat, nat)>) returns (r: Result<()>)
      requires Valid()
      modifies this
      ensures r.Success? <==> old(GroupOk(Snapshot(), rows)) && forall i :: 0 <= i < |rows| ==> rows[i].1 > 0
      ensures r.Success? ==> Valid() && GroupSettled(old(Snapshot()), Snapshot(), rows, |rows|)
      ensures r.Failure? ==> Snapshot() == old(Snapshot())
    {
      var ok := Validate(rows);
      if !ok {
        return Failure;
      }
      var i := 0;
      while i < |rows|
        invariant 0 <= i <= |rows|
        invariant rows == [] || forall j :: 0 <= j < i ==> rows[j].1 > 0
        invariant Snapshot() == old(Snapshot())
      {
        if rows[i].1 == 0 {
          return Failure;
        }
        i := i + 1;
      }
      SettleAll(rows);
      return Success(());
    }

    /** `cancel_appends`: roll every reservation of the group back. */
    method CancelAppends(ids: seq<nat>) returns (r: Result<()>)
      requires Valid()
      modifies this
      ensures var rows := Rollbacks(ids);
        && (r.Success? <==> old(GroupOk(Snapshot(), rows)))
        && (r.Success? ==> Valid() && GroupSettled(old(Snapshot()), Snapshot(), rows, |rows|))
        && (r.Failure? ==> Snapshot() == old(Snapshot()))
    {
      var rows := Rollbacks(ids);
      var ok := Validate(rows);
      if !ok {
        return Failure;
      }
      SettleAll(rows);
      return Success(());
    }

    method Validate(rows: seq<(nat, nat)>) returns (ok: bool)
      requires Valid()
      ensures ok <==> GroupOk(Snapshot(), rows)
    {
      SoundIsOk(Snapshot());
      var seen: set<nat> := {};
      var i := 0;
      while i < |rows|
        invariant 0 <= i <= |rows|
        invariant seen == set j | 0 <= j < i :: rows[j].0
        invariant forall j :: 0 <= j < i ==> rows[j].0 in reservations && rows[j].1 <= reservations[rows[j].0].count
        invariant forall j, l :: 0 <= j < l < i ==> rows[j].0 != rows[l].0
      {
        if rows[i].0 in seen {
          var j :| 0 <= j < i && rows[j].0 == rows[i].0;
          return false;
        }
        if rows[i].0 !in reservations || rows[i].1 > reservations[rows[i].0].count {
          return false;
        }
        seen := seen + {rows[i].0};
        i := i + 1;
      }
      return true;
    }

    method SettleAll(rows: seq<(nat, nat)>)
      requires Valid() && GroupOk(Snapshot(), rows)
      modifies this
      ensures Valid() && GroupSettled(old(Snapshot()), Snapshot(), rows, |rows|)
    {
      ghost var k := Snapshot();
      SoundIsOk(k);
      RequestsAreDistinct(k, rows);
      var i := 0;
      while i < |rows|
        invariant 0 <= i <= |rows| && Valid() && GroupSettled(k, Snapshot(), rows, i)
      {
        ghost var before := Snapshot();
        Settle(rows[i].0, rows[i].1);
        SettleNext(k, before, Snapshot(), rows, i);
        i := i + 1;
      }
    }

    /** `commit_append_partial`: commit the verified prefix of one reservation. */
    method CommitAppendPartial(r: nat, count: nat) returns (result: Result<nat>)
      requires Valid()
      modifies this
      ensures result.Success? <==> r in old(reservations) && 0 < count <= old(reservations[r]).count
      ensures result.Success? ==> Valid() && nextReservation == old(nextReservation)
      ensures result.Success? ==>
        result.value == old(reservations[r]).start + count && OneSettled(old(Snapshot()), Snapshot(), r, count)
      ensures result.Failure? ==> Snapshot() == old(Snapshot())
    {
      if r !in reservations || count == 0 || count > reservations[r].count {
        return Failure;
      }
      var context := reservations[r].start + count;
      Settle(r, count);
      return Success(context);
    }

    method RemoveSequence(id: nat) returns (r: Result<()>)
      requires Valid()
      modifies this
      ensures r.Success? <==> id in old(sequences) && old(sequences[id]).pending.None?
      ensures r.Success? ==> Valid() && sequences == old(sequences) - {id} && reservations == old(reservations)
      ensures r.Success? ==> nextReservation == old(nextReservation) && free == old(free) + PageSet(old(sequences[id]).pages)
      ensures r.Failure? ==> Snapshot() == old(Snapshot())
    {
      if id !in sequences || sequences[id].pending.Some? {
        return Failure;
      }
      SoundIsOk(Snapshot());
      DropOk(Snapshot(), id);
      ghost var after := Drop(Snapshot(), id);
      var released := PageSet(sequences[id].pages);
      sequences := sequences - {id};
      free := free + released;
      slot := slot - released;
      assert Snapshot() == after;
      SoundIsOk(after);
      return Success(());
    }
  }
}
