/** The tiered prefix store as a value: entries, stamps, counters, and the steps between tiers. */
module PrefixTiers {
  import opened Wrappers

  type Tokens = seq<int>

  datatype Tier<P> = Device(prefix: P) | Host(bytes: seq<int>) | Disk(bytes: seq<int>, size: nat)

  datatype Entry<P> = Entry(tier: Tier<P>, used: nat)

  datatype Kind = OnDevice | OnHost | OnDisk

  datatype Config = Config(device: nat, host: nat, disk: nat) {
    predicate Enabled() {
      device > 0 || host > 0 || disk > 0
    }
  }

  datatype Store<P> = Store(entries: map<Tokens, Entry<P>>, tick: nat, device: nat, host: nat, disk: nat)

  /**
   What the store cannot see: encoding, sizes, whether a file can be written, and what a tier restores
   to. File removals succeed or find nothing to remove.
   */
  datatype World<!P> = World(
    encode: P -> Option<seq<int>>,
    rawBytes: P -> nat,
    headerBytes: Tokens -> nat,
    write: (Tokens, nat) -> bool,
    restore: (Tokens, Tier<P>) -> Option<P>)

  predicate In<P(!new)>(e: Entry<P>, kind: Kind) {
    match kind
    case OnDevice => e.tier.Device?
    case OnHost => e.tier.Host?
    case OnDisk => e.tier.Disk?
  }

  /** What an entry weighs in a tier. */
  function Size<P(!new)>(e: Entry<P>, kind: Kind): nat {
    match kind
    case OnDevice => if e.tier.Device? then 1 else 0
    case OnHost => if e.tier.Host? then |e.tier.bytes| else 0
    case OnDisk => if e.tier.Disk? then e.tier.size else 0
  }

  // ----- sums over the entries -----

  ghost function Sum<P(!new)>(m: map<Tokens, Entry<P>>, kind: Kind): nat
    decreases |m|
  {
    if m == map[] then 0
    else
      var k :| k in m;
      SumThen(m - {k}, m[k], kind)
  }

  ghost function SumThen<P(!new)>(m: map<Tokens, Entry<P>>, e: Entry<P>, kind: Kind): nat
    decreases |m| + 1, 0
  {
    Sum(m, kind) + Size(e, kind)
  }

  /** The sum without an entry, whichever it is. */
  lemma {:induction false} SumWithout<P(!new)>(m: map<Tokens, Entry<P>>, k: Tokens, kind: Kind)
    requires k in m
    ensures Sum(m, kind) == Sum(m - {k}, kind) + Size(m[k], kind)
    decreases |m|
  {
    var first :| first in m && Sum(m, kind) == SumThen(m - {first}, m[first], kind);
    assert SumThen(m - {first}, m[first], kind) == Sum(m - {first}, kind) + Size(m[first], kind);
    if first != k {
      assert (m - {first})[k] == m[k] && (m - {k})[first] == m[first];
      SumWithout(m - {first}, k, kind);
      SumWithout(m - {k}, first, kind);
      assert m - {first} - {k} == m - {k} - {first};
    }
  }

  lemma SumWith<P(!new)>(m: map<Tokens, Entry<P>>, k: Tokens, e: Entry<P>, kind: Kind)
    requires k !in m
    ensures Sum(m[k := e], kind) == Sum(m, kind) + Size(e, kind)
  {
    SumWithout(m[k := e], k, kind);
    assert m[k := e] - {k} == m;
  }

  /** A positive sum comes from an entry of that tier. */
  lemma {:induction false} SumPositive<P(!new)>(m: map<Tokens, Entry<P>>, kind: Kind)
    requires Sum(m, kind) > 0
    ensures exists k :: k in m && In(m[k], kind)
    decreases |m|
  {
    var k :| k in m;
    SumWithout(m, k, kind);
    if !In(m[k], kind) {
      SumPositive(m - {k}, kind);
      var j :| j in m - {k} && In((m - {k})[j], kind);
      assert j in m && m[j] == (m - {k})[j];
    }
  }

  // ----- the invariant -----

  /** The counters are the sums over the entries. */
  ghost predicate Counted<P(!new)>(s: Store<P>) {
    s.device == Sum(s.entries, OnDevice) && s.host == Sum(s.entries, OnHost) && s.disk == Sum(s.entries, OnDisk)
  }

  /** Stamps are distinct and none is ahead of the clock. */
  ghost predicate Stamped<P(!new)>(s: Store<P>) {
    && (forall k :: k in s.entries ==> s.entries[k].used <= s.tick)
    && (forall j, k {:trigger Apart(s.entries, j, k)} ::
      j in s.entries && k in s.entries && j != k ==> Apart(s.entries, j, k))
  }

  ghost predicate Apart<P(!new)>(m: map<Tokens, Entry<P>>, j: Tokens, k: Tokens)
    requires j in m && k in m
  {
    m[j].used != m[k].used
  }

  ghost predicate Sound<P(!new)>(s: Store<P>) {
    Counted(s) && Stamped(s)
  }

  // ----- dropping an entry -----

  function Drop<P(!new)>(s: Store<P>, k: Tokens): Store<P>
    requires k in s.entries
    requires Size(s.entries[k], OnDevice) <= s.device && Size(s.entries[k], OnHost) <= s.host && Size(s.entries[k], OnDisk) <= s.disk
  {
    var e := s.entries[k];
    Store(s.entries - {k}, s.tick, s.device - Size(e, OnDevice), s.host - Size(e, OnHost), s.disk - Size(e, OnDisk))
  }

  /** The subtractions never go below zero, and the accounting stays exact. */
  lemma DropSound<P(!new)>(s: Store<P>, k: Tokens)
    requires Sound(s) && k in s.entries
    ensures Size(s.entries[k], OnDevice) <= s.device && Size(s.entries[k], OnHost) <= s.host && Size(s.entries[k], OnDisk) <= s.disk
    ensures Sound(Drop(s, k)) && |Drop(s, k).entries| < |s.entries| && Free(Drop(s, k), s.entries[k].used)
  {
    SumWithout(s.entries, k, OnDevice);
    SumWithout(s.entries, k, OnHost);
    SumWithout(s.entries, k, OnDisk);
    var t := Drop(s, k);
    forall i, j | i in t.entries && j in t.entries && i != j
      ensures Apart(t.entries, i, j)
    {
      assert Apart(s.entries, i, j);
    }
    forall j | j in t.entries
      ensures t.entries[j].used != s.entries[k].used
    {
      assert Apart(s.entries, j, k);
    }
  }

  function Put<P(!new)>(s: Store<P>, k: Tokens, e: Entry<P>): Store<P> {
    Store(s.entries[k := e], s.tick, s.device + Size(e, OnDevice), s.host + Size(e, OnHost), s.disk + Size(e, OnDisk))
  }

  /** A stamp no entry carries. */
  ghost predicate Free<P(!new)>(s: Store<P>, used: nat) {
    used <= s.tick && forall k :: k in s.entries ==> s.entries[k].used != used
  }

  lemma PutSound<P(!new)>(s: Store<P>, k: Tokens, e: Entry<P>)
    requires Sound(s) && k !in s.entries && Free(s, e.used)
    ensures Sound(Put(s, k, e))
  {
    SumWith(s.entries, k, e, OnDevice);
    SumWith(s.entries, k, e, OnHost);
    SumWith(s.entries, k, e, OnDisk);
    var t := Put(s, k, e);
    forall i, j | i in t.entries && j in t.entries && i != j
      ensures Apart(t.entries, i, j)
    {
      assert i in s.entries && j in s.entries ==> Apart(s.entries, i, j);
    }
  }

  // ----- least recently used -----

  ghost predicate Oldest<P(!new)>(m: map<Tokens, Entry<P>>, kind: Kind, k: Tokens) {
    && k in m && In(m[k], kind)
    && forall j :: j in m && In(m[j], kind) ==> m[k].used <= m[j].used
  }

  lemma {:induction false} OldestExists<P(!new)>(m: map<Tokens, Entry<P>>, kind: Kind)
    requires exists k :: k in m && In(m[k], kind)
    ensures exists k :: Oldest(m, kind, k)
    decreases |m|
  {
    var k :| k in m && In(m[k], kind);
    var r := m - {k};
    assert forall i :: i in m ==> i == k || (i in r && r[i] == m[i]);
    if exists j :: j in r && In(r[j], kind) {
      OldestExists(r, kind);
      var j :| Oldest(r, kind, j);
      if m[k].used <= r[j].used {
        assert Oldest(m, kind, k);
      } else {
        assert Oldest(m, kind, j);
      }
    } else {
      assert Oldest(m, kind, k);
    }
  }

  lemma OldestUnique<P(!new)>(s: Store<P>, kind: Kind, j: Tokens, k: Tokens)
    requires Stamped(s) && Oldest(s.entries, kind, j) && Oldest(s.entries, kind, k)
    ensures j == k
  {
    assert j != k ==> Apart(s.entries, j, k);
  }

  ghost function OldestKey<P(!new)>(m: map<Tokens, Entry<P>>, kind: Kind): (k: Tokens)
    requires exists k :: k in m && In(m[k], kind)
    ensures Oldest(m, kind, k)
  {
    OldestExists(m, kind);
    var k :| Oldest(m, kind, k);
    k
  }

  // ----- making room on disk -----

  /** Disk entries go, oldest first, until the bytes fit; there is always one to go. */
  ghost function MakeRoom<P(!new)>(s: Store<P>, limit: nat): (r: Store<P>)
    requires Sound(s)
    ensures Sound(r) && r.disk <= limit && r.tick == s.tick && r.device == s.device && r.host == s.host
    ensures forall k :: k in r.entries ==> k in s.entries && r.entries[k] == s.entries[k]
    ensures forall k :: k in s.entries && !In(s.entries[k], OnDisk) ==> k in r.entries
    decreases |s.entries|
  {
    if s.disk <= limit then s
    else
      SumPositive(s.entries, OnDisk);
      var k := OldestKey(s.entries, OnDisk);
      DropSound(s, k);
      MakeRoom(Drop(s, k), limit)
  }

  datatype Outcome<P> = Outcome(store: Store<P>, ok: bool)

  const FrameBytes: nat := 20

  /** `put_disk`. */
  ghost function PutDisk<P(!new)>(w: World<P>, c: Config, s: Store<P>, k: Tokens, bytes: seq<int>, used: nat): (r: Outcome<P>)
    requires Sound(s) && k !in s.entries && Free(s, used)
    ensures Sound(r.store) && r.store.tick == s.tick && r.store.device == s.device && r.store.host == s.host
    ensures s.disk <= c.disk ==> r.store.disk <= c.disk
    ensures forall j :: j in s.entries && !In(s.entries[j], OnDisk) ==> j in r.store.entries && r.store.entries[j] == s.entries[j]
    ensures forall j :: j in r.store.entries && j != k ==> j in s.entries && r.store.entries[j] == s.entries[j]
    ensures k in r.store.entries ==> r.ok && r.store.entries[k].used == used
  {
    var size := FrameBytes + w.headerBytes(k) + |bytes|;
    if c.disk == 0 || size > c.disk then Outcome(s, true)
    else
      var room := MakeRoom(s, c.disk - size);
      if !w.write(k, size) then Outcome(room, false)
      else
        var e := Entry(Disk(bytes, size), used);
        PutSound(room, k, e);
        Outcome(Put(room, k, e), true)
  }

  /** The three ways of `put_disk`. */
  lemma PutDiskCases<P(!new)>(w: World<P>, c: Config, s: Store<P>, k: Tokens, bytes: seq<int>, used: nat)
    requires Sound(s) && k !in s.entries && Free(s, used)
    ensures var size := FrameBytes + w.headerBytes(k) + |bytes|;
      var r := PutDisk(w, c, s, k, bytes, used);
      if c.disk == 0 || size > c.disk then r == Outcome(s, true)
      else
        var room := MakeRoom(s, c.disk - size);
        r == if w.write(k, size) then Outcome(Put(room, k, Entry(Disk(bytes, size), used)), true) else Outcome(room, false)
  {
  }

  // ----- from device to host, from host to disk -----

  /** The entry that leaves the device goes to the host if it fits there, else to disk, else away. */
  ghost function DemoteOne<P(!new)>(w: World<P>, c: Config, s: Store<P>): (r: Outcome<P>)
    requires Sound(s) && s.device > 0
    ensures Sound(r.store) && r.store.tick == s.tick && r.store.device == s.device - 1
    ensures s.disk <= c.disk ==> r.store.disk <= c.disk
  {
    SumPositive(s.entries, OnDevice);
    var k := OldestKey(s.entries, OnDevice);
    DropSound(s, k);
    var e, t := s.entries[k], Drop(s, k);
    var most := if c.host > c.disk then c.host else c.disk;
    if (c.host == 0 && c.disk == 0) || w.rawBytes(e.tier.prefix) > most then Outcome(t, true)
    else
      var bytes := w.encode(e.tier.prefix);
      if bytes.None? then Outcome(t, false)
      else if |bytes.value| <= c.host then
        PutSound(t, k, Entry(Host(bytes.value), e.used));
        Outcome(Put(t, k, Entry(Host(bytes.value), e.used)), true)
      else PutDisk(w, c, t, k, bytes.value, e.used)
  }

  ghost function Demote<P(!new)>(w: World<P>, c: Config, s: Store<P>): (r: Outcome<P>)
    requires Sound(s)
    ensures Sound(r.store) && r.store.tick == s.tick && (r.ok ==> r.store.device <= c.device)
    ensures s.device <= c.device + 1 ==> r.store.device <= c.device
    ensures s.disk <= c.disk ==> r.store.disk <= c.disk
    decreases s.device
  {
    if s.device <= c.device then Outcome(s, true)
    else
      var one := DemoteOne(w, c, s);
      if one.ok then Demote(w, c, one.store) else one
  }

  ghost function SpillOne<P(!new)>(w: World<P>, c: Config, s: Store<P>): (r: Outcome<P>)
    requires Sound(s) && s.host > 0
    ensures Sound(r.store) && r.store.tick == s.tick && r.store.device == s.device
    ensures Sum(r.store.entries, OnHost) <= s.host && HostEntries(r.store) < HostEntries(s)
    ensures s.disk <= c.disk ==> r.store.disk <= c.disk
  {
    SumPositive(s.entries, OnHost);
    var k := OldestKey(s.entries, OnHost);
    DropSound(s, k);
    HostEntriesDrop(s, k);
    var e, t := s.entries[k], Drop(s, k);
    var r := PutDisk(w, c, t, k, e.tier.bytes, e.used);
    HostEntriesShrink(t, r.store, k);
    r
  }

  ghost function OnHostKeys<P(!new)>(s: Store<P>): set<Tokens> {
    set k | k in s.entries && In(s.entries[k], OnHost)
  }

  ghost function HostEntries<P(!new)>(s: Store<P>): nat {
    |OnHostKeys(s)|
  }

  lemma HostEntriesDrop<P(!new)>(s: Store<P>, k: Tokens)
    requires Sound(s) && k in s.entries && In(s.entries[k], OnHost)
    ensures Size(s.entries[k], OnDevice) <= s.device && Size(s.entries[k], OnHost) <= s.host && Size(s.entries[k], OnDisk) <= s.disk
    ensures HostEntries(Drop(s, k)) == HostEntries(s) - 1
  {
    DropSound(s, k);
    assert OnHostKeys(Drop(s, k)) == OnHostKeys(s) - {k};
  }

  lemma HostEntriesShrink<P(!new)>(s: Store<P>, t: Store<P>, k: Tokens)
    requires forall j :: j in t.entries && j != k ==> j in s.entries && t.entries[j] == s.entries[j]
    requires k in t.entries ==> !In(t.entries[k], OnHost)
    ensures HostEntries(t) <= HostEntries(s)
  {
    assert OnHostKeys(t) <= OnHostKeys(s);
    assert OnHostKeys(s) == OnHostKeys(t) + (OnHostKeys(s) - OnHostKeys(t));
  }

  ghost function Spill<P(!new)>(w: World<P>, c: Config, s: Store<P>): (r: Outcome<P>)
    requires Sound(s)
    ensures Sound(r.store) && r.store.tick == s.tick && r.store.device == s.device && (r.ok ==> r.store.host <= c.host)
    ensures s.disk <= c.disk ==> r.store.disk <= c.disk
    decreases HostEntries(s)
  {
    if s.host <= c.host then Outcome(s, true)
    else
      var one := SpillOne(w, c, s);
      if one.ok then Spill(w, c, one.store) else one
  }

  // ----- insert -----

  function Touch<P(!new)>(s: Store<P>, k: Tokens): Store<P>
    requires k in s.entries
  {
    s.(entries := s.entries[k := s.entries[k].(used := s.tick)])
  }

  /** Stamping an entry with a fresh tick. */
  lemma TouchSound<P(!new)>(s: Store<P>, k: Tokens)
    requires Sound(s) && k in s.entries
    ensures Sound(Touch(s.(tick := s.tick + 1), k))
  {
    var e := s.entries[k].(used := s.tick + 1);
    SumWithout(s.entries, k, OnDevice);
    SumWithout(s.entries, k, OnHost);
    SumWithout(s.entries, k, OnDisk);
    var r := s.entries - {k};
    SumWith(r, k, e, OnDevice);
    SumWith(r, k, e, OnHost);
    SumWith(r, k, e, OnDisk);
    assert r[k := e] == s.entries[k := e];
    var t := Touch(s.(tick := s.tick + 1), k);
    forall i, j | i in t.entries && j in t.entries && i != j
      ensures Apart(t.entries, i, j)
    {
      assert Apart(s.entries, i, j);
    }
  }

  ghost predicate Within<P(!new)>(c: Config, s: Store<P>) {
    s.device <= c.device && s.host <= c.host && s.disk <= c.disk
  }

  /** What every call leaves: sound accounting, and the device and disk budgets. */
  ghost predicate Kept<P(!new)>(c: Config, s: Store<P>) {
    Sound(s) && s.device <= c.device && s.disk <= c.disk
  }

  /** A new entry starts on the device; then both upper tiers are brought within their budgets. */
  ghost function InsertNew<P(!new)>(w: World<P>, c: Config, s: Store<P>, k: Tokens, p: P): (r: Outcome<P>)
    requires Kept(c, s) && k !in s.entries
    ensures Kept(c, r.store) && (r.ok ==> r.store.host <= c.host)
  {
    var later := s.(tick := s.tick + 1);
    PutSound(later, k, Entry(Device(p), later.tick));
    var t := Demote(w, c, Put(later, k, Entry(Device(p), later.tick)));
    if t.ok then Spill(w, c, t.store) else t
  }

  /**
   `insert` of a prefix that passed its validation. A successful call ends within the host budget exactly
   when the key was new or the budget held before: a known key is only stamped.
   */
  ghost function InsertTo<P(!new)>(w: World<P>, c: Config, s: Store<P>, k: Tokens, p: P): (r: Outcome<P>)
    requires Kept(c, s)
    ensures Kept(c, r.store)
    ensures r.ok ==> (Within(c, r.store) <==> Within(c, s) || (c.Enabled() && k !in s.entries))
  {
    if !c.Enabled() then Outcome(s, true)
    else if k in s.entries then
      TouchSound(s, k);
      Outcome(Touch(s.(tick := s.tick + 1), k), true)
    else InsertNew(w, c, s, k, p)
  }

  // ----- the budget can be missed after a failed write -----

  lemma {:induction false} NoneOnDevice<P(!new)>(m: map<Tokens, Entry<P>>, k: Tokens)
    requires Sum(m, OnDevice) == 0 && k in m
    ensures !In(m[k], OnDevice)
  {
    SumWithout(m, k, OnDevice);
  }

  /** With no room on the device a prefix that fits goes straight to the host. */
  lemma StraightToHost<P(!new)>(w: World<P>, c: Config, s: Store<P>, k: Tokens, p: P, bytes: seq<int>)
    requires Kept(c, s) && c.device == 0 && k !in s.entries
    requires w.encode(p) == Some(bytes) && |bytes| <= c.host && w.rawBytes(p) <= c.host && c.host > 0
    ensures var later := s.(tick := s.tick + 1);
      var start := Put(later, k, Entry(Device(p), later.tick));
      Sound(start) && Demote(w, c, start) == Outcome(Put(later, k, Entry(Host(bytes), later.tick)), true)
  {
    var later := s.(tick := s.tick + 1);
    var start := Put(later, k, Entry(Device(p), later.tick));
    PutSound(later, k, Entry(Device(p), later.tick));
    forall j | j in s.entries
      ensures !In(s.entries[j], OnDevice)
    {
      NoneOnDevice(s.entries, j);
    }
    assert Oldest(start.entries, OnDevice, k);
    OldestUnique(start, OnDevice, k, OldestKey(start.entries, OnDevice));
    assert start.entries - {k} == s.entries;
    var moved := Put(later, k, Entry(Host(bytes), later.tick));
    assert DemoteOne(w, c, start) == Outcome(moved, true);
    assert Demote(w, c, moved) == Outcome(moved, true);
  }

  /** A spill whose first file cannot be written stops there: one entry is gone, the rest still weighs. */
  lemma SpillStops<P(!new)>(w: World<P>, c: Config, s: Store<P>, k: Tokens)
    requires Sound(s) && s.host > c.host && Oldest(s.entries, OnHost, k)
    requires var size := FrameBytes + w.headerBytes(k) + |s.entries[k].tier.bytes|;
      !w.write(k, size) && s.disk + size <= c.disk
    ensures Size(s.entries[k], OnDevice) <= s.device && Size(s.entries[k], OnHost) <= s.host && Size(s.entries[k], OnDisk) <= s.disk
    ensures Spill(w, c, s) == Outcome(Drop(s, k), false)
  {
    DropSound(s, k);
    SumPositive(s.entries, OnHost);
    OldestUnique(s, OnHost, k, OldestKey(s.entries, OnHost));
    var t := Drop(s, k);
    assert PutDisk(w, c, t, k, s.entries[k].tier.bytes, s.entries[k].used) == Outcome(t, false);
    assert SpillOne(w, c, s) == Outcome(t, false);
  }

  function Zeros(n: nat): seq<int> {
    seq(n, _ => 0)
  }

  /** Encodings of a given length, and a disk that cannot be written. */
  function BrokenDisk(): World<nat> {
    World((n: nat) => Some(Zeros(n)), _ => 0, _ => 0, (_, _) => false, (_, _) => None)
  }

  function SmallHost(): Config {
    Config(0, 10, 100)
  }

  function Weighing(bytes: nat, used: nat): Entry<nat> {
    Entry(Host(Zeros(bytes)), used)
  }

  function Empty(): Store<nat> {
    Store(map[], 0, 0, 0, 0)
  }

  /** A prefix that fits beside the others on the host. */
  lemma InsertFits(s: Store<nat>, k: Tokens, bytes: nat)
    requires Kept(SmallHost(), s) && k !in s.entries && s.host + bytes <= 10
    ensures InsertTo(BrokenDisk(), SmallHost(), s, k, bytes) == Outcome(Put(s.(tick := s.tick + 1), k, Weighing(bytes, s.tick + 1)), true)
  {
    StraightToHost(BrokenDisk(), SmallHost(), s, k, bytes, Zeros(bytes));
  }

  /** One byte under the first key and nine under the second fill the host budget of ten. */
  function FullHost(a: Tokens, b: Tokens): Store<nat> {
    Put(Put(Store(map[], 2, 0, 0, 0), a, Weighing(1, 1)), b, Weighing(9, 2))
  }

  lemma FullHostKept(a: Tokens, b: Tokens)
    requires a != b
    ensures Kept(SmallHost(), FullHost(a, b)) && Within(SmallHost(), FullHost(a, b)) && FullHost(a, b).host == 10
  {
    var empty: Store<nat> := Store(map[], 2, 0, 0, 0);
    PutSound(empty, a, Weighing(1, 1));
    PutSound(Put(empty, a, Weighing(1, 1)), b, Weighing(9, 2));
  }

  lemma FullHostReached(a: Tokens, b: Tokens)
    requires a != b
    ensures Kept(SmallHost(), Empty())
    ensures var one := InsertTo(BrokenDisk(), SmallHost(), Empty(), a, 1);
      one.ok && InsertTo(BrokenDisk(), SmallHost(), one.store, b, 9) == Outcome(FullHost(a, b), true)
  {
    HalfHostReached(a);
    InsertFits(HalfHost(a), b, 9);
    assert Put(HalfHost(a).(tick := 2), b, Weighing(9, 2)) == FullHost(a, b);
  }

  function HalfHost(a: Tokens): Store<nat> {
    Put(Store(map[], 1, 0, 0, 0), a, Weighing(1, 1))
  }

  lemma HalfHostReached(a: Tokens)
    ensures Kept(SmallHost(), Empty()) && Kept(SmallHost(), HalfHost(a)) && HalfHost(a).host == 1
    ensures InsertTo(BrokenDisk(), SmallHost(), Empty(), a, 1) == Outcome(HalfHost(a), true)
  {
    InsertFits(Empty(), a, 1);
  }

  lemma OverfullHost(a: Tokens, b: Tokens, k: Tokens) returns (full: Store<nat>)
    requires a != b && k != a && k != b
    ensures full == Put(FullHost(a, b).(tick := 3), k, Weighing(10, 3)) && Sound(full) && full.host == 20
    ensures Kept(SmallHost(), FullHost(a, b))
    ensures InsertTo(BrokenDisk(), SmallHost(), FullHost(a, b), k, 10) == Spill(BrokenDisk(), SmallHost(), full)
  {
    FullHostKept(a, b);
    var w, c, s := BrokenDisk(), SmallHost(), FullHost(a, b);
    StraightToHost(w, c, s, k, 10, Zeros(10));
    var later := s.(tick := 3);
    full := Put(later, k, Weighing(10, 3));
    PutSound(later, k, Weighing(10, 3));
  }

  /** Then the insert of ten more bytes fails on the broken disk with 19 bytes left on the host. */
  lemma FailedInsert(a: Tokens, b: Tokens, k: Tokens) returns (first: Outcome<nat>)
    requires a != b && k != a && k != b
    ensures Kept(SmallHost(), FullHost(a, b)) && Within(SmallHost(), FullHost(a, b))
    ensures first == InsertTo(BrokenDisk(), SmallHost(), FullHost(a, b), k, 10)
    ensures !first.ok && first.store.host == 19 && k in first.store.entries
  {
    FullHostKept(a, b);
    var full := OverfullHost(a, b, k);
    assert full.entries[a] == Weighing(1, 1) && full.entries[b] == Weighing(9, 2) && full.entries[k] == Weighing(10, 3);
    assert Oldest(full.entries, OnHost, a);
    SpillStops(BrokenDisk(), SmallHost(), full, a);
    first := Outcome(Drop(full, a), false);
  }

  /**
   From the empty store, after two inserts that fill the host budget of ten, an insert whose eviction to disk
   fails leaves 19 bytes on the host, and a second insert of the same key then succeeds without repairing it.
   */
  lemma BudgetMissed(a: Tokens, b: Tokens, k: Tokens) returns (first: Outcome<nat>, again: Outcome<nat>)
    requires a != b && k != a && k != b
    ensures Kept(SmallHost(), Empty())
    ensures var one := InsertTo(BrokenDisk(), SmallHost(), Empty(), a, 1);
      var two := InsertTo(BrokenDisk(), SmallHost(), one.store, b, 9);
      && one.ok && two.ok && Within(SmallHost(), two.store)
      && first == InsertTo(BrokenDisk(), SmallHost(), two.store, k, 10) && !first.ok
    ensures Kept(SmallHost(), first.store) && again == InsertTo(BrokenDisk(), SmallHost(), first.store, k, 10)
    ensures again.ok && again.store.host == 19 && !Within(SmallHost(), again.store)
  {
    FullHostKept(a, b);
    FullHostReached(a, b);
    first := FailedInsert(a, b, k);
    again := InsertTo(BrokenDisk(), SmallHost(), first.store, k, 10);
  }
}
