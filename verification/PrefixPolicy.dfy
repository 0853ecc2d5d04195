/** What the tiers of the prefix store do with the entries: they pass them down unchanged, oldest first. */
module PrefixPolicy {
  import opened Wrappers
  import opened PrefixTiers

  /** A disk file holds the frame, the header and the bytes. */
  function FileSize<P(!new)>(w: World<P>, k: Tokens, bytes: seq<int>): nat {
    FrameBytes + w.headerBytes(k) + |bytes|
  }

  /** The same prefix with the same stamp, in its tier or a lower one. */
  ghost predicate Descends<P(!new)>(w: World<P>, k: Tokens, a: Entry<P>, b: Entry<P>) {
    && a.used == b.used
    && match b.tier {
       case Device(_) => a.tier == b.tier
       case Host(bytes) => a.tier == b.tier || (a.tier.Device? && w.encode(a.tier.prefix) == Some(bytes))
       case Disk(bytes, size) => a.tier == b.tier || (size == FileSize(w, k, bytes) && Carries(w, a.tier, bytes))
       }
  }

  ghost predicate Carries<P(!new)>(w: World<P>, tier: Tier<P>, bytes: seq<int>) {
    match tier
    case Device(p) => w.encode(p) == Some(bytes)
    case Host(held) => held == bytes
    case Disk(_, _) => false
  }

  /** Every entry of the later store comes from one of the earlier store. */
  ghost predicate Traced<P(!new)>(w: World<P>, s: Store<P>, t: Store<P>) {
    forall k :: k in t.entries ==> k in s.entries && Descends(w, k, s.entries[k], t.entries[k])
  }

  ghost predicate Stays<P(!new)>(s: Store<P>, t: Store<P>, kind: Kind, k: Tokens) {
    k in s.entries && k in t.entries && In(s.entries[k], kind) && In(t.entries[k], kind)
  }

  /** Of the entries a tier held, those it still holds are newer than those that left it. */
  ghost predicate NewestStay<P(!new)>(s: Store<P>, t: Store<P>, kind: Kind) {
    forall i, j :: Stays(s, t, kind, i) && j in s.entries && In(s.entries[j], kind) && s.entries[i].used < s.entries[j].used
      ==> Stays(s, t, kind, j)
  }

  /** Nothing left a tier without need: the last entry to leave was one too many. */
  ghost predicate Needed<P(!new)>(s: Store<P>, t: Store<P>, kind: Kind, limit: nat) {
    || s == t
    || (exists k :: k in s.entries && In(s.entries[k], kind) && !Stays(s, t, kind, k) && Sum(t.entries, kind) + Size(s.entries[k], kind) > limit)
  }

  lemma TracedOn<P(!new)>(w: World<P>, s: Store<P>, m: Store<P>, t: Store<P>)
    requires Traced(w, s, m) && Traced(w, m, t)
    ensures Traced(w, s, t)
  {
    forall k | k in t.entries
      ensures k in s.entries && Descends(w, k, s.entries[k], t.entries[k])
    {
      assert k in m.entries && Descends(w, k, m.entries[k], t.entries[k]);
    }
  }

  /** Entries never climb, so who is still in a tier at the end was there in between. */
  lemma NewestStayOn<P(!new)>(w: World<P>, s: Store<P>, m: Store<P>, t: Store<P>, kind: Kind)
    requires Traced(w, s, m) && Traced(w, m, t) && NewestStay(s, m, kind) && NewestStay(m, t, kind)
    ensures NewestStay(s, t, kind)
  {
    forall i, j | Stays(s, t, kind, i) && j in s.entries && In(s.entries[j], kind) && s.entries[i].used < s.entries[j].used
      ensures Stays(s, t, kind, j)
    {
      assert Descends(w, i, m.entries[i], t.entries[i]) && Descends(w, i, s.entries[i], m.entries[i]);
      assert Stays(s, m, kind, i) && Stays(m, t, kind, i);
      assert Stays(s, m, kind, j);
      assert Descends(w, j, s.entries[j], m.entries[j]);
      assert Stays(m, t, kind, j);
    }
  }

  lemma NeededOn<P(!new)>(s: Store<P>, m: Store<P>, t: Store<P>, kind: Kind, limit: nat, k: Tokens)
    requires k in s.entries && In(s.entries[k], kind) && !Stays(s, t, kind, k)
    requires Needed(m, t, kind, limit) && (m == t ==> Sum(t.entries, kind) + Size(s.entries[k], kind) > limit)
    requires forall j :: j in m.entries && In(m.entries[j], kind) ==> j in s.entries && s.entries[j] == m.entries[j]
    ensures Needed(s, t, kind, limit)
  {
    if m != t {
      var j :| j in m.entries && In(m.entries[j], kind) && !Stays(m, t, kind, j) && Sum(t.entries, kind) + Size(m.entries[j], kind) > limit;
      assert !Stays(s, t, kind, j);
    }
  }

  // ----- making room on disk -----

  /** Room on disk is made by evicting the oldest, and no more of them than needed. */
  lemma {:induction false} MakeRoomEvicts<P(!new)>(w: World<P>, s: Store<P>, limit: nat)
    requires Sound(s)
    ensures Traced(w, s, MakeRoom(s, limit))
    ensures NewestStay(s, MakeRoom(s, limit), OnDisk) && Needed(s, MakeRoom(s, limit), OnDisk, limit)
    decreases |s.entries|
  {
    if s.disk > limit {
      SumPositive(s.entries, OnDisk);
      var k := OldestKey(s.entries, OnDisk);
      DropSound(s, k);
      var m := Drop(s, k);
      MakeRoomEvicts(w, m, limit);
      OldestLeft(w, s, m, OnDisk, k);
      NewestStayOn(w, s, m, MakeRoom(m, limit), OnDisk);
      NeededOn(s, m, MakeRoom(m, limit), OnDisk, limit, k);
    }
  }

  /** The oldest entry left its tier and the others of the tier are as before. */
  lemma OldestLeft<P(!new)>(w: World<P>, s: Store<P>, m: Store<P>, kind: Kind, k: Tokens)
    requires Stamped(s) && Oldest(s.entries, kind, k) && (k in m.entries ==> !In(m.entries[k], kind))
    requires forall j :: j in s.entries && j != k && In(s.entries[j], kind) ==> j in m.entries && m.entries[j] == s.entries[j]
    ensures NewestStay(s, m, kind)
  {
  }

  /** A prefix put on disk is there exactly if its file fits the budget and can be written. */
  ghost predicate Filed<P(!new)>(w: World<P>, c: Config, r: Outcome<P>, k: Tokens, bytes: seq<int>, used: nat) {
    var size := FileSize(w, k, bytes);
    && (k in r.store.entries <==> size <= c.disk && w.write(k, size))
    && (k in r.store.entries ==> r.store.entries[k] == Entry(Disk(bytes, size), used))
    && (r.ok <==> (size <= c.disk ==> w.write(k, size)))
  }

  lemma PutDiskFiles<P(!new)>(w: World<P>, c: Config, s: Store<P>, k: Tokens, bytes: seq<int>, used: nat)
    requires Sound(s) && k !in s.entries && Free(s, used)
    ensures Filed(w, c, PutDisk(w, c, s, k, bytes, used), k, bytes, used)
  {
    var size := FileSize(w, k, bytes);
    if size <= c.disk {
      var room := MakeRoom(s, c.disk - size);
      assert k !in room.entries;
      assert Put(room, k, Entry(Disk(bytes, size), used)).entries[k] == Entry(Disk(bytes, size), used);
    }
  }

  /** Whether or not it goes there, the oldest disk entries make room for it. */
  lemma PutDiskEvicts<P(!new)>(w: World<P>, c: Config, s: Store<P>, k: Tokens, bytes: seq<int>, used: nat)
    requires Sound(s) && k !in s.entries && Free(s, used)
    ensures NewestStay(s, PutDisk(w, c, s, k, bytes, used).store, OnDisk)
  {
    var size := FileSize(w, k, bytes);
    if size <= c.disk {
      var room := MakeRoom(s, c.disk - size);
      MakeRoomEvicts(w, s, c.disk - size);
      StayBeside(s, room, k, Entry(Disk(bytes, size), used));
      PutDiskCases(w, c, s, k, bytes, used);
      SameStay(s, if w.write(k, size) then Put(room, k, Entry(Disk(bytes, size), used)) else room, PutDisk(w, c, s, k, bytes, used).store);
    }
  }

  lemma SameStay<P(!new)>(s: Store<P>, m: Store<P>, t: Store<P>)
    requires NewestStay(s, m, OnDisk) && m == t
    ensures NewestStay(s, t, OnDisk)
  {
  }

  lemma StayBeside<P(!new)>(s: Store<P>, m: Store<P>, k: Tokens, e: Entry<P>)
    requires NewestStay(s, m, OnDisk) && k !in s.entries
    ensures NewestStay(s, Put(m, k, e), OnDisk)
  {
    var t := Put(m, k, e);
    forall i, j | Stays(s, t, OnDisk, i) && j in s.entries && In(s.entries[j], OnDisk) && s.entries[i].used < s.entries[j].used
      ensures Stays(s, t, OnDisk, j)
    {
      assert Stays(s, m, OnDisk, i);
      assert Stays(s, m, OnDisk, j);
    }
  }

  // ----- one entry down -----

  /** Something about an entry that makes a tier step fail: it cannot be encoded or its file not written. */
  ghost predicate Broken<P(!new)>(w: World<P>, k: Tokens, e: Entry<P>) {
    || (e.tier.Device? && w.encode(e.tier.prefix).None?)
    || exists size: nat :: !w.write(k, size)
  }

  /** An entry is worth encoding if some lower tier could hold its raw bytes. */
  predicate Worth<P(!new)>(w: World<P>, c: Config, p: P) {
    (c.host > 0 || c.disk > 0) && (w.rawBytes(p) <= c.host || w.rawBytes(p) <= c.disk)
  }

  /** Nobody but `k` moves, except from disk, and there the oldest go. */
  ghost predicate Aside<P(!new)>(s: Store<P>, t: Store<P>, k: Tokens) {
    && (forall j :: j in s.entries && j != k && !In(s.entries[j], OnDisk) ==> j in t.entries && t.entries[j] == s.entries[j])
    && NewestStay(s, t, OnDisk)
  }

  /** The oldest device entry leaves: to the host if its bytes fit there, else to disk, else away. */
  ghost predicate Demoted<P(!new)>(w: World<P>, c: Config, s: Store<P>, r: Outcome<P>, k: Tokens) {
    && Oldest(s.entries, OnDevice, k) && Aside(s, r.store, k) && Traced(w, s, r.store)
    && (k in r.store.entries ==> !In(r.store.entries[k], OnDevice))
    && (!r.ok ==> Broken(w, k, s.entries[k]))
    && (r.ok ==> Lands(w, c, k, s.entries[k].tier.prefix, r.store))
  }

  ghost predicate Lands<P(!new)>(w: World<P>, c: Config, k: Tokens, p: P, t: Store<P>) {
    if !Worth(w, c, p) then k !in t.entries
    else
      && w.encode(p).Some?
      && (k in t.entries <==> |w.encode(p).value| <= c.host || FileSize(w, k, w.encode(p).value) <= c.disk)
      && (k in t.entries ==> (In(t.entries[k], OnHost) <==> |w.encode(p).value| <= c.host))
  }

  lemma DropAside<P(!new)>(s: Store<P>, d: Store<P>, t: Store<P>, k: Tokens)
    requires k in s.entries && !In(s.entries[k], OnDisk) && d.entries == s.entries - {k}
    requires forall j :: j in d.entries && !In(d.entries[j], OnDisk) ==> j in t.entries && t.entries[j] == d.entries[j]
    requires NewestStay(d, t, OnDisk)
    ensures Aside(s, t, k)
  {
    forall i, j | Stays(s, t, OnDisk, i) && j in s.entries && In(s.entries[j], OnDisk) && s.entries[i].used < s.entries[j].used
      ensures Stays(s, t, OnDisk, j)
    {
      assert Stays(d, t, OnDisk, i);
      assert Stays(d, t, OnDisk, j);
    }
  }

  lemma DemoteOneMoves<P(!new)>(w: World<P>, c: Config, s: Store<P>) returns (k: Tokens)
    requires Sound(s) && s.device > 0
    ensures Demoted(w, c, s, DemoteOne(w, c, s), k)
  {
    SumPositive(s.entries, OnDevice);
    k := OldestKey(s.entries, OnDevice);
    DropSound(s, k);
    var e, d := s.entries[k], Drop(s, k);
    var bytes := w.encode(e.tier.prefix);
    if !Worth(w, c, e.tier.prefix) {
      GoesAway(w, c, s, d, k, true);
    } else if bytes.None? {
      GoesAway(w, c, s, d, k, false);
    } else if |bytes.value| <= c.host {
      GoesToHost(w, c, s, d, k, bytes.value);
    } else {
      GoesToDisk(w, c, s, d, k, bytes.value);
    }
  }

  lemma GoesAway<P(!new)>(w: World<P>, c: Config, s: Store<P>, d: Store<P>, k: Tokens, ok: bool)
    requires Oldest(s.entries, OnDevice, k) && d.entries == s.entries - {k}
    requires if ok then !Worth(w, c, s.entries[k].tier.prefix) else Broken(w, k, s.entries[k])
    ensures Demoted(w, c, s, Outcome(d, ok), k)
  {
    DropAside(s, d, d, k);
  }

  lemma GoesToHost<P(!new)>(w: World<P>, c: Config, s: Store<P>, d: Store<P>, k: Tokens, bytes: seq<int>)
    requires Oldest(s.entries, OnDevice, k) && d.entries == s.entries - {k} && Worth(w, c, s.entries[k].tier.prefix)
    requires w.encode(s.entries[k].tier.prefix) == Some(bytes) && |bytes| <= c.host
    ensures Demoted(w, c, s, Outcome(Put(d, k, Entry(Host(bytes), s.entries[k].used)), true), k)
  {
    DropAside(s, d, Put(d, k, Entry(Host(bytes), s.entries[k].used)), k);
  }

  lemma GoesToDisk<P(!new)>(w: World<P>, c: Config, s: Store<P>, d: Store<P>, k: Tokens, bytes: seq<int>)
    requires Oldest(s.entries, OnDevice, k) && d.entries == s.entries - {k} && Worth(w, c, s.entries[k].tier.prefix)
    requires w.encode(s.entries[k].tier.prefix) == Some(bytes) && |bytes| > c.host
    requires Sound(d) && Free(d, s.entries[k].used)
    ensures Demoted(w, c, s, PutDisk(w, c, d, k, bytes, s.entries[k].used), k)
  {
    var used := s.entries[k].used;
    PutDiskFiles(w, c, d, k, bytes, used);
    PutDiskEvicts(w, c, d, k, bytes, used);
    DropAside(s, d, PutDisk(w, c, d, k, bytes, used).store, k);
  }

  /** The oldest host entry leaves: to disk if its file fits there, else away. */
  ghost predicate Spilled<P(!new)>(w: World<P>, c: Config, s: Store<P>, r: Outcome<P>, k: Tokens) {
    && Oldest(s.entries, OnHost, k) && Aside(s, r.store, k) && Traced(w, s, r.store)
    && (k in r.store.entries ==> !In(r.store.entries[k], OnHost))
    && (!r.ok ==> Broken(w, k, s.entries[k]))
    && (r.ok ==> (k in r.store.entries <==> FileSize(w, k, s.entries[k].tier.bytes) <= c.disk))
  }

  lemma SpillOneMoves<P(!new)>(w: World<P>, c: Config, s: Store<P>) returns (k: Tokens)
    requires Sound(s) && s.host > 0
    ensures Spilled(w, c, s, SpillOne(w, c, s), k)
    ensures SpillOne(w, c, s).store.host == s.host - |s.entries[k].tier.bytes|
  {
    SumPositive(s.entries, OnHost);
    k := OldestKey(s.entries, OnHost);
    DropSound(s, k);
    SpillsToDisk(w, c, s, Drop(s, k), k);
  }

  lemma SpillsToDisk<P(!new)>(w: World<P>, c: Config, s: Store<P>, d: Store<P>, k: Tokens)
    requires Oldest(s.entries, OnHost, k) && d.entries == s.entries - {k} && Sound(d) && Free(d, s.entries[k].used)
    ensures Spilled(w, c, s, PutDisk(w, c, d, k, s.entries[k].tier.bytes, s.entries[k].used), k)
  {
    var bytes, used := s.entries[k].tier.bytes, s.entries[k].used;
    PutDiskFiles(w, c, d, k, bytes, used);
    PutDiskEvicts(w, c, d, k, bytes, used);
    DropAside(s, d, PutDisk(w, c, d, k, bytes, used).store, k);
  }

  // ----- whole calls -----

  /** What comes through a call: every entry left is an old one passed down, and each tier kept its newest. */
  ghost predicate PassedDown<P(!new)>(w: World<P>, s: Store<P>, t: Store<P>) {
    Traced(w, s, t) && NewestStay(s, t, OnDevice) && NewestStay(s, t, OnHost) && NewestStay(s, t, OnDisk)
  }

  lemma PassedDownOn<P(!new)>(w: World<P>, s: Store<P>, m: Store<P>, t: Store<P>)
    requires PassedDown(w, s, m) && PassedDown(w, m, t)
    ensures PassedDown(w, s, t)
  {
    TracedOn(w, s, m, t);
    NewestStayOn(w, s, m, t, OnDevice);
    NewestStayOn(w, s, m, t, OnHost);
    NewestStayOn(w, s, m, t, OnDisk);
  }

  /** A failure has its cause in an entry. */
  ghost predicate Blamed<P(!new)>(w: World<P>, s: Store<P>) {
    exists k :: k in s.entries && Broken(w, k, s.entries[k])
  }

  lemma BlamedBefore<P(!new)>(w: World<P>, s: Store<P>, t: Store<P>)
    requires Traced(w, s, t) && Blamed(w, t)
    ensures Blamed(w, s)
  {
    var k :| k in t.entries && Broken(w, k, t.entries[k]);
    assert Descends(w, k, s.entries[k], t.entries[k]);
    assert Broken(w, k, s.entries[k]);
  }

  lemma {:induction false} DemotePasses<P(!new)>(w: World<P>, c: Config, s: Store<P>)
    requires Sound(s)
    ensures var r := Demote(w, c, s);
      && PassedDown(w, s, r.store) && (!r.ok ==> Blamed(w, s))
      && (r.ok ==> r.store.device == if s.device <= c.device then s.device else c.device)
    decreases s.device
  {
    if s.device > c.device {
      var one := DemoteOne(w, c, s);
      var k := DemoteOneMoves(w, c, s);
      OldestLeft(w, s, one.store, OnDevice, k);
      assert PassedDown(w, s, one.store);
      if one.ok {
        DemotePasses(w, c, one.store);
        PassedDownOn(w, s, one.store, Demote(w, c, one.store).store);
        if !Demote(w, c, one.store).ok {
          BlamedBefore(w, s, one.store);
        }
      }
    }
  }

  lemma SpillOnePasses<P(!new)>(w: World<P>, c: Config, s: Store<P>) returns (k: Tokens)
    requires Sound(s) && s.host > c.host
    ensures var one := SpillOne(w, c, s);
      && PassedDown(w, s, one.store) && (!one.ok ==> Blamed(w, s))
      && Oldest(s.entries, OnHost, k) && Aside(s, one.store, k) && !Stays(s, one.store, OnHost, k)
      && Needed(s, one.store, OnHost, c.host)
  {
    var one := SpillOne(w, c, s);
    k := SpillOneMoves(w, c, s);
    OldestLeft(w, s, one.store, OnHost, k);
  }

  lemma {:induction false} SpillPasses<P(!new)>(w: World<P>, c: Config, s: Store<P>)
    requires Sound(s)
    ensures var r := Spill(w, c, s);
      PassedDown(w, s, r.store) && (!r.ok ==> Blamed(w, s)) && Needed(s, r.store, OnHost, c.host)
    decreases HostEntries(s)
  {
    if s.host > c.host {
      var one := SpillOne(w, c, s);
      var k := SpillOnePasses(w, c, s);
      if one.ok {
        SpillPasses(w, c, one.store);
        var r := Spill(w, c, one.store);
        PassedDownOn(w, s, one.store, r.store);
        NeededAgain(w, s, one.store, r.store, c.host, k);
        if !r.ok {
          BlamedBefore(w, s, one.store);
        }
      }
    }
  }

  lemma NeededAgain<P(!new)>(w: World<P>, s: Store<P>, m: Store<P>, t: Store<P>, limit: nat, k: Tokens)
    requires Oldest(s.entries, OnHost, k) && Aside(s, m, k) && !Stays(s, m, OnHost, k) && Traced(w, s, m) && Traced(w, m, t)
    requires Needed(s, m, OnHost, limit) && Needed(m, t, OnHost, limit)
    ensures Needed(s, t, OnHost, limit)
  {
    if m != t {
      var j :| j in m.entries && In(m.entries[j], OnHost) && !Stays(m, t, OnHost, j) && Sum(t.entries, OnHost) + Size(m.entries[j], OnHost) > limit;
      assert Descends(w, j, s.entries[j], m.entries[j]);
      assert !Stays(s, t, OnHost, j);
    }
  }

  /** Down from the device, then down from the host. */
  ghost predicate Settled<P(!new)>(w: World<P>, c: Config, start: Store<P>, r: Outcome<P>) {
    && PassedDown(w, start, r.store) && (!r.ok ==> Blamed(w, start))
    && (r.ok ==> r.store.device == if start.device <= c.device then start.device else c.device)
  }

  lemma BothSettle<P(!new)>(w: World<P>, c: Config, start: Store<P>)
    requires Sound(start)
    ensures var t := Demote(w, c, start); Settled(w, c, start, if t.ok then Spill(w, c, t.store) else t)
  {
    DemotePasses(w, c, start);
    var t := Demote(w, c, start);
    if t.ok {
      SpillPasses(w, c, t.store);
      PassedDownOn(w, start, t.store, Spill(w, c, t.store).store);
      if !Spill(w, c, t.store).ok {
        BlamedBefore(w, start, t.store);
      }
    }
  }

  lemma InsertIsBoth<P(!new)>(w: World<P>, c: Config, s: Store<P>, k: Tokens, p: P) returns (start: Store<P>)
    requires Kept(c, s) && c.Enabled() && k !in s.entries
    ensures start == Put(s.(tick := s.tick + 1), k, Entry(Device(p), s.tick + 1)) && Sound(start)
    ensures var t := Demote(w, c, start); InsertTo(w, c, s, k, p) == if t.ok then Spill(w, c, t.store) else t
  {
    var later := s.(tick := s.tick + 1);
    PutSound(later, k, Entry(Device(p), later.tick));
    start := Put(later, k, Entry(Device(p), later.tick));
    var t := Demote(w, c, start);
    assert InsertTo(w, c, s, k, p) == InsertNew(w, c, s, k, p);
  }

  /**
   Inserting a new key: what is stored afterwards is the new prefix and the old entries, each in its tier or
   passed down with its bytes and stamp; every tier kept its newest, the device is as full as it may be, and
   a failure has a cause.
   */
  lemma InsertPassesDown<P(!new)>(w: World<P>, c: Config, s: Store<P>, k: Tokens, p: P)
    requires Kept(c, s) && c.Enabled() && k !in s.entries
    ensures Settled(w, c, Put(s.(tick := s.tick + 1), k, Entry(Device(p), s.tick + 1)), InsertTo(w, c, s, k, p))
  {
    var start := InsertIsBoth(w, c, s, k, p);
    BothSettle(w, c, start);
  }
}
