/** The tiered prefix store: lookups, inserts and evictions on its entries and counters. */
module PrefixStores {
  import opened Wrappers
  import opened PrefixTiers
  import PrefixPolicy

  /** `min_by_key` over the entries of a tier. */
  method FindOldest<P(!new)>(m: map<Tokens, Entry<P>>, kind: Kind) returns (r: Option<Tokens>)
    ensures r.None? <==> forall k :: k in m ==> !In(m[k], kind)
    ensures r.Some? ==> Oldest(m, kind, r.value)
  {
    r := None;
    var left := m.Keys;
    while left != {}
      invariant left <= m.Keys
      invariant r.None? ==> forall k :: k in m && k !in left ==> !In(m[k], kind)
      invariant r.Some? ==> r.value in m && In(m[r.value], kind)
      invariant r.Some? ==> forall k :: k in m && k !in left && In(m[k], kind) ==> m[r.value].used <= m[k].used
      decreases left
    {
      var k :| k in left;
      if In(m[k], kind) && (r.None? || m[k].used < m[r.value].used) {
        r := Some(k);
      }
      left := left - {k};
    }
  }

  /** The longest stored key that starts the prompt. */
  method LongestKey<P(!new)>(m: map<Tokens, Entry<P>>, prompt: Tokens) returns (r: Option<nat>)
    ensures r.None? ==> forall n: nat :: n <= |prompt| ==> prompt[..n] !in m
    ensures r.Some? ==> r.value <= |prompt| && prompt[..r.value] in m
    ensures r.Some? ==> forall n: nat :: r.value < n <= |prompt| ==> prompt[..n] !in m
  {
    var n := |prompt|;
    while n > 0 && prompt[..n] !in m
      invariant 0 <= n <= |prompt| && forall i: nat :: n < i <= |prompt| ==> prompt[..i] !in m
    {
      n := n - 1;
    }
    r := if prompt[..n] in m then Some(n) else None;
  }

  class PrefixStore<P(!new)> {
    const config: Config
    const world: World<P>
    var entries: map<Tokens, Entry<P>>
    var tick: nat
    var device: nat
    var host: nat
    var disk: nat
    var lookups: nat
    var hits: nat
    var reused: nat

    function Snapshot(): Store<P>
      reads this
    {
      Store(entries, tick, device, host, disk)
    }

    ghost predicate Valid()
      reads this
    {
      Kept(config, Snapshot())
    }

    constructor (config: Config, world: World<P>)
      ensures Valid() && Within(config, Snapshot()) && entries == map[] && this.config == config && this.world == world
    {
      this.config, this.world := config, world;
      entries, tick, device, host, disk := map[], 0, 0, 0, 0;
      lookups, hits, reused := 0, 0, 0;
    }

    /** `discard`, with the removal from the map that precedes it. */
    method Discard(k: Tokens)
      requires Sound(Snapshot()) && k in entries
      modifies this`entries, this`device, this`host, this`disk
      ensures Sound(Snapshot())
      ensures Size(old(entries)[k], OnDevice) <= old(device) && Size(old(entries)[k], OnHost) <= old(host) && Size(old(entries)[k], OnDisk) <= old(disk)
      ensures Snapshot() == Drop(old(Snapshot()), k)
    {
      DropSound(Snapshot(), k);
      var e := entries[k];
      entries := entries - {k};
      match e.tier
      case Device(_) => device := device - 1;
      case Host(bytes) => host := host - |bytes|;
      case Disk(_, size) => disk := disk - size;
    }

    /** `evict_disk` while bytes are accounted on disk: there is an entry to evict. */
    method EvictDisk()
      requires Sound(Snapshot()) && disk > 0
      modifies this`entries, this`device, this`host, this`disk
      ensures Sound(Snapshot()) && |entries| < |old(entries)| && tick == old(tick)
      ensures forall limit: nat :: limit < old(disk) ==> MakeRoom(old(Snapshot()), limit) == MakeRoom(Snapshot(), limit)
    {
      ghost var s := Snapshot();
      SumPositive(entries, OnDisk);
      var k := FindOldest(entries, OnDisk);
      assert k.Some?;
      OldestUnique(s, OnDisk, k.value, OldestKey(s.entries, OnDisk));
      DropSound(s, k.value);
      Discard(k.value);
    }

    /** Evictions until the bytes on disk are within the limit. */
    method FreeDisk(limit: nat)
      requires Sound(Snapshot())
      modifies this`entries, this`device, this`host, this`disk
      ensures Sound(Snapshot()) && Snapshot() == MakeRoom(old(Snapshot()), limit)
    {
      ghost var s := Snapshot();
      while disk > limit
        invariant Sound(Snapshot()) && MakeRoom(s, limit) == MakeRoom(Snapshot(), limit)
        decreases |entries|
      {
        EvictDisk();
      }
    }

    /** `put_disk`. */
    method PutOnDisk(k: Tokens, bytes: seq<int>, used: nat) returns (ok: bool)
      requires Sound(Snapshot()) && k !in entries && Free(Snapshot(), used)
      modifies this`entries, this`device, this`host, this`disk
      ensures Sound(Snapshot()) && Outcome(Snapshot(), ok) == PutDisk(world, config, old(Snapshot()), k, bytes, used)
    {
      PutDiskCases(world, config, Snapshot(), k, bytes, used);
      var size := FrameBytes + world.headerBytes(k) + |bytes|;
      if config.disk == 0 || size > config.disk {
        return true;
      }
      FreeDisk(config.disk - size);
      if !world.write(k, size) {
        return false;
      }
      disk := disk + size;
      entries := entries[k := Entry(Disk(bytes, size), used)];
      return true;
    }

    method DemoteOldest() returns (ok: bool)
      requires Sound(Snapshot()) && device > 0
      modifies this`entries, this`device, this`host, this`disk
      ensures Sound(Snapshot()) && Outcome(Snapshot(), ok) == DemoteOne(world, config, old(Snapshot()))
    {
      ghost var s := Snapshot();
      SumPositive(entries, OnDevice);
      var oldest := FindOldest(entries, OnDevice);
      assert oldest.Some?;
      var k := oldest.value;
      OldestUnique(s, OnDevice, k, OldestKey(s.entries, OnDevice));
      DropSound(s, k);
      var e := entries[k];
      Discard(k);
      var most := if config.host > config.disk then config.host else config.disk;
      if (config.host == 0 && config.disk == 0) || world.rawBytes(e.tier.prefix) > most {
        return true;
      }
      var bytes := world.encode(e.tier.prefix);
      if bytes.None? {
        return false;
      }
      if |bytes.value| <= config.host {
        PutSound(Snapshot(), k, Entry(Host(bytes.value), e.used));
        host := host + |bytes.value|;
        entries := entries[k := Entry(Host(bytes.value), e.used)];
        return true;
      }
      ok := PutOnDisk(k, bytes.value, e.used);
    }

    method SpillOldest() returns (ok: bool)
      requires Sound(Snapshot()) && host > 0
      modifies this`entries, this`device, this`host, this`disk
      ensures Sound(Snapshot()) && Outcome(Snapshot(), ok) == SpillOne(world, config, old(Snapshot()))
    {
      ghost var s := Snapshot();
      SumPositive(entries, OnHost);
      var oldest := FindOldest(entries, OnHost);
      assert oldest.Some?;
      var k := oldest.value;
      OldestUnique(s, OnHost, k, OldestKey(s.entries, OnHost));
      DropSound(s, k);
      var e := entries[k];
      Discard(k);
      ok := PutOnDisk(k, e.tier.bytes, e.used);
    }

    /** `insert` of a validated prefix. */
    method Insert(k: Tokens, p: P) returns (ok: bool)
      requires Valid()
      modifies this`entries, this`tick, this`device, this`host, this`disk
      ensures Valid() && Outcome(Snapshot(), ok) == InsertTo(world, config, old(Snapshot()), k, p)
      ensures ok ==> (Within(config, Snapshot()) <==> Within(config, old(Snapshot())) || (config.Enabled() && k !in old(entries)))
      ensures config.Enabled() && k !in old(entries) ==> PassedDown(old(Snapshot()), k, p, ok)
    {
      if !config.Enabled() {
        return true;
      }
      if k in entries {
        TouchSound(Snapshot(), k);
        tick := tick + 1;
        entries := entries[k := entries[k].(used := tick)];
        return true;
      }
      PrefixPolicy.InsertPassesDown(world, config, Snapshot(), k, p);
      tick := tick + 1;
      ok := InsertFresh(k, p);
    }

    /** The new prefix and the old entries, passed down oldest first from the store where all are on top. */
    ghost predicate PassedDown(s: Store<P>, k: Tokens, p: P, ok: bool)
      reads this
    {
      PrefixPolicy.Settled(world, config, Put(s.(tick := s.tick + 1), k, Entry(Device(p), s.tick + 1)), Outcome(Snapshot(), ok))
    }

    method InsertFresh(k: Tokens, p: P) returns (ok: bool)
      requires tick > 0 && Kept(config, Snapshot().(tick := tick - 1)) && k !in entries
      modifies this`entries, this`device, this`host, this`disk
      ensures Outcome(Snapshot(), ok) == InsertNew(world, config, old(Snapshot().(tick := tick - 1)), k, p)
    {
      PutSound(Snapshot(), k, Entry(Device(p), tick));
      entries := entries[k := Entry(Device(p), tick)];
      device := device + 1;
      ghost var s := Snapshot();
      while device > config.device
        invariant Sound(Snapshot()) && Demote(world, config, s) == Demote(world, config, Snapshot())
        decreases device
      {
        var done := DemoteOldest();
        if !done {
          return false;
        }
      }
      ghost var t := Snapshot();
      while host > config.host
        invariant Sound(Snapshot()) && Spill(world, config, t) == Spill(world, config, Snapshot())
        decreases HostEntries(Snapshot())
      {
        var done := SpillOldest();
        if !done {
          return false;
        }
      }
      return true;
    }

    /** What a stored prefix of the prompt restores to before the call. */
    ghost function Restored(m: map<Tokens, Entry<P>>, prompt: Tokens, n: nat): Option<P>
      requires n <= |prompt|
    {
      if prompt[..n] in m then world.restore(prompt[..n], m[prompt[..n]].tier) else None
    }

    /**
     `lookup`: the longest stored prefix that can be restored, and its length. Longer ones that cannot are
     discarded, so the loop ends.
     */
    method Lookup(prompt: Tokens) returns (r: Option<P>, n: nat)
      requires Valid()
      modifies this
      ensures Valid() && lookups == old(lookups) + 1 && hits == old(hits) + (if r.Some? then 1 else 0)
      ensures n <= |prompt| && Found(old(entries), prompt, n, r)
      ensures tick == old(tick) + 1 && reused == old(reused) + (if r.Some? then n else 0)
      ensures r.Some? ==> prompt[..n] in entries && entries[prompt[..n]] == old(entries)[prompt[..n]].(used := tick)
      ensures forall k :: k in entries && (r.Some? ==> k != prompt[..n]) ==> k in old(entries) && entries[k] == old(entries)[k]
      ensures forall k :: k in old(entries) && k !in entries ==> Unrestorable(old(entries), prompt, k)
    {
      lookups, tick := lookups + 1, tick + 1;
      ghost var m := entries;
      r, n := Search(prompt);
      if r.Some? {
        Stamp(prompt[..n]);
        hits, reused := hits + 1, reused + n;
      } else {
        TickedIsValid();
      }
    }

    method Search(prompt: Tokens) returns (r: Option<P>, n: nat)
      requires Ticked()
      modifies this`entries, this`device, this`host, this`disk
      ensures Ticked() && n <= |prompt| && Found(old(entries), prompt, n, r) && (r.Some? ==> prompt[..n] in entries)
      ensures forall k :: k in entries ==> k in old(entries) && entries[k] == old(entries)[k]
      ensures forall k :: k in old(entries) && k !in entries ==> Unrestorable(old(entries), prompt, k)
    {
      ghost var m := entries;
      while true
        invariant Ticked()
        invariant forall k :: k in m && k !in entries ==> Unrestorable(m, prompt, k)
        invariant forall k :: k in entries ==> k in m && entries[k] == m[k]
        invariant forall i: nat :: i <= |prompt| && prompt[..i] in m && prompt[..i] !in entries ==> Restored(m, prompt, i).None?
        decreases |entries|
      {
        var longest := LongestKey(entries, prompt);
        if longest.None? {
          return None, 0;
        }
        n := longest.value;
        r := world.restore(prompt[..n], entries[prompt[..n]].tier);
        if r.Some? {
          return;
        }
        assert Restored(m, prompt, n).None?;
        DiscardFailed(prompt[..n]);
      }
    }

    /** The clock has moved and no entry carries the new tick yet. */
    ghost predicate Ticked()
      reads this
    {
      tick > 0 && Kept(config, Snapshot().(tick := tick - 1))
    }

    lemma TickedIsValid()
      requires Ticked()
      ensures Valid()
    {
    }

    method Stamp(key: Tokens)
      requires Ticked() && key in entries
      modifies this`entries
      ensures Valid() && entries == old(entries)[key := old(entries)[key].(used := tick)]
    {
      TouchSound(Snapshot().(tick := tick - 1), key);
      entries := entries[key := entries[key].(used := tick)];
    }

    method DiscardFailed(key: Tokens)
      requires Ticked() && key in entries
      modifies this`entries, this`device, this`host, this`disk
      ensures Ticked() && entries == old(entries) - {key} && |entries| < |old(entries)|
    {
      TickedIsValid();
      DropSound(Snapshot(), key);
      DropSound(Snapshot().(tick := tick - 1), key);
      Discard(key);
    }

    /** A stored prefix of the prompt that cannot be restored. */
    ghost predicate Unrestorable(m: map<Tokens, Entry<P>>, prompt: Tokens, k: Tokens) {
      exists i: nat :: i <= |prompt| && k == prompt[..i] && Restored(m, prompt, i).None?
    }

    /** Either the prefix of length `n` is restored and no longer one can be, or none can be. */
    ghost predicate Found(m: map<Tokens, Entry<P>>, prompt: Tokens, n: nat, r: Option<P>)
      requires n <= |prompt|
    {
      && (r.Some? ==> r == Restored(m, prompt, n))
      && forall i: nat :: (r.Some? ==> n < i) && i <= |prompt| ==> Restored(m, prompt, i).None?
    }
  }
}
