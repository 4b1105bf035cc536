/** The cache one instance keeps: a sharded local map (L1) in front of a shared Redis (L2),
    negative markers for missing rows, and randomised lifetimes. Times are nanoseconds. */
module TwoLevelCache {
  import opened Options

  const SECOND := 1_000_000_000
  const MINUTE := 60 * SECOND
  const TTL_DEVICE := 10 * MINUTE
  const TTL_DEVICE_LOCAL := 30 * SECOND
  const TTL_DEFS := 30 * MINUTE
  const TTL_DEFS_LOCAL := 10 * SECOND
  const TTL_NEG := 30 * SECOND
  const SHARDS := 64

  // ---------- lifetimes ----------

  // The jittered lifetime; draw is the random number, below base / 2.
  function JitterTTL(base: nat, draw: nat): nat {
    if base < 4 then base else base + draw - base / 4
  }

  // A lifetime that jittering base can produce.
  predicate IsJittered(base: nat, ttl: nat) {
    if base < 4 then ttl == base else base - base / 4 <= ttl < base - base / 4 + base / 2
  }

  /** The lifetimes are within a quarter of the base, the upper end excluded, and each of them can occur. */
  lemma JitterRange(base: nat, ttl: nat)
    ensures (exists draw :: 0 <= draw && (base >= 4 ==> draw < base / 2) && JitterTTL(base, draw) == ttl)
            <==> IsJittered(base, ttl)
    ensures IsJittered(base, ttl) && base > 0 ==> 3 * base <= 4 * ttl < 5 * base
  {
    if IsJittered(base, ttl) {
      var draw := if base < 4 then 0 else ttl - base + base / 4;
      assert JitterTTL(base, draw) == ttl;
    }
  }

  function Min(a: nat, b: nat): nat {
    if a < b then a else b
  }

  // ---------- L1 ----------

  datatype LocalEntry<V> = Hit(value: V, expires: nat) | Missing(expires: nat)

  datatype Entry<V> = Entry(value: V, expires: nat)

  // A local entry serves until its time has passed; Redis drops a key when its time is reached.
  predicate LocalLive<V>(e: Option<LocalEntry<V>>, now: nat) {
    e.Some? && now <= e.value.expires
  }

  // A call with a local lifetime of zero neither reads nor fills L1.
  predicate Serves<V>(local: Option<LocalEntry<V>>, ttl: nat, now: nat) {
    ttl > 0 && LocalLive(local, now)
  }

  function Filled<V>(local: Option<LocalEntry<V>>, entry: LocalEntry<V>, ttl: nat): Option<LocalEntry<V>> {
    if ttl > 0 then Some(entry) else local
  }

  predicate Live<V>(e: Option<Entry<V>>, now: nat) {
    e.Some? && now < e.value.expires
  }

  predicate MarkerLive(marker: Option<nat>, now: nat) {
    marker.Some? && now < marker.value
  }

  function Find<K, V>(m: map<K, V>, k: K): Option<V> {
    if k in m then Some(m[k]) else None
  }

  /** The local cache: 64 maps, each under its own lock. It behaves as a single map. */
  class LocalCache<K(==,!new), V(!new)> {
    const hash: K -> nat
    const maxSize: nat := 10000 / SHARDS
    const shards: array<map<K, LocalEntry<V>>>

    ghost predicate Valid() reads this, shards {
      && shards.Length == SHARDS
      && forall i, k :: 0 <= i < SHARDS && k in shards[i] ==> Shard(k) == i
    }

    function Shard(key: K): (i: nat)
      ensures i < SHARDS
    {
      hash(key) % SHARDS
    }

    ghost function Lookup(key: K): Option<LocalEntry<V>>
      requires Valid()
      reads this, shards
    {
      Find(shards[Shard(key)], key)
    }

    constructor (hash: K -> nat)
      ensures Valid() && fresh(shards) && forall k :: Lookup(k) == None
    {
      this.hash := hash;
      this.shards := new map<K, LocalEntry<V>>[SHARDS](i => map[]);
    }

    method GetBytes(key: K, now: nat) returns (entry: Option<LocalEntry<V>>)
      requires Valid()
      ensures entry == if Lookup(key).Some? && now <= Lookup(key).value.expires then Lookup(key) else None
    {
      var shard := shards[Shard(key)];
      if key !in shard || now > shard[key].expires {
        return None;
      }
      return Some(shard[key]);
    }

    method Put(key: K, entry: LocalEntry<V>)
      requires Valid()
      modifies shards
      ensures Valid()
      ensures forall k :: Lookup(k) == if k == key then Some(entry) else old(Lookup(k))
    {
      var i := Shard(key);
      shards[i] := shards[i][key := entry];
    }

    method SetBytes(key: K, data: V, ttl: nat, now: nat)
      requires Valid()
      modifies shards
      ensures Valid()
      ensures forall k :: Lookup(k) == if k == key then Some(Hit(data, now + ttl)) else old(Lookup(k))
    {
      Put(key, Hit(data, now + ttl));
    }

    method SetNeg(key: K, ttl: nat, now: nat)
      requires Valid()
      modifies shards
      ensures Valid()
      ensures forall k :: Lookup(k) == if k == key then Some(Missing(now + ttl)) else old(Lookup(k))
    {
      Put(key, Missing(now + ttl));
    }

    method Delete(key: K)
      requires Valid()
      modifies shards
      ensures Valid()
      ensures forall k :: Lookup(k) == if k == key then None else old(Lookup(k))
    {
      var i := Shard(key);
      shards[i] := shards[i] - {key};
    }

    // The periodic sweep: no reader can tell that it ran.
    method Cleanup(now: nat)
      requires Valid()
      modifies shards
      ensures Valid()
      ensures forall k :: Lookup(k) ==
                if old(Lookup(k)).Some? && now <= old(Lookup(k)).value.expires then old(Lookup(k)) else None
    {
      for i := 0 to SHARDS
        invariant Valid()
        invariant forall j :: i <= j < SHARDS ==> shards[j] == old(shards[j])
        invariant forall j :: 0 <= j < i ==> shards[j] == Unexpired(old(shards[j]), now)
      {
        shards[i] := Unexpired(shards[i], now);
      }
    }

    // Set with the default lifetime: a full shard first drops a tenth of its entries, whichever come up.
    method Set(key: K, value: V, now: nat)
      requires Valid()
      modifies shards
      ensures Valid()
      ensures Lookup(key) == Some(Hit(value, now + 10 * SECOND))
      ensures forall k :: k != key ==> Lookup(k) == old(Lookup(k)) || Lookup(k) == None
      ensures forall k :: k != key && (Shard(k) != Shard(key) || |old(shards[Shard(key)])| < 156) ==>
                Lookup(k) == old(Lookup(k))
      ensures |old(shards[Shard(key)])| <= |shards[Shard(key)]| + 15
      ensures |old(shards[Shard(key)])| <= maxSize ==> |shards[Shard(key)]| <= maxSize
    {
      var i := Shard(key);
      var shard := shards[i];
      if |shard| >= maxSize {
        shard := DropSome(shard, maxSize / 10);
      }
      AtMostOneMore(shard, key, Hit(value, now + 10 * SECOND));
      shards[i] := shard[key := Hit(value, now + 10 * SECOND)];
    }

    // Drops some entries of a map, whichever come up.
    static method DropSome(shard: map<K, LocalEntry<V>>, some: nat) returns (left: map<K, LocalEntry<V>>)
      requires some <= |shard|
      ensures |left| == |shard| - some
      ensures forall k :: k in left ==> k in shard && left[k] == shard[k]
    {
      left := shard;
      for count := 0 to some
        invariant |left| == |shard| - count
        invariant forall k :: k in left ==> k in shard && left[k] == shard[k]
      {
        var k :| k in left.Keys;
        OneFewer(left, k);
        left := left - {k};
      }
    }
  }

  lemma OneFewer<K, V>(shard: map<K, V>, k: K)
    requires k in shard
    ensures |shard - {k}| == |shard| - 1
  {
    assert (shard - {k}).Keys == shard.Keys - {k};
  }

  lemma AtMostOneMore<K, V>(shard: map<K, V>, k: K, v: V)
    ensures |shard[k := v]| <= |shard| + 1
  {
    assert shard[k := v].Keys == shard.Keys + {k};
  }

  function Unexpired<K, V>(shard: map<K, LocalEntry<V>>, now: nat): map<K, LocalEntry<V>> {
    map k | k in shard && now <= shard[k].expires :: shard[k]
  }

  // ---------- one key, seen from one instance ----------

  // What one instance can see of a key: its own entry, the shared entry, the shared not-found marker.
  datatype Slot<V> = Slot(local: Option<LocalEntry<V>>, l2: Option<Entry<V>>, marker: Option<nat>)

  // Lifetimes to use: the jittered L2 lifetime, the jittered marker lifetime, the L1 lifetime.
  datatype Lifetimes = Lifetimes(redis: nat, marker: nat, local: nat)

  // What answers in a call: the first look at L2, the look at the marker, the look of the flight, the database (also
  // with "not found"), and the write to Redis.
  datatype Answering = Answering(get: bool, marker: bool, again: bool, loader: bool, write: bool)

  const ALL := Answering(true, true, true, true, true)

  // GetOrLoad without interference: L1, L2, marker, then the flight. There is no result when the database does not answer.
  function LoadWith<V>(s: Slot<V>, stored: Option<V>, t: Lifetimes, now: nat, a: Answering)
      : (Slot<V>, Option<Option<V>>)
  {
    if Serves(s.local, t.local, now) then
      (s, Some(if s.local.value.Missing? then None else Some(s.local.value.value)))
    else if a.get && Live(s.l2, now) then
      (s.(local := Filled(s.local, Hit(s.l2.value.value, now + t.local), t.local)), Some(Some(s.l2.value.value)))
    else if a.get && a.marker && MarkerLive(s.marker, now) then
      (s.(local := Filled(s.local, Missing(now + Min(t.local, TTL_NEG)), t.local)), Some(None))
    else
      Flown(s, stored, t, now, a)
  }

  // The flight looks at L2 once more, then loads from the database, filling what was missed.
  function Flown<V>(s: Slot<V>, stored: Option<V>, t: Lifetimes, now: nat, a: Answering)
      : (Slot<V>, Option<Option<V>>)
  {
    if a.again && Live(s.l2, now) then
      (s.(local := Filled(s.local, Hit(s.l2.value.value, now + t.local), t.local)), Some(Some(s.l2.value.value)))
    else if !a.loader then
      (s, None)
    else if stored.None? then
      (s.(marker := if a.write then Some(now + t.marker) else s.marker,
          local := Filled(s.local, Missing(now + Min(t.local, TTL_NEG)), t.local)), Some(None))
    else
      (s.(l2 := if a.write then Some(Entry(stored.value, now + t.redis)) else s.l2,
          local := Filled(s.local, Hit(stored.value, now + t.local), t.local)), Some(stored))
  }

  // Everything answers.
  function Load<V>(s: Slot<V>, stored: Option<V>, t: Lifetimes, now: nat): (Slot<V>, Option<V>) {
    var (after, dest) := LoadWith(s, stored, t, now, ALL);
    (after, if dest.Some? then dest.value else None)
  }

  /** What a call does, answer by answer. It has no result exactly when neither L1, nor an answered look at L2, nor the
      marker, looked at only after an answered look at L2, had one and the database did not answer. Then, and when
      something cached served it, L2 and marker stay; what came from Redis is kept in L1. Otherwise the row, or its
      absence, goes to L1 and, if Redis takes the write, to L2 or to the marker. */
  lemma CallAnswers<V>(s: Slot<V>, stored: Option<V>, t: Lifetimes, now: nat, a: Answering)
    ensures var (after, dest) := LoadWith(s, stored, t, now, a);
            var mine := t.local > 0 && s.local.Some? && now <= s.local.value.expires;
            var shared := s.l2.Some? && now < s.l2.value.expires && (a.get || a.again);
            var missing := a.get && a.marker && s.marker.Some? && now < s.marker.value;
            && (dest.None? <==> !mine && !shared && !missing && !a.loader)
            && (mine ==> after == s && (s.local.value.Missing? ==> dest == Some(None))
                         && (s.local.value.Hit? ==> dest == Some(Some(s.local.value.value))))
            && (!mine && shared ==> dest == Some(Some(s.l2.value.value)))
            && (!mine && !shared && missing ==> dest == Some(None))
            && (!mine && !shared && !missing && a.loader ==> dest == Some(stored))
            && (mine || shared || missing || !a.loader ==> after.l2 == s.l2 && after.marker == s.marker)
            && (!mine && !shared && !missing && a.loader ==>
                  && after.l2 == (if a.write && stored.Some? then Some(Entry(stored.value, now + t.redis)) else s.l2)
                  && after.marker == (if a.write && stored.None? then Some(now + t.marker) else s.marker))
            && (!mine && t.local > 0 && dest.Some? ==>
                  after.local == Some(if dest.value.Some? then Hit(dest.value.value, now + t.local)
                                      else Missing(now + if t.local < 30 * SECOND then t.local else 30 * SECOND)))
            && (t.local == 0 || dest.None? ==> after.local == s.local)
  {
  }

  // The Redis all instances share.
  class RedisStore<K(==,!new), V(!new)> {
    var l2: map<K, Entry<V>>
    var markers: map<K, nat>

    constructor ()
      ensures l2 == map[] && markers == map[]
    {
      l2, markers := map[], map[];
    }

    method Get(key: K, now: nat, answers: bool) returns (value: Option<V>)
      ensures value == if answers && Live(Find(l2, key), now) then Some(l2[key].value) else None
    {
      if answers && key in l2 && now < l2[key].expires {
        return Some(l2[key].value);
      }
      return None;
    }
  }

  /** The cache of one instance. Invalidations to publish are returned; delivering them is the network's part. */
  class RedisCache<K(==,!new), V(!new)> {
    const client: RedisStore<K, V>
    const local: LocalCache<K, V>

    ghost predicate Valid() reads this, client, local, local.shards {
      local.Valid()
    }

    ghost function SlotOf(key: K): Slot<V>
      requires Valid()
      reads this, client, local, local.shards
    {
      Slot(local.Lookup(key), Find(client.l2, key), Find(client.markers, key))
    }

    constructor (client: RedisStore<K, V>, local: LocalCache<K, V>)
      requires local.Valid()
      ensures Valid() && this.client == client && this.local == local
    {
      this.client, this.local := client, local;
    }

    method GetOrLoad(key: K, stored: Option<V>, t: Lifetimes, now: nat, a: Answering) returns (dest: Option<Option<V>>)
      requires Valid()
      modifies client, local.shards
      ensures Valid()
      ensures (SlotOf(key), dest) == LoadWith(old(SlotOf(key)), stored, t, now, a)
      ensures forall k :: k != key ==> SlotOf(k) == old(SlotOf(k))
    {
      if t.local > 0 {
        var mine := local.GetBytes(key, now);
        if mine.Some? {
          return Some(if mine.value.Missing? then None else Some(mine.value.value));
        }
      }
      var held := client.Get(key, now, a.get);
      if a.get && held.None? && a.marker && key in client.markers && now < client.markers[key] {
        if t.local > 0 {
          local.SetNeg(key, Min(t.local, TTL_NEG), now);
        }
        return Some(None);
      }
      if held.None? {
        dest := Fly(key, stored, t, now, a);
        return;
      }
      if t.local > 0 {
        local.SetBytes(key, held.value, t.local, now);
      }
      return Some(held);
    }

    method Fly(key: K, stored: Option<V>, t: Lifetimes, now: nat, a: Answering) returns (dest: Option<Option<V>>)
      requires Valid()
      modifies client, local.shards
      ensures Valid()
      ensures (SlotOf(key), dest) == Flown(old(SlotOf(key)), stored, t, now, a)
      ensures forall k :: k != key ==> SlotOf(k) == old(SlotOf(k))
    {
      var held := client.Get(key, now, a.again);
      if held.None? {
        if !a.loader {
          return None;
        }
        held := stored;
        if stored.None? {
          if a.write {
            client.markers := client.markers[key := now + t.marker];
          }
          if t.local > 0 {
            local.SetNeg(key, Min(t.local, TTL_NEG), now);
          }
          return Some(None);
        }
        if a.write {
          client.l2 := client.l2[key := Entry(stored.value, now + t.redis)];
        }
      }
      if t.local > 0 {
        local.SetBytes(key, held.value, t.local, now);
      }
      return Some(held);
    }

    // ok is whether Redis takes the write. If it does not, nothing changes and nobody is told.
    method CacheDevice(key: K, device: V, ttl: nat, now: nat, ok: bool) returns (publish: Option<K>)
      requires Valid()
      modifies client, local.shards
      ensures Valid() && publish == if ok then Some(key) else None
      ensures SlotOf(key) == if ok then Slot(None, Some(Entry(device, now + ttl)), old(SlotOf(key)).marker)
                             else old(SlotOf(key))
      ensures forall k :: k != key ==> SlotOf(k) == old(SlotOf(k))
    {
      if !ok {
        return None;
      }
      client.l2 := client.l2[key := Entry(device, now + ttl)];
      local.Delete(key);
      return Some(key);
    }

    // If Redis does not delete, the own L1 entry is gone all the same, but nobody is told.
    method EvictKey(key: K, evictLocal: bool, ok: bool) returns (publish: Option<K>)
      requires Valid()
      modifies client, local.shards
      ensures Valid() && publish == if ok then Some(key) else None
      ensures SlotOf(key) == Slot(if evictLocal then None else old(SlotOf(key)).local,
                                  if ok then None else old(SlotOf(key)).l2,
                                  old(SlotOf(key)).marker)
      ensures forall k :: k != key ==> SlotOf(k) == old(SlotOf(k))
    {
      if evictLocal {
        local.Delete(key);
      }
      if !ok {
        return None;
      }
      client.l2 := client.l2 - {key};
      return Some(key);
    }

    // A message from the invalidation channel.
    method OnInvalidate(key: K)
      requires Valid()
      modifies local.shards
      ensures Valid()
      ensures SlotOf(key) == old(SlotOf(key)).(local := None)
      ensures forall k :: k != key ==> SlotOf(k) == old(SlotOf(k))
    {
      local.Delete(key);
    }
  }
}
