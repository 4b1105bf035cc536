/** The cache of all instances against the database it speeds up. Each read, and each database write with its
    cache write and its publication, is one step; invalidations wait in one inbox per instance. */
module CacheCoherence {
  import opened Options
  import opened TwoLevelCache

  // Status and last-active change on their own and are cached in a separate hash.
  datatype Row = Row(meta: string, status: string)

  datatype Key = DeviceKey(id: string) | DefsKey(id: string)

  datatype Value = DeviceValue(row: Row) | DefsValue(defs: seq<string>)

  datatype World = World(
    now: nat,
    devices: map<string, Row>,
    defs: map<string, seq<string>>,
    l2: map<Key, Entry<Value>>,
    markers: map<Key, nat>,
    locals: seq<map<Key, LocalEntry<Value>>>,
    inboxes: seq<seq<Key>>)
  {
    predicate Shaped() {
      |locals| == |inboxes|
    }
  }

  // What a loader would read. Definitions are a list, empty when there are none.
  function Stored(w: World, key: Key): Option<Value> {
    match key
    case DeviceKey(id) => if id in w.devices then Some(DeviceValue(w.devices[id])) else None
    case DefsKey(id) => Some(DefsValue(if id in w.defs then w.defs[id] else []))
  }

  // Equal apart from the runtime status of a device.
  predicate SameData(a: Option<Value>, b: Option<Value>) {
    if a.Some? && b.Some? && a.value.DeviceValue? && b.value.DeviceValue?
    then a.value.row.meta == b.value.row.meta
    else a == b
  }

  function SlotOf(w: World, i: nat, key: Key): Slot<Value>
    requires i < |w.locals|
  {
    Slot(Find(w.locals[i], key), Find(w.l2, key), Find(w.markers, key))
  }

  function Update<K, V>(m: map<K, V>, k: K, v: Option<V>): map<K, V> {
    if v.Some? then m[k := v.value] else m - {k}
  }

  function PutSlot(w: World, i: nat, key: Key, s: Slot<Value>): World
    requires i < |w.locals|
  {
    w.(locals := w.locals[i := Update(w.locals[i], key, s.local)],
       l2 := Update(w.l2, key, s.l2),
       markers := Update(w.markers, key, s.marker))
  }

  function Broadcast(inboxes: seq<seq<Key>>, key: Key): (r: seq<seq<Key>>)
    ensures |r| == |inboxes|
  {
    seq(|inboxes|, i requires 0 <= i < |inboxes| => inboxes[i] + [key])
  }

  // ---------- steps ----------

  datatype Step =
    | Tick(elapsed: nat)
    | Read(reader: nat, key: Key, redisTTL: nat, markerTTL: nat)
    | Register(writer: nat, id: string, row: Row, ttl: nat)
    | UpdateMeta(writer: nat, id: string, meta: string, ttl: nat)
    | SetStatus(id: string, status: string)
    | DeleteDevice(writer: nat, id: string)
    | WriteDefs(writer: nat, id: string, list: seq<string>)
    | Deliver(receiver: nat)

  function LifetimesFor(key: Key, redisTTL: nat, markerTTL: nat): Lifetimes {
    Lifetimes(redisTTL, markerTTL, if key.DeviceKey? then TTL_DEVICE_LOCAL else TTL_DEFS_LOCAL)
  }

  predicate Enabled(w: World, s: Step) {
    match s
    case Tick(_) => true
    case Read(i, key, redisTTL, markerTTL) =>
      && i < |w.locals|
      && IsJittered(if key.DeviceKey? then TTL_DEVICE else TTL_DEFS, redisTTL)
      && IsJittered(TTL_NEG, markerTTL)
    case Register(i, id, _, ttl) => i < |w.locals| && id !in w.devices && IsJittered(TTL_DEVICE, ttl)
    case UpdateMeta(i, id, _, ttl) => i < |w.locals| && id in w.devices && IsJittered(TTL_DEVICE, ttl)
    case SetStatus(id, _) => id in w.devices
    case DeleteDevice(i, id) => i < |w.locals| && id in w.devices
    case WriteDefs(i, id, _) => i < |w.locals| && id in w.devices
    case Deliver(i) => i < |w.inboxes| && w.inboxes[i] != []
  }

  function LoadIn(w: World, s: Step): (Slot<Value>, Option<Value>)
    requires s.Read? && s.reader < |w.locals|
  {
    Load(SlotOf(w, s.reader, s.key), Stored(w, s.key), LifetimesFor(s.key, s.redisTTL, s.markerTTL), w.now)
  }

  // Write L2, forget the own L1 entry, tell every instance.
  function CacheDevice(w: World, i: nat, key: Key, value: Value, ttl: nat): World
    requires i < |w.locals|
  {
    w.(l2 := w.l2[key := Entry(value, w.now + ttl)],
       locals := w.locals[i := w.locals[i] - {key}],
       inboxes := Broadcast(w.inboxes, key))
  }

  // Forget the own L1 entry and L2, tell every instance.
  function Evict(w: World, i: nat, key: Key): World
    requires i < |w.locals|
  {
    w.(l2 := w.l2 - {key},
       locals := w.locals[i := w.locals[i] - {key}],
       inboxes := Broadcast(w.inboxes, key))
  }

  function Next(w: World, s: Step): World
    requires w.Shaped() && Enabled(w, s)
  {
    match s
    case Tick(d) => w.(now := w.now + d)
    case Read(i, key, _, _) => PutSlot(w, i, key, LoadIn(w, s).0)
    case Register(i, id, row, ttl) =>
      CacheDevice(w.(devices := w.devices[id := row]), i, DeviceKey(id), DeviceValue(row), ttl)
    case UpdateMeta(i, id, meta, ttl) =>
      var row := w.devices[id].(meta := meta);
      CacheDevice(w.(devices := w.devices[id := row]), i, DeviceKey(id), DeviceValue(row), ttl)
    case SetStatus(id, status) => w.(devices := w.devices[id := w.devices[id].(status := status)])
    case DeleteDevice(i, id) => Evict(w.(devices := w.devices - {id}, defs := w.defs - {id}), i, DeviceKey(id))
    case WriteDefs(i, id, list) => Evict(w.(defs := w.defs[id := list]), i, DefsKey(id))
    case Deliver(i) =>
      w.(locals := w.locals[i := w.locals[i] - {w.inboxes[i][0]}],
         inboxes := w.inboxes[i := w.inboxes[i][1..]])
  }

  // ---------- the invariant, key by key ----------

  // L2 holds what the database holds.
  predicate L2Agrees(w: World, key: Key) {
    Live(Find(w.l2, key), w.now) ==> SameData(Some(w.l2[key].value), Stored(w, key))
  }

  function LocalAnswer(e: LocalEntry<Value>): Option<Value> {
    if e.Hit? then Some(e.value) else None
  }

  // An L1 entry, present or not-found, may be wrong only while its invalidation is still on the way.
  predicate L1Agrees(w: World, i: nat, key: Key)
    requires i < |w.locals| && w.Shaped()
  {
    LocalLive(Find(w.locals[i], key), w.now) && key !in w.inboxes[i]
    ==> SameData(LocalAnswer(w.locals[i][key]), Stored(w, key))
  }

  // A leftover marker of an existing row is covered by an L2 entry that outlives it. Lists are never missing.
  predicate MarkerCovered(w: World, key: Key) {
    && (key.DefsKey? ==> key !in w.markers)
    && (key in w.markers ==> 4 * w.markers[key] < 4 * w.now + 5 * TTL_NEG)
    && (MarkerLive(Find(w.markers, key), w.now) && Stored(w, key).Some?
        ==> key in w.l2 && w.markers[key] < w.l2[key].expires)
  }

  ghost predicate KeyCoherent(w: World, key: Key)
    requires w.Shaped()
  {
    L2Agrees(w, key) && MarkerCovered(w, key) && forall i | 0 <= i < |w.locals| :: L1Agrees(w, i, key)
  }

  // The key a step reads or writes.
  predicate Touches(s: Step, key: Key) {
    match s
    case Tick(_) => true
    case Read(_, k, _, _) => k == key
    case Register(_, id, _, _) => key == DeviceKey(id)
    case UpdateMeta(_, id, _, _) => key == DeviceKey(id)
    case SetStatus(id, _) => key == DeviceKey(id)
    case DeleteDevice(_, id) => key == DeviceKey(id) || key == DefsKey(id)
    case WriteDefs(_, id, _) => key == DefsKey(id)
    case Deliver(_) => true
  }

  lemma Untouched(w: World, s: Step, key: Key)
    requires w.Shaped() && Enabled(w, s) && !Touches(s, key) && KeyCoherent(w, key)
    ensures KeyCoherent(Next(w, s), key)
  {
    hide Load, IsJittered, SameData, LocalAnswer;
    var w' := Next(w, s);
    forall i | 0 <= i < |w.locals| ensures L1Agrees(w', i, key) {
      assert L1Agrees(w, i, key);
      assert Find(w'.locals[i], key) == Find(w.locals[i], key);
      assert key in w.inboxes[i] ==> key in w'.inboxes[i];
    }
  }

  lemma ReadKeeps(w: World, s: Step, key: Key)
    requires w.Shaped() && Enabled(w, s) && KeyCoherent(w, key) && s.Read? && s.key == key
    ensures KeyCoherent(Next(w, s), key)
  {
    var w' := Next(w, s);
    ReadKeepsOwn(w, s, key);
    hide Load, SlotOf, IsJittered, SameData, Live, LocalLive;
    forall i | 0 <= i < |w.locals| && i != s.reader ensures L1Agrees(w', i, key) {
      assert L1Agrees(w, i, key);
      assert w'.locals[i] == w.locals[i];
    }
  }

  lemma ReadKeepsOwn(w: World, s: Step, key: Key)
    requires w.Shaped() && Enabled(w, s) && KeyCoherent(w, key) && s.Read? && s.key == key
    ensures var w' := Next(w, s);
            && w'.Shaped() && s.reader < |w'.locals|
            && L2Agrees(w', key) && MarkerCovered(w', key) && L1Agrees(w', s.reader, key)
  {
    assert L1Agrees(w, s.reader, key);
  }

  lemma WriteKeeps(w: World, s: Step, key: Key)
    requires w.Shaped() && Enabled(w, s) && KeyCoherent(w, key) && Touches(s, key)
    requires s.Register? || s.UpdateMeta? || s.WriteDefs? || (s.DeleteDevice? && key.DeviceKey?)
    ensures KeyCoherent(Next(w, s), key)
  {
    var w' := Next(w, s);
    forall i | 0 <= i < |w.locals| ensures L1Agrees(w', i, key) {
      assert w'.inboxes[i] == w.inboxes[i] + [key];
      assert key in w'.inboxes[i];
    }
    if s.Register? || s.UpdateMeta? {
      JitterRange(TTL_DEVICE, s.ttl);
    }
  }

  lemma PassiveKeeps(w: World, s: Step, key: Key)
    requires w.Shaped() && Enabled(w, s) && KeyCoherent(w, key)
    requires s.Tick? || s.SetStatus? || s.Deliver?
    ensures KeyCoherent(Next(w, s), key)
  {
    var w' := Next(w, s);
    forall i | 0 <= i < |w.locals| ensures L1Agrees(w', i, key) {
      assert L1Agrees(w, i, key);
      if s.Deliver? && i == s.receiver {
        assert w.inboxes[i] == [w.inboxes[i][0]] + w.inboxes[i][1..];
      }
    }
  }

  /** Every step keeps every key coherent, except that deleting a device is excluded for its definition list. */
  lemma StepKeeps(w: World, s: Step, key: Key)
    requires w.Shaped() && Enabled(w, s) && KeyCoherent(w, key)
    requires !(s.DeleteDevice? && key == DefsKey(s.id))
    ensures Next(w, s).Shaped() && KeyCoherent(Next(w, s), key)
  {
    if !Touches(s, key) {
      Untouched(w, s, key);
    } else if s.Read? {
      ReadKeeps(w, s, key);
    } else if s.Tick? || s.SetStatus? || s.Deliver? {
      PassiveKeeps(w, s, key);
    } else {
      WriteKeeps(w, s, key);
    }
  }

  // The definition list answers that deleting a device would leave behind: those still cached as non-empty.
  predicate LeavesDefs(w: World, id: string)
    requires w.Shaped()
  {
    var key := DefsKey(id);
    || (Live(Find(w.l2, key), w.now) && w.l2[key].value != DefsValue([]))
    || exists i :: && 0 <= i < |w.locals| && LocalLive(Find(w.locals[i], key), w.now) && key !in w.inboxes[i]
                   && LocalAnswer(w.locals[i][key]) != Some(DefsValue([]))
  }

  /** Deleting a device evicts its row but not its definition list. The list stays right exactly when
      no non-empty list of that device was cached anywhere. */
  lemma DeleteKeepsDefsIff(w: World, s: Step)
    requires w.Shaped() && Enabled(w, s) && s.DeleteDevice? && KeyCoherent(w, DefsKey(s.id))
    ensures Next(w, s).Shaped() && (KeyCoherent(Next(w, s), DefsKey(s.id)) <==> !LeavesDefs(w, s.id))
  {
    var key, w' := DefsKey(s.id), Next(w, s);
    assert Stored(w', key) == Some(DefsValue([]));
    forall i | 0 <= i < |w.locals|
      ensures L1Agrees(w', i, key) <==>
              !(LocalLive(Find(w.locals[i], key), w.now) && key !in w.inboxes[i]
                && LocalAnswer(w.locals[i][key]) != Some(DefsValue([])))
    {
      assert Find(w'.locals[i], key) == Find(w.locals[i], key);
      assert key in w'.inboxes[i] <==> key in w.inboxes[i];
    }
  }

  // ---------- runs ----------

  predicate Runnable(w: World, steps: seq<Step>)
    requires w.Shaped()
    decreases |steps|
  {
    steps == [] || (Enabled(w, steps[0]) && Next(w, steps[0]).Shaped() && Runnable(Next(w, steps[0]), steps[1..]))
  }

  function After(w: World, steps: seq<Step>): World
    requires w.Shaped() && Runnable(w, steps)
    decreases |steps|
  {
    if steps == [] then w else After(Next(w, steps[0]), steps[1..])
  }

  predicate DeletesDevice(steps: seq<Step>, id: string) {
    exists i :: 0 <= i < |steps| && steps[i].DeleteDevice? && steps[i].id == id
  }

  // Empty caches and inboxes over any database.
  predicate Fresh(w: World) {
    w.Shaped() && w.l2 == map[] && w.markers == map[]
    && (forall i :: 0 <= i < |w.locals| ==> w.locals[i] == map[])
  }

  lemma {:induction false} RunKeeps(w: World, steps: seq<Step>, key: Key)
    requires w.Shaped() && Runnable(w, steps) && KeyCoherent(w, key)
    requires key.DefsKey? ==> !DeletesDevice(steps, key.id)
    ensures After(w, steps).Shaped() && KeyCoherent(After(w, steps), key)
    decreases |steps|
  {
    if steps == [] {
    } else {
      StepKeeps(w, steps[0], key);
      assert forall i :: 0 <= i < |steps[1..]| ==> steps[1..][i] == steps[i + 1];
      RunKeeps(Next(w, steps[0]), steps[1..], key);
    }
  }

  /** In every run from empty caches, any number of instances: a read answers with the database's data (a device
      apart from its status) unless an invalidation for that key is still in the reader's inbox.
      Definition lists need a run that does not delete their device. */
  lemma ReadsAgree(w: World, steps: seq<Step>, read: Step)
    requires Fresh(w) && Runnable(w, steps)
    requires read.Read? && After(w, steps).Shaped() && Enabled(After(w, steps), read)
    requires read.key.DefsKey? ==> !DeletesDevice(steps, read.key.id)
    ensures var now := After(w, steps);
            && L2Agrees(now, read.key)
            && (read.key !in now.inboxes[read.reader] ==> SameData(LoadIn(now, read).1, Stored(now, read.key)))
  {
    RunKeeps(w, steps, read.key);
    var now := After(w, steps);
    assert L1Agrees(now, read.reader, read.key);
  }

  /** In every run a leftover not-found marker never hides a registered device: whoever gets past its own L1
      finds the row, although the marker is still there. */
  lemma MarkerNeverHides(w: World, steps: seq<Step>, id: string)
    requires Fresh(w) && Runnable(w, steps)
    ensures var now := After(w, steps);
            MarkerLive(Find(now.markers, DeviceKey(id)), now.now) && id in now.devices ==>
            && DeviceKey(id) in now.l2
            && now.markers[DeviceKey(id)] < now.l2[DeviceKey(id)].expires
            && now.l2[DeviceKey(id)].value.DeviceValue?
            && now.l2[DeviceKey(id)].value.row.meta == now.devices[id].meta
  {
    RunKeeps(w, steps, DeviceKey(id));
  }

  /** Once an instance has received all its invalidations, every read from it answers like the database, and so does
      every live L1 entry it holds. */
  lemma DrainedInboxAgrees(w: World, steps: seq<Step>, i: nat)
    requires Fresh(w) && Runnable(w, steps) && i < |w.locals|
    ensures var now := After(w, steps);
            && now.Shaped() && i < |now.locals|
            && (now.inboxes[i] == [] ==>
                  && (forall read: Step ::
                        read.Read? && read.reader == i && Enabled(now, read)
                        && (read.key.DefsKey? ==> !DeletesDevice(steps, read.key.id))
                        ==> SameData(LoadIn(now, read).1, Stored(now, read.key)))
                  && (forall key :: LocalLive(Find(now.locals[i], key), now.now)
                        && (key.DefsKey? ==> !DeletesDevice(steps, key.id))
                        ==> SameData(LocalAnswer(now.locals[i][key]), Stored(now, key))))
  {
    hide Next, Enabled, Fresh, LoadIn, Stored, SameData, LocalAnswer, Runnable, After;
    FreshIsCoherent(w, DeviceKey(""));
    var now := After(w, steps);
    RunKeeps(w, steps, DeviceKey(""));
    SameInstances(w, steps);
    if now.inboxes[i] == [] {
      forall read: Step | read.Read? && read.reader == i && Enabled(now, read)
                          && (read.key.DefsKey? ==> !DeletesDevice(steps, read.key.id))
        ensures SameData(LoadIn(now, read).1, Stored(now, read.key))
      {
        ReadsAgree(w, steps, read);
      }
      forall key | LocalLive(Find(now.locals[i], key), now.now) && (key.DefsKey? ==> !DeletesDevice(steps, key.id))
        ensures SameData(LocalAnswer(now.locals[i][key]), Stored(now, key))
      {
        FreshIsCoherent(w, key);
        RunKeeps(w, steps, key);
        assert L1Agrees(now, i, key);
      }
    }
  }

  lemma FreshIsCoherent(w: World, key: Key)
    requires Fresh(w)
    ensures w.Shaped() && KeyCoherent(w, key)
  {
  }

  /** A run that deletes a device whose list was cached: the list is still served, with no invalidation on its way. */
  lemma DeletedListIsStillServed() returns (w: World, steps: seq<Step>, read: Step)
    ensures Fresh(w) && Runnable(w, steps) && read == Read(0, DefsKey("d"), TTL_DEFS, TTL_NEG)
    ensures steps == [read, DeleteDevice(0, "d")]
    ensures var now := After(w, steps);
            && now.Shaped() && Enabled(now, read) && read.key !in now.inboxes[0]
            && LoadIn(now, read).1 == Some(DefsValue(["a"])) && Stored(now, read.key) == Some(DefsValue([]))
  {
    var key := DefsKey("d");
    read := Read(0, key, TTL_DEFS, TTL_NEG);
    var delete := DeleteDevice(0, "d");
    steps := [read, delete];
    w := World(0, map["d" := Row("m", "ONLINE")], map["d" := ["a"]], map[], map[], [map[]], [[]]);
    var cached := Next(w, read);
    assert Find(cached.l2, key) == Some(Entry(DefsValue(["a"]), TTL_DEFS));
    assert Find(cached.locals[0], key) == Some(Hit(DefsValue(["a"]), TTL_DEFS_LOCAL));
    var gone := Next(cached, delete);
    assert gone.inboxes[0] == [DeviceKey("d")];
    assert Find(gone.locals[0], key) == Find(cached.locals[0], key);
    assert [delete] + [] == [delete] && [read] + [delete] == steps;
    Along(cached, delete, []);
    Along(w, read, [delete]);
  }

  lemma Along(w: World, s: Step, rest: seq<Step>)
    requires w.Shaped() && Enabled(w, s) && Next(w, s).Shaped() && Runnable(Next(w, s), rest)
    ensures Runnable(w, [s] + rest) && After(w, [s] + rest) == After(Next(w, s), rest)
  {
    hide Next, Enabled;
    assert ([s] + rest)[1..] == rest;
  }

  lemma {:induction false} SameInstances(w: World, steps: seq<Step>)
    requires w.Shaped() && Runnable(w, steps)
    ensures |After(w, steps).locals| == |w.locals| == |After(w, steps).inboxes|
    decreases |steps|
  {
    if steps == [] {
    } else {
      SameInstances(Next(w, steps[0]), steps[1..]);
    }
  }
}
