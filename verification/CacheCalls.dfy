/** One call of GetOrLoad in the machine of CacheFlights: alone it is the call of TwoLevelCache, and a run in which a write
    comes between its load and its L2 write. */
module CacheCalls {
  import opened CacheFlights
  import opened Options
  import opened TwoLevelCache

  function RunFrom(cfg: Config, s: State, events: seq<Event>): Option<State>
    decreases |events|
  {
    if events == [] then Some(s)
    else if Enabled(cfg, s, events[0]) then RunFrom(cfg, Next(cfg, s, events[0]), events[1..])
    else None
  }

  lemma {:induction false} RunFromAppend(cfg: Config, s: State, a: seq<Event>, b: seq<Event>)
    requires RunFrom(cfg, s, a).Some?
    ensures RunFrom(cfg, s, a + b) == RunFrom(cfg, RunFrom(cfg, s, a).value, b)
    decreases |a|
  {
    if a == [] {
      assert a + b == b;
    } else {
      assert (a + b)[0] == a[0] && (a + b)[1..] == a[1..] + b;
      RunFromAppend(cfg, Next(cfg, s, a[0]), a[1..], b);
    }
  }

  // ---------- a call alone ----------

  // A call that nothing interferes with: what answers in it, what the database holds, the lifetimes drawn, the time.
  datatype Lone = Lone(cfg: Config, t: Lifetimes, a: Answering, db: Option<Data>, now: nat) {
    predicate Valid() {
      IsJittered(cfg.redisTTL, t.redis) && IsJittered(TTL_NEG, t.marker) && t.local == cfg.localTTL
    }

    // One instance and one caller that has just arrived, or is on its way.
    function Solo(slot: Slot<Data>, flight: Flight, done: seq<Done>, place: Place): State {
      State(now, db, slot.l2, slot.marker, [Instance(slot.local, flight, done)],
            map[0 := Caller(0, now, place)], map[])
    }
  }

  // A step of the call or of its flight, whose command works if it is to.
  predicate OwnStep(c: Lone, s: State, e: Event) {
    && Enabled(c.cfg, s, e)
    && match e
       case CallerStep(caller, ok) =>
         (match s.callers[caller].place
          case AtL2 => ok == c.a.get
          case AtMarker => ok == c.a.marker
          case _ => true)
       case FlightStep(i, ok, ttl) =>
         (match s.instances[i].flight
          case Checking(_) => ok == c.a.again
          case Missed(_) => ok == c.a.loader
          case Storing(_, _) => ok == c.a.write && ttl == c.t.redis
          case Marking(_) => ok == c.a.write && ttl == c.t.marker
          case _ => true)
       case _ => false
  }

  // Own steps lead from s to end.
  predicate Alone(c: Lone, s: State, events: seq<Event>, end: State)
    decreases |events|
  {
    if events == [] then s == end
    else OwnStep(c, s, events[0]) && Alone(c, Next(c.cfg, s, events[0]), events[1..], end)
  }

  lemma {:induction false} AloneRuns(c: Lone, s: State, events: seq<Event>, end: State)
    requires Alone(c, s, events, end)
    ensures RunFrom(c.cfg, s, events) == Some(end)
    decreases |events|
  {
    if events != [] {
      AloneRuns(c, Next(c.cfg, s, events[0]), events[1..], end);
    }
  }

  // The events of some steps, with one more in front.
  lemma Then(c: Lone, s: State, e: Event, s': State, events: seq<Event>, end: State) returns (longer: seq<Event>)
    requires OwnStep(c, s, e) && Next(c.cfg, s, e) == s' && Alone(c, s', events, end)
    ensures Alone(c, s, longer, end)
  {
    longer := [e] + events;
    assert longer[1..] == events;
  }

  // The same for a step of the caller that changes nothing but its place.
  lemma Looks(c: Lone, slot: Slot<Data>, done: seq<Done>, place: Place, ok: bool, events: seq<Event>, end: State)
    returns (longer: seq<Event>)
    requires place.AtL1? || place.AtL2? || place.AtMarker? || (place.Waiting? && place.n < |done|)
    requires (place.AtL2? ==> ok == c.a.get) && (place.AtMarker? ==> ok == c.a.marker)
    requires var s := c.Solo(slot, Idle, done, place);
             var next := NextPlace(c.cfg, s, s.instances[0], place, ok);
             Alone(c, c.Solo(slot, Idle, done, next), events, end)
    ensures Alone(c, c.Solo(slot, Idle, done, place), longer, end)
  {
    hide Alone;
    var s := c.Solo(slot, Idle, done, place);
    var next := NextPlace(c.cfg, s, s.instances[0], place, ok);
    longer := Then(c, s, CallerStep(0, ok), c.Solo(slot, Idle, done, next), events, end);
  }

  lemma Ends(c: Lone, s: State) returns (events: seq<Event>)
    ensures Alone(c, s, events, s)
  {
    events := [];
  }

  function FilledBy(c: Lone, slot: Slot<Data>, entry: LocalEntry<Data>): Slot<Data> {
    slot.(local := Filled(slot.local, entry, c.t.local))
  }

  // A caller about to keep what it found in L1.
  lemma Keeps(c: Lone, slot: Slot<Data>, done: seq<Done>, place: Place) returns (events: seq<Event>)
    requires c.Valid() && (place.FillHit? || place.FillMissing?)
    ensures var entry := if place.FillHit? then Hit(place.data, c.now + c.t.local)
                         else Missing(c.now + Min(c.t.local, TTL_NEG));
            var answer := if place.FillHit? then Found(place.data) else NotFound;
            Alone(c, c.Solo(slot, Idle, done, place), events,
                  c.Solo(FilledBy(c, slot, entry), Idle, done, Returned(answer, c.now)))
  {
    hide Alone;
    var entry := if place.FillHit? then Hit(place.data, c.now + c.t.local)
                 else Missing(c.now + Min(c.t.local, TTL_NEG));
    var answer := if place.FillHit? then Found(place.data) else NotFound;
    var end := c.Solo(FilledBy(c, slot, entry), Idle, done, Returned(answer, c.now));
    events := Ends(c, end);
    events := Then(c, c.Solo(slot, Idle, done, place), CallerStep(0, true), end, events, end);
  }

  function Landed(c: Lone, slot: Slot<Data>, answer: Answer): State {
    c.Solo(if answer.Found? then FilledBy(c, slot, Hit(answer.data, c.now + c.t.local)) else slot,
           Idle, [Done(c.now, answer)], Returned(answer, c.now))
  }

  // From the end of the flight to the answer.
  lemma Lands(c: Lone, slot: Slot<Data>, answer: Answer) returns (events: seq<Event>)
    requires c.Valid()
    ensures Alone(c, c.Solo(slot, Ending(c.now, answer), [], Waiting(0)), events, Landed(c, slot, answer))
  {
    hide Alone;
    var done, end := [Done(c.now, answer)], Landed(c, slot, answer);
    assert [] + done == done;
    if answer.Found? {
      events := Keeps(c, slot, done, FillHit(answer.data));
    } else {
      events := Ends(c, end);
    }
    events := Looks(c, slot, done, Waiting(0), true, events, end);
    events := Then(c, c.Solo(slot, Ending(c.now, answer), [], Waiting(0)), FlightStep(0, true, 0),
                   c.Solo(slot, Idle, done, Waiting(0)), events, end);
  }

  function AnswerOf(dest: Option<Option<Data>>): Answer {
    match dest case None => Failed case Some(None) => NotFound case Some(Some(data)) => Found(data)
  }

  // What a flight that was not served by L2 does next.
  lemma Loads(c: Lone, slot: Slot<Data>) returns (events: seq<Event>, done: seq<Done>)
    requires c.Valid() && !(c.a.again && Live(slot.l2, c.now))
    ensures var (after, dest) := Flown(slot, c.db, c.t, c.now, c.a);
            Alone(c, c.Solo(slot, Missed(c.now), [], Waiting(0)), events,
                  c.Solo(after, Idle, done, Returned(AnswerOf(dest), c.now)))
  {
    hide Alone;
    var (after, dest) := Flown(slot, c.db, c.t, c.now, c.a);
    var answer := AnswerOf(dest);
    done := [Done(c.now, answer)];
    var missed := c.Solo(slot, Missed(c.now), [], Waiting(0));
    var end := c.Solo(after, Idle, done, Returned(answer, c.now));
    if !c.a.loader {
      events := Lands(c, slot, Failed);
      events := Then(c, missed, FlightStep(0, false, 0), c.Solo(slot, Ending(c.now, Failed), [], Waiting(0)), events, end);
    } else if c.db.Some? {
      events := Stores(c, slot, c.db.value);
      var storing := c.Solo(slot, Storing(c.now, c.db.value), [], Waiting(0));
      events := Then(c, missed, FlightStep(0, true, 0), storing, events, end);
    } else {
      events := MarksMissing(c, slot);
      events := Then(c, missed, FlightStep(0, true, 0), c.Solo(slot, Marking(c.now), [], Waiting(0)), events, end);
    }
  }

  lemma Stores(c: Lone, slot: Slot<Data>, row: Data) returns (events: seq<Event>)
    requires c.Valid()
    ensures var stored := slot.(l2 := if c.a.write then Some(Entry(row, c.now + c.t.redis)) else slot.l2);
            Alone(c, c.Solo(slot, Storing(c.now, row), [], Waiting(0)), events, Landed(c, stored, Found(row)))
  {
    hide Alone;
    var stored := slot.(l2 := if c.a.write then Some(Entry(row, c.now + c.t.redis)) else slot.l2);
    events := Lands(c, stored, Found(row));
    events := Then(c, c.Solo(slot, Storing(c.now, row), [], Waiting(0)), FlightStep(0, c.a.write, c.t.redis),
                   c.Solo(stored, Ending(c.now, Found(row)), [], Waiting(0)), events, Landed(c, stored, Found(row)));
  }

  lemma MarksMissing(c: Lone, slot: Slot<Data>) returns (events: seq<Event>)
    requires c.Valid()
    ensures var marked := slot.(marker := if c.a.write then Some(c.now + c.t.marker) else slot.marker);
            var both := FilledBy(c, marked, Missing(c.now + Min(c.t.local, TTL_NEG)));
            Alone(c, c.Solo(slot, Marking(c.now), [], Waiting(0)), events, Landed(c, both, NotFound))
  {
    hide Alone;
    var marked := slot.(marker := if c.a.write then Some(c.now + c.t.marker) else slot.marker);
    var both := FilledBy(c, marked, Missing(c.now + Min(c.t.local, TTL_NEG)));
    var end := Landed(c, both, NotFound);
    events := Lands(c, both, NotFound);
    var local := c.Solo(marked, MarkingLocal(c.now), [], Waiting(0));
    events := Then(c, local, FlightStep(0, true, 0), c.Solo(both, Ending(c.now, NotFound), [], Waiting(0)), events, end);
    events := Then(c, c.Solo(slot, Marking(c.now), [], Waiting(0)), FlightStep(0, c.a.write, c.t.marker), local,
                   events, end);
  }

  // From the start of the flight to the answer.
  lemma Flies(c: Lone, slot: Slot<Data>) returns (events: seq<Event>, done: seq<Done>)
    requires c.Valid()
    ensures var (after, dest) := Flown(slot, c.db, c.t, c.now, c.a);
            Alone(c, c.Solo(slot, Idle, [], AtFlight), events,
                  c.Solo(after, Idle, done, Returned(AnswerOf(dest), c.now)))
  {
    hide Alone;
    var (after, dest) := Flown(slot, c.db, c.t, c.now, c.a);
    var checking := c.Solo(slot, Checking(c.now), [], Waiting(0));
    var end;
    if c.a.again && Live(slot.l2, c.now) {
      var found := Found(slot.l2.value.value);
      done, end := [Done(c.now, found)], Landed(c, slot, found);
      events := Lands(c, slot, found);
      events := Then(c, checking, FlightStep(0, true, 0), c.Solo(slot, Ending(c.now, found), [], Waiting(0)), events, end);
    } else {
      events, done := Loads(c, slot);
      end := c.Solo(after, Idle, done, Returned(AnswerOf(dest), c.now));
      events := Then(c, checking, FlightStep(0, c.a.again, 0), c.Solo(slot, Missed(c.now), [], Waiting(0)), events, end);
    }
    events := Then(c, c.Solo(slot, Idle, [], AtFlight), CallerStep(0, true), checking, events, end);
  }

  // From the first look at L2 to the answer.
  lemma AsksRedis(c: Lone, slot: Slot<Data>) returns (events: seq<Event>, done: seq<Done>)
    requires c.Valid() && !Serves(slot.local, c.t.local, c.now)
    ensures var (after, dest) := LoadWith(slot, c.db, c.t, c.now, c.a);
            Alone(c, c.Solo(slot, Idle, [], AtL2), events,
                  c.Solo(after, Idle, done, Returned(AnswerOf(dest), c.now)))
  {
    hide Alone, Flown;
    var (after, dest) := LoadWith(slot, c.db, c.t, c.now, c.a);
    done := [];
    if c.a.get && Live(slot.l2, c.now) {
      events := Keeps(c, slot, [], FillHit(slot.l2.value.value));
    } else if c.a.get && c.a.marker && MarkerLive(slot.marker, c.now) {
      events := Keeps(c, slot, [], FillMissing);
    } else {
      events, done := Flies(c, slot);
    }
    var end := c.Solo(after, Idle, done, Returned(AnswerOf(dest), c.now));
    if c.a.get && !Live(slot.l2, c.now) {
      events := Looks(c, slot, [], AtMarker, c.a.marker, events, end);
    }
    events := Looks(c, slot, [], AtL2, c.a.get, events, end);
  }

  // Where an undisturbed call can be: only it or its flight can move.
  predicate Lonely(s: State) {
    && |s.instances| == 1 && s.callers.Keys == {0} && s.callers[0].instance == 0
    && (!s.instances[0].flight.Idle? ==> s.callers[0].place == Waiting(|s.instances[0].done|))
  }

  lemma OnlyOneWay(c: Lone, s: State, e: Event, e': Event)
    requires Lonely(s) && OwnStep(c, s, e) && OwnStep(c, s, e')
    ensures Enabled(c.cfg, s, e)
    ensures Next(c.cfg, s, e) == Next(c.cfg, s, e') && Lonely(Next(c.cfg, s, e)) && Active(s.callers[0])
  {
  }

  lemma {:induction false} SameEnd(c: Lone, s: State, events: seq<Event>, end: State, events': seq<Event>, end': State)
    requires Lonely(s) && Alone(c, s, events, end) && Alone(c, s, events', end')
    requires 0 in end.callers && !Active(end.callers[0]) && 0 in end'.callers && !Active(end'.callers[0])
    ensures end == end'
    decreases |events|
  {
    hide Next, OwnStep, Lonely;
    if events != [] {
      OnlyOneWay(c, s, events[0], events[0]);
    }
    if events' != [] {
      OnlyOneWay(c, s, events'[0], events'[0]);
    }
    if events != [] && events' != [] {
      OnlyOneWay(c, s, events[0], events'[0]);
      SameEnd(c, Next(c.cfg, s, events[0]), events[1..], end, events'[1..], end');
    }
  }

  /** The machine refines the call without interference: alone, whatever of Redis and the database answers in it, a call
      of GetOrLoad that returns has the answer of TwoLevelCache.LoadWith and leaves its caches, and there is such
      a run. */
  lemma LoneCallIsLoad(c: Lone, slot: Slot<Data>) returns (events: seq<Event>, done: seq<Done>)
    requires c.Valid()
    ensures var (after, dest) := LoadWith(slot, c.db, c.t, c.now, c.a);
            var start, end := c.Solo(slot, Idle, [], AtL1), c.Solo(after, Idle, done, Returned(AnswerOf(dest), c.now));
            Alone(c, start, events, end) && OnlyEnd(c, start, end)
  {
    hide Alone;
    var (after, dest) := LoadWith(slot, c.db, c.t, c.now, c.a);
    var start := c.Solo(slot, Idle, [], AtL1);
    if Serves(slot.local, c.t.local, c.now) {
      done := [];
      events := Ends(c, c.Solo(after, Idle, done, Returned(AnswerOf(dest), c.now)));
    } else {
      events, done := AsksRedis(c, slot);
    }
    var end := c.Solo(after, Idle, done, Returned(AnswerOf(dest), c.now));
    events := Looks(c, slot, [], AtL1, true, events, end);
    forall es, s | Alone(c, start, es, s) && 0 in s.callers && !Active(s.callers[0]) ensures s == end {
      SameEnd(c, start, events, end, es, s);
    }
  }

  // Every run of own steps after which the caller has returned ends there.
  ghost predicate OnlyEnd(c: Lone, start: State, end: State) {
    forall es, s :: Alone(c, start, es, s) && 0 in s.callers && !Active(s.callers[0]) ==> s == end
  }

  /** Exact agreement of L2 with the database does fail: a write and its eviction between a load and its
      L2 write leave the old row in L2. */
  lemma SplitLoadKeepsOldRow(cfg: Config) returns (s: State, loading: seq<Event>)
    requires cfg.redisTTL == TTL_DEVICE
    ensures Initial(s)
    ensures var end := RunFrom(cfg, s, loading + [Write(Some("new")), EvictL2, FlightStep(0, true, TTL_DEVICE)]);
            && end.Some? && end.value.db == Some("new")
            && Live(end.value.l2, end.value.now) && end.value.l2.value.value == "old"
  {
    hide RunFrom, Alone;
    var empty := Slot(None, None, None);
    var c := Lone(cfg, Lifetimes(TTL_DEVICE, TTL_NEG, cfg.localTTL), ALL, Some("old"), 0);
    var missed, loaded := c.Solo(empty, Missed(0), [], Waiting(0)), c.Solo(empty, Storing(0, "old"), [], Waiting(0));
    var joined, arrived := c.Solo(empty, Checking(0), [], Waiting(0)), c.Solo(empty, Idle, [], AtL1);
    loading := Ends(c, loaded);
    loading := Then(c, missed, FlightStep(0, true, 0), loaded, loading, loaded);
    loading := Then(c, joined, FlightStep(0, true, 0), missed, loading, loaded);
    loading := Then(c, c.Solo(empty, Idle, [], AtFlight), CallerStep(0, true), joined, loading, loaded);
    loading := Looks(c, empty, [], AtMarker, true, loading, loaded);
    loading := Looks(c, empty, [], AtL2, true, loading, loaded);
    loading := Looks(c, empty, [], AtL1, true, loading, loaded);
    AloneRuns(c, arrived, loading, loaded);
    s := State(0, Some("old"), None, None, [Instance(None, Idle, [])], map[], map[]);
    loading := Before(cfg, s, Arrive(0, 0), arrived, loading, loaded);
    RunFromAppend(cfg, s, loading, [Write(Some("new")), EvictL2, FlightStep(0, true, TTL_DEVICE)]);
    StoresOldRow(cfg);
  }

  lemma Before(cfg: Config, s: State, e: Event, s': State, events: seq<Event>, end: State) returns (longer: seq<Event>)
    requires Enabled(cfg, s, e) && Next(cfg, s, e) == s' && RunFrom(cfg, s', events) == Some(end)
    ensures RunFrom(cfg, s, longer) == Some(end)
  {
    longer := [e] + events;
    assert longer[1..] == events;
  }

  lemma StoresOldRow(cfg: Config)
    requires cfg.redisTTL == TTL_DEVICE
    ensures var c := Lone(cfg, Lifetimes(TTL_DEVICE, TTL_NEG, cfg.localTTL), ALL, Some("old"), 0);
            var loaded := c.Solo(Slot(None, None, None), Storing(0, "old"), [], Waiting(0));
            var end := RunFrom(cfg, loaded, [Write(Some("new")), EvictL2, FlightStep(0, true, TTL_DEVICE)]);
            && end.Some? && end.value.db == Some("new")
            && end.value.l2 == Some(Entry("old", TTL_DEVICE)) && end.value.now == 0
  {
    var step := FlightStep(0, true, TTL_DEVICE);
    var c := Lone(cfg, Lifetimes(TTL_DEVICE, TTL_NEG, cfg.localTTL), ALL, Some("old"), 0);
    var loaded := c.Solo(Slot(None, None, None), Storing(0, "old"), [], Waiting(0));
    var written := Next(cfg, loaded, Write(Some("new")));
    var evicted := Next(cfg, written, EvictL2);
    assert Enabled(cfg, evicted, step);
    var tail := [EvictL2, step];
    assert tail[1..] == [step] && [step][1..] == [];
    assert [Write(Some("new")), EvictL2, step][1..] == tail;
    assert RunFrom(cfg, evicted, [step]) == Some(Next(cfg, evicted, step));
    assert RunFrom(cfg, written, tail) == Some(Next(cfg, evicted, step));
  }
}
