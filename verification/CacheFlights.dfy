/** Reads of one cache key with every Redis command, database access and L1 access a step of its own: any number
    of instances and callers, one shared flight per instance, lost invalidations, failing Redis commands,
    and writers that warm the cache. Every call, flight and warm-up is over within a given delay. */
module CacheFlights {
  import opened Options
  import opened TwoLevelCache

  type Data = string

  // redisTTL and localTTL are what the callers of this key pass to GetOrLoad.
  datatype Config = Config(redisTTL: nat, localTTL: nat, delay: nat)

  // A flight or call ends with data, with not-found, or with another error of the loader.
  datatype Answer = Found(data: Data) | NotFound | Failed

  // The function run by singleflight: second L2 look, loader, L2 write (or marker and local marker), result.
  datatype Flight =
    | Idle
    | Checking(start: nat)
    | Missed(start: nat)
    | Storing(start: nat, data: Data)
    | Marking(start: nat)
    | MarkingLocal(start: nat)
    | Ending(start: nat, answer: Answer)

  datatype Done = Done(start: nat, answer: Answer)

  datatype Instance = Instance(local: Option<LocalEntry<Data>>, flight: Flight, done: seq<Done>)

  // Where a caller of GetOrLoad is. Waiting(n) waits for the n-th flight of its instance.
  datatype Place =
    | AtL1 | AtL2 | AtMarker | AtFlight
    | Waiting(n: nat)
    | FillHit(data: Data)
    | FillMissing
    | Returned(answer: Answer, at: nat)

  datatype Caller = Caller(instance: nat, start: nat, place: Place)

  // A writer that has read the row back and is about to store it in L2.
  datatype Warm = Warm(start: nat, data: Data)

  datatype State = State(
    now: nat,
    db: Option<Data>,
    l2: Option<Entry<Data>>,
    marker: Option<nat>,
    instances: seq<Instance>,
    callers: map<nat, Caller>,
    warming: map<nat, Warm>)

  // ok is whether the Redis command (or the loader) of the step works.
  datatype Event =
    | Tick(elapsed: nat)
    | Write(row: Option<Data>)
    | EvictL2
    | EvictL1(instance: nat)
    | Arrive(caller: nat, instance: nat)
    | CallerStep(caller: nat, ok: bool)
    | FlightStep(instance: nat, ok: bool, ttl: nat)
    | WarmRead(writer: nat)
    | WarmStore(writer: nat, ttl: nat)

  predicate InTime(cfg: Config, start: nat, now: nat) {
    start <= now <= start + cfg.delay
  }

  predicate Active(c: Caller) {
    !c.place.Returned?
  }

  predicate Enabled(cfg: Config, s: State, e: Event) {
    match e
    case Tick(d) =>
      && (forall i :: 0 <= i < |s.instances| && !s.instances[i].flight.Idle?
            ==> InTime(cfg, s.instances[i].flight.start, s.now + d))
      && (forall c :: c in s.callers && Active(s.callers[c]) ==> InTime(cfg, s.callers[c].start, s.now + d))
      && (forall p :: p in s.warming ==> InTime(cfg, s.warming[p].start, s.now + d))
    case Write(_) => true
    case EvictL2 => true
    case EvictL1(i) => i < |s.instances|
    case Arrive(c, i) => c !in s.callers && i < |s.instances|
    case CallerStep(c, _) =>
      && c in s.callers && Active(s.callers[c]) && s.callers[c].instance < |s.instances|
      && (s.callers[c].place.Waiting? ==> s.callers[c].place.n < |s.instances[s.callers[c].instance].done|)
    case FlightStep(i, _, ttl) =>
      && i < |s.instances|
      && (match s.instances[i].flight
          case Idle => false
          case Storing(_, _) => IsJittered(cfg.redisTTL, ttl)
          case Marking(_) => IsJittered(TTL_NEG, ttl)
          case _ => true)
    case WarmRead(p) => p !in s.warming && s.db.Some?
    case WarmStore(p, ttl) => p in s.warming && IsJittered(cfg.redisTTL, ttl)
  }

  function MissingTTL(cfg: Config): nat {
    Min(cfg.localTTL, TTL_NEG)
  }

  // What a caller does after its flight is over.
  function AfterFlight(answer: Answer, now: nat): Place {
    if answer.Found? then FillHit(answer.data) else Returned(answer, now)
  }

  // The next place of a caller, given whether the command of this step works.
  function NextPlace(cfg: Config, s: State, inst: Instance, place: Place, ok: bool): Place
    requires place.Waiting? ==> place.n < |inst.done|
  {
    match place
    case AtL1 =>
      if !Serves(inst.local, cfg.localTTL, s.now) then AtL2
      else if inst.local.value.Missing? then Returned(NotFound, s.now)
      else Returned(Found(inst.local.value.value), s.now)
    case AtL2 =>
      if !ok then AtFlight
      else if Live(s.l2, s.now) then FillHit(s.l2.value.value)
      else AtMarker
    case AtMarker => if ok && MarkerLive(s.marker, s.now) then FillMissing else AtFlight
    case AtFlight => Waiting(|inst.done|)
    case Waiting(n) => AfterFlight(inst.done[n].answer, s.now)
    case FillHit(data) => Returned(Found(data), s.now)
    case FillMissing => Returned(NotFound, s.now)
    case Returned(_, _) => place
  }

  function CallerMoves(cfg: Config, s: State, c: nat, ok: bool): State
    requires Enabled(cfg, s, CallerStep(c, ok))
  {
    var caller := s.callers[c];
    var inst := s.instances[caller.instance];
    var inst' :=
      match caller.place
      case AtFlight => if inst.flight.Idle? then inst.(flight := Checking(s.now)) else inst
      case FillHit(data) => inst.(local := Filled(inst.local, Hit(data, s.now + cfg.localTTL), cfg.localTTL))
      case FillMissing => inst.(local := Filled(inst.local, Missing(s.now + MissingTTL(cfg)), cfg.localTTL))
      case _ => inst;
    s.(callers := s.callers[c := caller.(place := NextPlace(cfg, s, inst, caller.place, ok))],
       instances := s.instances[caller.instance := inst'])
  }

  function FlightMoves(cfg: Config, s: State, i: nat, ok: bool, ttl: nat): State
    requires Enabled(cfg, s, FlightStep(i, ok, ttl))
  {
    var inst := s.instances[i];
    match inst.flight
    case Checking(start) =>
      var next := if ok && Live(s.l2, s.now) then Ending(start, Found(s.l2.value.value)) else Missed(start);
      s.(instances := s.instances[i := inst.(flight := next)])
    case Missed(start) =>
      var next := if !ok then Ending(start, Failed)
                  else if s.db.Some? then Storing(start, s.db.value)
                  else Marking(start);
      s.(instances := s.instances[i := inst.(flight := next)])
    case Storing(start, data) =>
      s.(l2 := if ok then Some(Entry(data, s.now + ttl)) else s.l2,
         instances := s.instances[i := inst.(flight := Ending(start, Found(data)))])
    case Marking(start) =>
      s.(marker := if ok then Some(s.now + ttl) else s.marker,
         instances := s.instances[i := inst.(flight := MarkingLocal(start))])
    case MarkingLocal(start) =>
      var missing := Filled(inst.local, Missing(s.now + MissingTTL(cfg)), cfg.localTTL);
      s.(instances := s.instances[i := inst.(local := missing, flight := Ending(start, NotFound))])
    case Ending(start, answer) =>
      s.(instances := s.instances[i := inst.(flight := Idle, done := inst.done + [Done(start, answer)])])
  }

  function Next(cfg: Config, s: State, e: Event): State
    requires Enabled(cfg, s, e)
  {
    match e
    case Tick(d) => s.(now := s.now + d)
    case Write(row) => s.(db := row)
    case EvictL2 => s.(l2 := None)
    case EvictL1(i) => s.(instances := s.instances[i := s.instances[i].(local := None)])
    case Arrive(c, i) => s.(callers := s.callers[c := Caller(i, s.now, AtL1)])
    case CallerStep(c, ok) => CallerMoves(cfg, s, c, ok)
    case FlightStep(i, ok, ttl) => FlightMoves(cfg, s, i, ok, ttl)
    case WarmRead(p) => s.(warming := s.warming[p := Warm(s.now, s.db.value)])
    case WarmStore(p, ttl) =>
      s.(warming := s.warming - {p}, l2 := Some(Entry(s.warming[p].data, s.now + ttl)))
  }

  predicate Initial(s: State) {
    && s.l2.None? && s.marker.None? && s.callers == map[] && s.warming == map[]
    && forall i :: 0 <= i < |s.instances| ==> s.instances[i] == Instance(None, Idle, [])
  }

  predicate IsRun(cfg: Config, run: seq<State>, events: seq<Event>) {
    && |run| == |events| + 1 && Initial(run[0])
    && forall i :: 0 <= i < |events| ==> Enabled(cfg, run[i], events[i]) && run[i + 1] == Next(cfg, run[i], events[i])
  }

  // ---------- bounded staleness ----------

  // The longest lifetime jittering can give.
  function Longest(base: nat): nat {
    base + base / 4
  }

  // At some state of the past, at floor or later, the database held exactly this.
  ghost predicate Was(past: seq<State>, row: Option<Data>, floor: int) {
    exists j :: 0 <= j < |past| && past[j].db == row && floor <= past[j].now
  }

  lemma WasGrows(past: seq<State>, s: State)
    ensures forall row, floor {:trigger Was(past + [s], row, floor)} ::
              Was(past, row, floor) ==> Was(past + [s], row, floor)
    ensures Was(past + [s], s.db, s.now)
  {
    var more := past + [s];
    assert more[|past|] == s;
    forall row, floor | Was(past, row, floor) ensures Was(more, row, floor) {
      var j :| 0 <= j < |past| && past[j].db == row && floor <= past[j].now;
      assert more[j] == past[j];
    }
  }

  lemma WasLower(past: seq<State>, row: Option<Data>, floor: int, lower: int)
    requires Was(past, row, floor) && lower <= floor
    ensures Was(past, row, lower)
  {
  }

  // The database held what this answer says.
  ghost predicate AnswerWas(past: seq<State>, answer: Answer, floor: int) {
    match answer
    case Found(data) => Was(past, Some(data), floor)
    case NotFound => Was(past, None, floor)
    case Failed => true
  }

  function HitAge(cfg: Config): nat {
    Longest(cfg.redisTTL) + cfg.localTTL + 3 * cfg.delay
  }

  function MissingAge(cfg: Config): nat {
    Longest(TTL_NEG) + MissingTTL(cfg) + 3 * cfg.delay
  }

  function AnswerAge(cfg: Config, answer: Answer): nat {
    if answer.Found? then HitAge(cfg) else MissingAge(cfg)
  }

  ghost predicate SharedOk(cfg: Config, past: seq<State>, s: State) {
    && (s.l2.Some? ==> Was(past, Some(s.l2.value.value), s.l2.value.expires - Longest(cfg.redisTTL) - cfg.delay))
    && (s.marker.Some? ==> Was(past, None, s.marker.value - Longest(TTL_NEG) - cfg.delay))
    && (forall p :: p in s.warming ==>
          InTime(cfg, s.warming[p].start, s.now) && Was(past, Some(s.warming[p].data), s.warming[p].start))
  }

  ghost predicate LocalOk(cfg: Config, past: seq<State>, local: Option<LocalEntry<Data>>) {
    match local
    case None => true
    case Some(Hit(data, expires)) => Was(past, Some(data), expires - HitAge(cfg))
    case Some(Missing(expires)) => Was(past, None, expires - MissingAge(cfg))
  }

  ghost predicate ResultOk(cfg: Config, past: seq<State>, start: nat, answer: Answer) {
    AnswerWas(past, answer, if answer.Found? then start - Longest(cfg.redisTTL) - cfg.delay else start)
  }

  ghost predicate FlightOk(cfg: Config, past: seq<State>, flight: Flight, now: nat) {
    && (!flight.Idle? ==> InTime(cfg, flight.start, now))
    && match flight
       case Storing(start, data) => Was(past, Some(data), start)
       case Marking(start) => Was(past, None, start)
       case MarkingLocal(start) => Was(past, None, start)
       case Ending(start, answer) => ResultOk(cfg, past, start, answer)
       case _ => true
  }

  ghost predicate InstanceOk(cfg: Config, past: seq<State>, inst: Instance, now: nat) {
    && LocalOk(cfg, past, inst.local)
    && FlightOk(cfg, past, inst.flight, now)
    && forall n :: 0 <= n < |inst.done| ==> ResultOk(cfg, past, inst.done[n].start, inst.done[n].answer)
  }

  // A caller joined the flight it waits for while that flight was running.
  predicate Joined(cfg: Config, inst: Instance, n: nat, start: nat) {
    if n < |inst.done| then start <= inst.done[n].start + cfg.delay
    else n == |inst.done| && !inst.flight.Idle? && start <= inst.flight.start + cfg.delay
  }

  ghost predicate PlaceOk(cfg: Config, past: seq<State>, place: Place, start: nat, now: nat) {
    match place
    case FillHit(data) => Was(past, Some(data), start - Longest(cfg.redisTTL) - 2 * cfg.delay)
    case FillMissing => Was(past, None, start - Longest(TTL_NEG) - cfg.delay)
    case Returned(answer, at) => at <= now && AnswerWas(past, answer, at - AnswerAge(cfg, answer))
    case _ => true
  }

  ghost predicate CallerOk(cfg: Config, past: seq<State>, s: State, c: Caller) {
    && c.instance < |s.instances|
    && (Active(c) ==> InTime(cfg, c.start, s.now))
    && (c.place.Waiting? ==> Joined(cfg, s.instances[c.instance], c.place.n, c.start))
    && PlaceOk(cfg, past, c.place, c.start, s.now)
  }

  ghost predicate Inv(cfg: Config, past: seq<State>, s: State) {
    && SharedOk(cfg, past, s)
    && (forall i :: 0 <= i < |s.instances| ==> InstanceOk(cfg, past, s.instances[i], s.now))
    && (forall c :: c in s.callers ==> CallerOk(cfg, past, s, s.callers[c]))
    && Was(past, s.db, s.now)
  }

  lemma LongestIs(base: nat, ttl: nat)
    requires IsJittered(base, ttl)
    ensures ttl <= Longest(base)
  {
  }

  lemma InstanceGrows(cfg: Config, past: seq<State>, s: State, inst: Instance, now: nat)
    requires InstanceOk(cfg, past, inst, now)
    ensures InstanceOk(cfg, past + [s], inst, now)
  {
    hide Was;
    WasGrows(past, s);
    forall n | 0 <= n < |inst.done| ensures ResultOk(cfg, past + [s], inst.done[n].start, inst.done[n].answer) {
      assert ResultOk(cfg, past, inst.done[n].start, inst.done[n].answer);
    }
  }

  lemma CallerGrows(cfg: Config, past: seq<State>, s: State, s': State, c: Caller)
    requires CallerOk(cfg, past, s, c) && |s'.instances| == |s.instances| && s.now <= s'.now
    requires c.instance < |s.instances|
    requires Active(c) ==> InTime(cfg, c.start, s'.now)
    requires c.place.Waiting? ==> Joined(cfg, s'.instances[c.instance], c.place.n, c.start)
    ensures CallerOk(cfg, past + [s'], s', c)
  {
    hide Was;
    WasGrows(past, s');
  }

  lemma SharedGrows(cfg: Config, past: seq<State>, s: State, s': State)
    requires SharedOk(cfg, past, s) && s'.l2 == s.l2 && s'.marker == s.marker && s'.warming == s.warming
    requires forall p :: p in s.warming ==> InTime(cfg, s.warming[p].start, s'.now)
    ensures SharedOk(cfg, past + [s'], s')
  {
    hide Was;
    WasGrows(past, s');
  }

  // The one instance a step changes must be good again; its flight may only move on.
  lemma InstanceStep(cfg: Config, past: seq<State>, s: State, s': State, i: nat)
    requires Inv(cfg, past, s) && i < |s.instances| == |s'.instances|
    requires s'.now == s.now && s'.callers == s.callers && s'.instances == s.instances[i := s'.instances[i]]
    requires InstanceOk(cfg, past + [s'], s'.instances[i], s.now) && SharedOk(cfg, past + [s'], s')
    requires forall n, start :: Joined(cfg, s.instances[i], n, start) ==> Joined(cfg, s'.instances[i], n, start)
    ensures Inv(cfg, past + [s'], s')
  {
    hide Was, InstanceOk, SharedOk, PlaceOk, Joined;
    WasGrows(past, s');
    forall j | 0 <= j < |s'.instances| ensures InstanceOk(cfg, past + [s'], s'.instances[j], s'.now) {
      if j != i {
        InstanceGrows(cfg, past, s', s.instances[j], s.now);
      }
    }
    forall c | c in s'.callers ensures CallerOk(cfg, past + [s'], s', s'.callers[c]) {
      CallerGrows(cfg, past, s, s', s.callers[c]);
    }
  }

  lemma FlightKeepsJoined(cfg: Config, s: State, e: Event, n: nat, start: nat)
    requires Enabled(cfg, s, e) && e.FlightStep? && Joined(cfg, s.instances[e.instance], n, start)
    ensures Joined(cfg, Next(cfg, s, e).instances[e.instance], n, start)
  {
  }

  lemma {:induction false} FlightStepKeeps(cfg: Config, past: seq<State>, s: State, e: Event)
    requires Inv(cfg, past, s) && Enabled(cfg, s, e) && e.FlightStep?
    ensures Inv(cfg, past + [Next(cfg, s, e)], Next(cfg, s, e))
  {
    hide Was, InstanceOk, SharedOk, Joined, CallerOk;
    var s' := Next(cfg, s, e);
    var inst, inst' := s.instances[e.instance], s'.instances[e.instance];
    FlightResult(cfg, past, s, e);
    FlightShared(cfg, past, s, e);
    forall n, start | Joined(cfg, inst, n, start) ensures Joined(cfg, inst', n, start) {
      FlightKeepsJoined(cfg, s, e, n, start);
    }
    assert s'.instances == s.instances[e.instance := inst'];
    InstanceStep(cfg, past, s, s', e.instance);
  }

  lemma {:induction false} FlightShared(cfg: Config, past: seq<State>, s: State, e: Event)
    requires Inv(cfg, past, s) && Enabled(cfg, s, e) && e.FlightStep?
    ensures SharedOk(cfg, past + [Next(cfg, s, e)], Next(cfg, s, e))
  {
    hide Was;
    var s' := Next(cfg, s, e);
    var flight := s.instances[e.instance].flight;
    assert InstanceOk(cfg, past, s.instances[e.instance], s.now);
    WasGrows(past, s');
    match flight {
      case Storing(start, data) =>
        LongestIs(cfg.redisTTL, e.ttl);
        WasLower(past + [s'], Some(data), start, s.now + e.ttl - Longest(cfg.redisTTL) - cfg.delay);
      case Marking(start) =>
        LongestIs(TTL_NEG, e.ttl);
        WasLower(past + [s'], None, start, s.now + e.ttl - Longest(TTL_NEG) - cfg.delay);
      case _ =>
    }
  }

  lemma {:induction false} FlightResult(cfg: Config, past: seq<State>, s: State, e: Event)
    requires Inv(cfg, past, s) && Enabled(cfg, s, e) && e.FlightStep?
    ensures InstanceOk(cfg, past + [Next(cfg, s, e)], Next(cfg, s, e).instances[e.instance], s.now)
  {
    hide Was;
    var s' := Next(cfg, s, e);
    var inst := s.instances[e.instance];
    WasGrows(past, s');
    InstanceGrows(cfg, past, s', inst, s.now);
    var more := past + [s'];
    match inst.flight {
      case Checking(start) =>
        if Live(s.l2, s.now) {
          WasLower(more, Some(s.l2.value.value), s.l2.value.expires - Longest(cfg.redisTTL) - cfg.delay,
                   start - Longest(cfg.redisTTL) - cfg.delay);
        }
      case Missed(start) =>
        WasLower(more, s.db, s.now, start);
      case Storing(start, data) =>
        WasLower(more, Some(data), start, start - Longest(cfg.redisTTL) - cfg.delay);
      case Marking(start) =>
      case MarkingLocal(start) =>
        WasLower(more, None, start, s.now + MissingTTL(cfg) - MissingAge(cfg));
      case Ending(start, answer) =>
    }
  }

  lemma {:induction false} CallerStepKeeps(cfg: Config, past: seq<State>, s: State, e: Event)
    requires Inv(cfg, past, s) && Enabled(cfg, s, e) && e.CallerStep?
    ensures Inv(cfg, past + [Next(cfg, s, e)], Next(cfg, s, e))
  {
    hide Was, PlaceOk, InstanceOk;
    var s' := Next(cfg, s, e);
    var caller := s.callers[e.caller];
    WasGrows(past, s');
    SharedGrows(cfg, past, s, s');
    forall i | 0 <= i < |s'.instances| ensures InstanceOk(cfg, past + [s'], s'.instances[i], s'.now) {
      if i == caller.instance {
        CallerInstance(cfg, past, s, e);
      } else {
        InstanceGrows(cfg, past, s', s.instances[i], s.now);
      }
    }
    forall c | c in s'.callers ensures CallerOk(cfg, past + [s'], s', s'.callers[c]) {
      if c == e.caller {
        CallerPlace(cfg, past, s, e);
      } else {
        CallerGrows(cfg, past, s, s', s.callers[c]);
      }
    }
  }

  lemma {:induction false} CallerInstance(cfg: Config, past: seq<State>, s: State, e: Event)
    requires Inv(cfg, past, s) && Enabled(cfg, s, e) && e.CallerStep?
    ensures var i := s.callers[e.caller].instance;
            InstanceOk(cfg, past + [Next(cfg, s, e)], Next(cfg, s, e).instances[i], s.now)
  {
    hide Was;
    var s' := Next(cfg, s, e);
    var caller := s.callers[e.caller];
    var more := past + [s'];
    WasGrows(past, s');
    InstanceGrows(cfg, past, s', s.instances[caller.instance], s.now);
    assert CallerOk(cfg, past, s, caller);
    match caller.place {
      case FillHit(data) =>
        WasLower(more, Some(data), caller.start - Longest(cfg.redisTTL) - 2 * cfg.delay,
                 s.now + cfg.localTTL - HitAge(cfg));
      case FillMissing =>
        WasLower(more, None, caller.start - Longest(TTL_NEG) - cfg.delay, s.now + MissingTTL(cfg) - MissingAge(cfg));
      case _ =>
    }
  }

  // What each kind of step leads a caller to, in a history that reaches up to it.
  lemma FromL1(cfg: Config, past: seq<State>, s: State, inst: Instance, c: Caller, ok: bool)
    requires c.place.AtL1? && LocalOk(cfg, past, inst.local)
    ensures PlaceOk(cfg, past, NextPlace(cfg, s, inst, c.place, ok), c.start, s.now)
  {
    hide Was;
    if Serves(inst.local, cfg.localTTL, s.now) {
      match inst.local.value {
        case Hit(data, expires) => WasLower(past, Some(data), expires - HitAge(cfg), s.now - HitAge(cfg));
        case Missing(expires) => WasLower(past, None, expires - MissingAge(cfg), s.now - MissingAge(cfg));
      }
    }
  }

  lemma FromShared(cfg: Config, past: seq<State>, s: State, inst: Instance, c: Caller, ok: bool)
    requires (c.place.AtL2? || c.place.AtMarker?) && SharedOk(cfg, past, s) && InTime(cfg, c.start, s.now)
    ensures PlaceOk(cfg, past, NextPlace(cfg, s, inst, c.place, ok), c.start, s.now)
  {
    hide Was;
    if c.place.AtL2? && Live(s.l2, s.now) {
      WasLower(past, Some(s.l2.value.value), s.l2.value.expires - Longest(cfg.redisTTL) - cfg.delay,
               c.start - Longest(cfg.redisTTL) - 2 * cfg.delay);
    } else if c.place.AtMarker? && MarkerLive(s.marker, s.now) {
      WasLower(past, None, s.marker.value - Longest(TTL_NEG) - cfg.delay, c.start - Longest(TTL_NEG) - cfg.delay);
    }
  }

  lemma FromFlight(cfg: Config, past: seq<State>, s: State, inst: Instance, c: Caller, ok: bool)
    requires c.place.Waiting? && c.place.n < |inst.done| && InTime(cfg, c.start, s.now)
    requires ResultOk(cfg, past, inst.done[c.place.n].start, inst.done[c.place.n].answer)
    requires Joined(cfg, inst, c.place.n, c.start)
    ensures PlaceOk(cfg, past, NextPlace(cfg, s, inst, c.place, ok), c.start, s.now)
  {
    hide Was;
    var done := inst.done[c.place.n];
    match done.answer {
      case Found(data) =>
        WasLower(past, Some(data), done.start - Longest(cfg.redisTTL) - cfg.delay,
                 c.start - Longest(cfg.redisTTL) - 2 * cfg.delay);
      case NotFound => WasLower(past, None, done.start, s.now - MissingAge(cfg));
      case Failed =>
    }
  }

  lemma FromFilling(cfg: Config, past: seq<State>, s: State, inst: Instance, c: Caller, ok: bool)
    requires (c.place.FillHit? || c.place.FillMissing?) && InTime(cfg, c.start, s.now)
    requires PlaceOk(cfg, past, c.place, c.start, s.now)
    ensures PlaceOk(cfg, past, NextPlace(cfg, s, inst, c.place, ok), c.start, s.now)
  {
    hide Was;
    match c.place {
      case FillHit(data) =>
        WasLower(past, Some(data), c.start - Longest(cfg.redisTTL) - 2 * cfg.delay, s.now - HitAge(cfg));
      case FillMissing =>
        WasLower(past, None, c.start - Longest(TTL_NEG) - cfg.delay, s.now - MissingAge(cfg));
    }
  }

  lemma NextPlaceOk(cfg: Config, past: seq<State>, s: State, inst: Instance, c: Caller, ok: bool)
    requires SharedOk(cfg, past, s) && InstanceOk(cfg, past, inst, s.now)
    requires InTime(cfg, c.start, s.now) && PlaceOk(cfg, past, c.place, c.start, s.now) && Active(c)
    requires c.place.Waiting? ==> c.place.n < |inst.done| && Joined(cfg, inst, c.place.n, c.start)
    ensures PlaceOk(cfg, past, NextPlace(cfg, s, inst, c.place, ok), c.start, s.now)
  {
    hide Was, SharedOk, LocalOk, FlightOk, ResultOk, Joined, InTime;
    match c.place {
      case AtL1 => FromL1(cfg, past, s, inst, c, ok);
      case AtL2 => FromShared(cfg, past, s, inst, c, ok);
      case AtMarker => FromShared(cfg, past, s, inst, c, ok);
      case AtFlight =>
      case Waiting(n) => FromFlight(cfg, past, s, inst, c, ok);
      case _ => FromFilling(cfg, past, s, inst, c, ok);
    }
  }

  // What was so in a history is so in a longer one.
  lemma SharedRemembered(cfg: Config, past: seq<State>, x: State, s: State)
    requires SharedOk(cfg, past, s)
    ensures SharedOk(cfg, past + [x], s)
  {
    hide Was;
    WasGrows(past, x);
  }

  lemma PlaceRemembered(cfg: Config, past: seq<State>, x: State, place: Place, start: nat, now: nat)
    requires PlaceOk(cfg, past, place, start, now)
    ensures PlaceOk(cfg, past + [x], place, start, now)
  {
    hide Was;
    WasGrows(past, x);
  }

  lemma FlightInTime(cfg: Config, past: seq<State>, inst: Instance, now: nat)
    requires InstanceOk(cfg, past, inst, now) && !inst.flight.Idle?
    ensures InTime(cfg, inst.flight.start, now)
  {
  }

  // Moving does not change whose caller it is, and a caller that joins a flight finds it running.
  lemma CallerMoved(cfg: Config, s: State, e: Event)
    requires Enabled(cfg, s, e) && e.CallerStep? && InTime(cfg, s.callers[e.caller].start, s.now)
    requires var inst := s.instances[s.callers[e.caller].instance];
             !inst.flight.Idle? ==> InTime(cfg, inst.flight.start, s.now)
    ensures var s', c := Next(cfg, s, e), s.callers[e.caller];
            && s'.callers[e.caller] == c.(place := NextPlace(cfg, s, s.instances[c.instance], c.place, e.ok))
            && |s'.instances| == |s.instances| && s'.now == s.now
            && (s'.callers[e.caller].place.Waiting? ==>
                  Joined(cfg, s'.instances[c.instance], s'.callers[e.caller].place.n, c.start))
  {
  }

  lemma {:induction false} CallerPlace(cfg: Config, past: seq<State>, s: State, e: Event)
    requires Inv(cfg, past, s) && Enabled(cfg, s, e) && e.CallerStep?
    ensures CallerOk(cfg, past + [Next(cfg, s, e)], Next(cfg, s, e), Next(cfg, s, e).callers[e.caller])
  {
    hide Was, SharedOk, InstanceOk, FlightOk, PlaceOk, Joined, NextPlace, Next;
    var s' := Next(cfg, s, e);
    var c := s.callers[e.caller];
    var inst := s.instances[c.instance];
    assert CallerOk(cfg, past, s, c);
    SharedRemembered(cfg, past, s', s);
    PlaceRemembered(cfg, past, s', c.place, c.start, s.now);
    InstanceGrows(cfg, past, s', inst, s.now);
    if !inst.flight.Idle? {
      FlightInTime(cfg, past, inst, s.now);
    }
    CallerMoved(cfg, s, e);
    NextPlaceOk(cfg, past + [s'], s, inst, c, e.ok);
  }

  // Steps outside any call: time, database writes, evictions, arrivals, warm-ups.
  lemma {:induction false} OuterStepKeeps(cfg: Config, past: seq<State>, s: State, e: Event)
    requires Inv(cfg, past, s) && Enabled(cfg, s, e) && !e.CallerStep? && !e.FlightStep?
    ensures Inv(cfg, past + [Next(cfg, s, e)], Next(cfg, s, e))
  {
    hide Was, PlaceOk;
    var s' := Next(cfg, s, e);
    WasGrows(past, s');
    OuterShared(cfg, past, s, e);
    forall i | 0 <= i < |s'.instances| ensures InstanceOk(cfg, past + [s'], s'.instances[i], s'.now) {
      OuterInstance(cfg, past, s, e, i);
    }
    forall c | c in s'.callers ensures CallerOk(cfg, past + [s'], s', s'.callers[c]) {
      if e.Arrive? && c == e.caller {
        ArrivalOk(cfg, past + [s'], s', s'.callers[c]);
      } else {
        CallerGrows(cfg, past, s, s', s.callers[c]);
      }
    }
  }

  lemma ArrivalOk(cfg: Config, past: seq<State>, s: State, c: Caller)
    requires c.place.AtL1? && c.start == s.now && c.instance < |s.instances|
    ensures CallerOk(cfg, past, s, c)
  {
  }

  lemma OuterInstance(cfg: Config, past: seq<State>, s: State, e: Event, i: nat)
    requires Inv(cfg, past, s) && Enabled(cfg, s, e) && !e.CallerStep? && !e.FlightStep? && i < |s.instances|
    ensures InstanceOk(cfg, past + [Next(cfg, s, e)], Next(cfg, s, e).instances[i], Next(cfg, s, e).now)
  {
    hide Was, ResultOk;
    InstanceGrows(cfg, past, Next(cfg, s, e), s.instances[i], s.now);
  }

  lemma OuterShared(cfg: Config, past: seq<State>, s: State, e: Event)
    requires Inv(cfg, past, s) && Enabled(cfg, s, e) && !e.CallerStep? && !e.FlightStep?
    ensures SharedOk(cfg, past + [Next(cfg, s, e)], Next(cfg, s, e))
  {
    hide Was, InstanceOk, CallerOk;
    var s' := Next(cfg, s, e);
    WasGrows(past, s');
    if e.WarmStore? {
      var warm := s.warming[e.writer];
      LongestIs(cfg.redisTTL, e.ttl);
      WasLower(past + [s'], Some(warm.data), warm.start, s.now + e.ttl - Longest(cfg.redisTTL) - cfg.delay);
    }
  }

  lemma {:induction false} StepKeeps(cfg: Config, past: seq<State>, s: State, e: Event)
    requires Inv(cfg, past, s) && Enabled(cfg, s, e)
    ensures Inv(cfg, past + [Next(cfg, s, e)], Next(cfg, s, e))
  {
    hide *;
    if e.CallerStep? {
      CallerStepKeeps(cfg, past, s, e);
    } else if e.FlightStep? {
      FlightStepKeeps(cfg, past, s, e);
    } else {
      OuterStepKeeps(cfg, past, s, e);
    }
  }

  lemma {:induction false} InvAlong(cfg: Config, run: seq<State>, events: seq<Event>, n: nat)
    requires IsRun(cfg, run, events) && n < |run|
    ensures Inv(cfg, run[..n + 1], run[n])
    decreases n
  {
    hide Inv, Next, Enabled;
    if n == 0 {
      InitialInv(cfg, run[0]);
      assert run[..1] == [run[0]];
    } else {
      InvAlong(cfg, run, events, n - 1);
      StepKeeps(cfg, run[..n], run[n - 1], events[n - 1]);
      assert run[..n + 1] == run[..n] + [run[n]];
    }
  }

  lemma InitialInv(cfg: Config, s: State)
    requires Initial(s)
    ensures Inv(cfg, [s], s)
  {
    assert [s][0] == s;
  }

  /** Bounded staleness over every run, invalidations lost or not, Redis failing or not: data returned by a call was
      the database's row at most 5/4 redisTTL + localTTL (and three delays) earlier, and a not-found was true
      at most 5/4 TTL_NEG + min(localTTL, TTL_NEG) (and three delays) earlier. */
  lemma {:induction false} BoundedStaleness(cfg: Config, run: seq<State>, events: seq<Event>, n: nat, c: nat)
    requires IsRun(cfg, run, events) && n < |run|
    requires c in run[n].callers && run[n].callers[c].place.Returned?
    ensures var r := run[n].callers[c].place;
            match r.answer
            case Found(data) =>
              exists j :: && 0 <= j <= n && run[j].db == Some(data)
                          && r.at <= run[j].now + Longest(cfg.redisTTL) + cfg.localTTL + 3 * cfg.delay
            case NotFound =>
              exists j :: && 0 <= j <= n && run[j].db == None
                          && r.at <= run[j].now + Longest(TTL_NEG) + Min(cfg.localTTL, TTL_NEG) + 3 * cfg.delay
            case Failed => true
    ensures 4 * Longest(cfg.redisTTL) <= 5 * cfg.redisTTL
  {
    InvAlong(cfg, run, events, n);
    assert CallerOk(cfg, run[..n + 1], run[n], run[n].callers[c]);
    var r := run[n].callers[c].place;
    if r.answer.Found? {
      var j :| 0 <= j < |run[..n + 1]| && run[..n + 1][j].db == Some(r.answer.data)
               && r.at - HitAge(cfg) <= run[..n + 1][j].now;
      assert run[j] == run[..n + 1][j];
    } else if r.answer.NotFound? {
      var j :| 0 <= j < |run[..n + 1]| && run[..n + 1][j].db == None && r.at - MissingAge(cfg) <= run[..n + 1][j].now;
      assert run[j] == run[..n + 1][j];
    }
  }
}
