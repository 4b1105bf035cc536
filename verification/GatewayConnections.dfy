/** The register of bridged device connections: takeover of an old connection by a new one, online on the first
    own SUBSCRIBE, offline on teardown, and the register of device tokens. */
module GatewayConnections {
  import opened DeviceTopics
  import opened Options

  datatype Status = Online | Offline

  datatype Info = Info(device: string, owner: nat, subscribed: bool, online: bool, unregistered: bool, closed: bool)

  datatype Note<C> = Up(conn: C) | Down(conn: C)

  // conns is the register. arriving are the connections whose ONLINE has been written and whose own flag has not been
  // set yet; leaving are those taken out of the register whose offline write is still to come.
  datatype Gateway<C> = Gateway(
    conns: map<string, C>,
    info: map<C, Info>,
    status: map<string, Status>,
    notes: seq<Note<C>>,
    arriving: set<C>,
    leaving: set<C>)

  datatype Step<C> =
    | Register(conn: C, device: string, owner: nat)
    | Subscribe(conn: C, ok: bool)
    | MarkOnline(conn: C)
    | Close(conn: C)
    | TeardownLock(conn: C)
    | TeardownFinish(conn: C, ok: bool)

  // Both halves of the teardown happen once, after the connection was closed.
  predicate Enabled<C(==)>(g: Gateway<C>, s: Step<C>) {
    match s
    case Register(c, _, _) => c !in g.info
    case Subscribe(c, _) => c in g.info
    case MarkOnline(c) => c in g.info && c in g.arriving
    case Close(c) => c in g.info
    case TeardownLock(c) => c in g.info && g.info[c].closed && !g.info[c].unregistered
    case TeardownFinish(c, _) => c in g.info && c in g.leaving
  }

  predicate IsCurrent<C(==)>(g: Gateway<C>, c: C)
    requires c in g.info
  {
    Current(g, g.info[c].device) == Some(c)
  }

  function Current<C>(g: Gateway<C>, device: string): Option<C> {
    if device in g.conns then Some(g.conns[device]) else None
  }

  function Closed<C>(g: Gateway<C>, c: C): Gateway<C>
    requires c in g.info
  {
    g.(info := g.info[c := g.info[c].(closed := true)])
  }

  function Notify<C>(g: Gateway<C>, note: Note<C>): Gateway<C>
    requires note.conn in g.info
  {
    if g.info[note.conn].owner > 0 then g.(notes := g.notes + [note]) else g
  }

  // ok is whether the device service could write the status.
  function Next<C(==)>(g: Gateway<C>, s: Step<C>): Gateway<C>
    requires Enabled(g, s)
  {
    match s
    case Register(c, device, owner) =>
      var entered := g.(info := g.info[c := Info(device, owner, false, false, false, false)]);
      var kicked :=
        if device in g.conns && g.conns[device] in entered.info then Closed(entered, g.conns[device]) else entered;
      kicked.(conns := g.conns[device := c])
    case Subscribe(c, ok) =>
      if g.info[c].subscribed then g
      else
        var once := g.(info := g.info[c := g.info[c].(subscribed := true)]);
        if ok then once.(status := g.status[g.info[c].device := Online], arriving := g.arriving + {c}) else once
    case MarkOnline(c) =>
      Notify(g.(info := g.info[c := g.info[c].(online := true)], arriving := g.arriving - {c}), Up(c))
    case Close(c) => Closed(g, c)
    case TeardownLock(c) =>
      var out := g.(info := g.info[c := g.info[c].(unregistered := true)]);
      if IsCurrent(g, c) then out.(conns := g.conns - {g.info[c].device}, leaving := g.leaving + {c}) else out
    case TeardownFinish(c, ok) =>
      var left := g.(leaving := g.leaving - {c});
      if !g.info[c].online then left
      else Notify(if ok then left.(status := g.status[g.info[c].device := Offline]) else left, Down(c))
  }

  // The whole teardown, without anything in between.
  function Teardown<C(==)>(g: Gateway<C>, c: C, ok: bool): Gateway<C>
    requires Enabled(g, TeardownLock(c))
  {
    var locked := Next(g, TeardownLock(c));
    if c in locked.leaving then Next(locked, TeardownFinish(c, ok)) else locked
  }

  // ---------- what every run keeps ----------

  function NotesOf<C(==)>(c: C, notes: seq<Note<C>>): seq<Note<C>> {
    if notes == [] then []
    else NotesOf(c, notes[..|notes| - 1]) + if notes[|notes| - 1].conn == c then [notes[|notes| - 1]] else []
  }

  lemma NotesOfSnoc<C>(c: C, notes: seq<Note<C>>, note: Note<C>)
    ensures NotesOf(c, notes + [note]) == NotesOf(c, notes) + if note.conn == c then [note] else []
  {
    assert (notes + [note])[..|notes|] == notes;
  }

  // What a connection has told its owner: online at most once, offline at most once and only afterwards.
  ghost predicate Told<C>(g: Gateway<C>, c: C)
    requires c in g.info
  {
    var told := NotesOf(c, g.notes);
    var i := g.info[c];
    if !i.online || i.owner == 0 then told == []
    else if !i.unregistered || c in g.leaving then told == [Up(c)]
    else told == [Up(c)] || told == [Up(c), Down(c)]
  }

  ghost predicate ConnOk<C>(g: Gateway<C>, c: C)
    requires c in g.info
  {
    && (!IsCurrent(g, c) ==> g.info[c].closed)
    && (g.info[c].unregistered ==> !IsCurrent(g, c))
    && (c in g.leaving ==> g.info[c].unregistered)
    && (g.info[c].online || c in g.arriving ==> g.info[c].subscribed)
    && !(g.info[c].online && c in g.arriving)
    && Told(g, c)
  }

  ghost predicate Inv<C>(g: Gateway<C>) {
    && (forall d :: d in g.conns ==> g.conns[d] in g.info && g.info[g.conns[d]].device == d)
    && (forall c :: c in g.info ==> ConnOk(g, c))
    && (forall n :: n in g.notes ==> n.conn in g.info)
    && g.leaving <= g.info.Keys && g.arriving <= g.info.Keys
  }

  lemma NoNotesOf<C>(c: C, notes: seq<Note<C>>)
    requires forall n :: n in notes ==> n.conn != c
    ensures NotesOf(c, notes) == []
    decreases |notes|
  {
    if notes == [] {
    } else {
      NoNotesOf(c, notes[..|notes| - 1]);
    }
  }

  // The notes of a step: none, or one about the connection of the step.
  lemma NotesStep<C>(g: Gateway<C>, s: Step<C>, c: C)
    requires Enabled(g, s)
    ensures var g' := Next(g, s);
            NotesOf(c, g'.notes) == NotesOf(c, g.notes) +
              if g'.notes != g.notes && s.conn == c then [if s.MarkOnline? then Up(c) else Down(c)] else []
    ensures s.conn != c ==> NotesOf(c, Next(g, s).notes) == NotesOf(c, g.notes)
    ensures Next(g, s).notes == g.notes || (s.MarkOnline? && Next(g, s).notes == g.notes + [Up(s.conn)])
                                        || (s.TeardownFinish? && Next(g, s).notes == g.notes + [Down(s.conn)])
  {
    hide NotesOf;
    var g' := Next(g, s);
    NotesOfSnoc(c, g.notes, if s.MarkOnline? then Up(s.conn) else Down(s.conn));
    assert NotesOf(c, g.notes) + [] == NotesOf(c, g.notes);
  }

  /** Every step keeps the register sound: one current connection per device, every other one closed, and each
      connection telling its owner online and offline at most once, in that order. */
  lemma StepKeeps<C>(g: Gateway<C>, s: Step<C>)
    requires Inv(g) && Enabled(g, s)
    ensures Inv(Next(g, s))
  {
    hide NotesOf;
    var g' := Next(g, s);
    NotesStep(g, s, s.conn);
    forall c | c in g'.info ensures ConnOk(g', c) {
      if c == s.conn {
        if s.Register? {
          NoNotesOf(c, g.notes);
          assert ConnOk(g', c);
        } else {
          OwnConnOk(g, s);
        }
      } else {
        OtherConnOk(g, s, c);
      }
    }
    TableOk(g, s);
  }

  lemma TableOk<C>(g: Gateway<C>, s: Step<C>)
    requires Inv(g) && Enabled(g, s)
    ensures var g' := Next(g, s);
            && (forall d :: d in g'.conns ==> g'.conns[d] in g'.info && g'.info[g'.conns[d]].device == d)
            && (forall n :: n in g'.notes ==> n.conn in g'.info)
            && g'.leaving <= g'.info.Keys && g'.arriving <= g'.info.Keys
  {
    hide ConnOk, NotesOf, Next;
    var g' := Next(g, s);
    TablesMove(g, s);
    forall d | d in g'.conns ensures g'.conns[d] in g'.info && g'.info[g'.conns[d]].device == d {
      if d in g.conns && g'.conns[d] == g.conns[d] {
        InfoStays(g, s, g.conns[d]);
      }
    }
    NotesStep(g, s, s.conn);
    forall n | n in g'.notes ensures n.conn in g'.info {
      if n in g.notes {
        InfoStays(g, s, n.conn);
      }
    }
    forall c | c in g'.leaving + g'.arriving ensures c in g'.info {
      if c != s.conn {
        InfoStays(g, s, c);
      }
    }
  }

  // The tables only lose entries, except for the connection of the step.
  lemma TablesMove<C>(g: Gateway<C>, s: Step<C>)
    requires Enabled(g, s)
    ensures var g' := Next(g, s);
            && (forall d :: d in g'.conns ==>
                  (d in g.conns && g'.conns[d] == g.conns[d])
                  || (g'.conns[d] == s.conn && s.conn in g'.info && g'.info[s.conn].device == d))
            && g'.leaving <= g.leaving + {s.conn} && g'.arriving <= g.arriving + {s.conn} && s.conn in g'.info
  {
  }

  // Nobody is forgotten, and device and owner never change.
  lemma InfoStays<C>(g: Gateway<C>, s: Step<C>, c: C)
    requires Enabled(g, s) && c in g.info
    ensures c in Next(g, s).info
    ensures Next(g, s).info[c].device == g.info[c].device && Next(g, s).info[c].owner == g.info[c].owner
  {
  }

  lemma {:induction false} OwnConnOk<C>(g: Gateway<C>, s: Step<C>)
    requires Inv(g) && Enabled(g, s) && !s.Register?
    ensures s.conn in Next(g, s).info && ConnOk(Next(g, s), s.conn)
  {
    hide NotesOf;
    assert ConnOk(g, s.conn);
    NotesStep(g, s, s.conn);
  }

  lemma {:induction false} OtherConnOk<C>(g: Gateway<C>, s: Step<C>, c: C)
    requires Inv(g) && Enabled(g, s) && c in g.info && c != s.conn
    ensures c in Next(g, s).info && ConnOk(Next(g, s), c)
  {
    hide NotesOf, Next, Enabled;
    assert ConnOk(g, c);
    OtherInfo(g, s, c);
    NotesStep(g, s, c);
  }

  // What a step does to a connection it is not about: a new connection of the same device closes it.
  lemma OtherInfo<C>(g: Gateway<C>, s: Step<C>, c: C)
    requires Enabled(g, s) && c in g.info && c != s.conn
    requires forall d :: d in g.conns ==> g.conns[d] in g.info && g.info[g.conns[d]].device == d
    ensures var g' := Next(g, s);
            && c in g'.info
            && (g'.info[c] == g.info[c] || g'.info[c] == g.info[c].(closed := true))
            && (c in g'.leaving <==> c in g.leaving)
            && (c in g'.arriving <==> c in g.arriving)
            && (IsCurrent(g', c) ==> IsCurrent(g, c))
            && (!IsCurrent(g', c) && IsCurrent(g, c) ==> g'.info[c].closed)
  {
    hide Next;
    if s.Register? {
      OtherAtRegister(g, s, c);
    } else {
      OtherUntouched(g, s, c);
    }
  }

  lemma OtherAtRegister<C>(g: Gateway<C>, s: Step<C>, c: C)
    requires Enabled(g, s) && c in g.info && c != s.conn && s.Register?
    ensures var g' := Next(g, s);
            && c in g'.info && g'.leaving == g.leaving && g'.arriving == g.arriving
            && g'.conns == g.conns[s.device := s.conn]
            && g'.info[c] == if Current(g, s.device) == Some(c) then g.info[c].(closed := true) else g.info[c]
  {
  }

  lemma OtherUntouched<C>(g: Gateway<C>, s: Step<C>, c: C)
    requires Enabled(g, s) && c in g.info && c != s.conn && !s.Register?
    ensures var g' := Next(g, s);
            && c in g'.info && g'.info[c] == g.info[c]
            && (c in g'.leaving <==> c in g.leaving) && (c in g'.arriving <==> c in g.arriving)
            && (IsCurrent(g', c) <==> IsCurrent(g, c))
  {
  }

  // The connection's ONLINE has been written.
  predicate CameOnline<C(==)>(g: Gateway<C>, c: C)
    requires c in g.info
  {
    g.info[c].online || c in g.arriving
  }

  // A current connection that came online has its device online.
  predicate CurrentIsOnline<C(==)>(g: Gateway<C>, device: string) {
    device in g.conns && g.conns[device] in g.info && CameOnline(g, g.conns[device])
    ==> device in g.status && g.status[device] == Online
  }

  // An offline write arriving when another connection of the device has already come online.
  predicate LateOffline<C(==)>(g: Gateway<C>, s: Step<C>)
    requires Enabled(g, s)
  {
    && s.TeardownFinish? && s.ok && g.info[s.conn].online
    && var current := Current(g, g.info[s.conn].device);
       current.Some? && current.value in g.info && CameOnline(g, current.value)
  }

  lemma EnteringKeepsOnline<C>(g: Gateway<C>, s: Step<C>, device: string)
    requires Enabled(g, s) && CurrentIsOnline(g, device) && (s.Register? || s.Subscribe? || s.MarkOnline?)
    requires g.arriving <= g.info.Keys
    requires device in g.conns ==> g.conns[device] in g.info && g.info[g.conns[device]].device == device
    ensures CurrentIsOnline(Next(g, s), device)
  {
  }

  lemma LeavingKeepsOnline<C>(g: Gateway<C>, s: Step<C>, device: string)
    requires Enabled(g, s) && CurrentIsOnline(g, device) && (s.Close? || s.TeardownLock?)
    ensures CurrentIsOnline(Next(g, s), device)
  {
  }

  lemma FinishKeepsOnlineIff<C>(g: Gateway<C>, s: Step<C>, device: string)
    requires Enabled(g, s) && s.TeardownFinish? && CurrentIsOnline(g, device)
    requires device in g.conns ==> g.conns[device] in g.info
    ensures CurrentIsOnline(Next(g, s), device) <==> !(LateOffline(g, s) && device == g.info[s.conn].device)
  {
  }

  /** A step keeps a current online connection's status ONLINE exactly when it is not such a late offline write. */
  lemma StepKeepsOnlineIff<C>(g: Gateway<C>, s: Step<C>, device: string)
    requires Inv(g) && Enabled(g, s) && CurrentIsOnline(g, device)
    ensures CurrentIsOnline(Next(g, s), device)
            <==> !(LateOffline(g, s) && device == g.info[s.conn].device)
  {
    hide Next, ConnOk, CurrentIsOnline;
    match s {
      case TeardownFinish(_, _) => FinishKeepsOnlineIff(g, s, device);
      case Close(_) => LeavingKeepsOnline(g, s, device);
      case TeardownLock(_) => LeavingKeepsOnline(g, s, device);
      case _ => EnteringKeepsOnline(g, s, device);
    }
  }

  // ---------- runs ----------

  predicate Runs<C(==)>(g: Gateway<C>, steps: seq<Step<C>>)
    decreases |steps|
  {
    steps == [] || (Enabled(g, steps[0]) && Runs(Next(g, steps[0]), steps[1..]))
  }

  function After<C(==)>(g: Gateway<C>, steps: seq<Step<C>>): Gateway<C>
    requires Runs(g, steps)
    decreases |steps|
  {
    if steps == [] then g else After(Next(g, steps[0]), steps[1..])
  }

  // No offline write of the run comes late.
  predicate NeverLate<C(==)>(g: Gateway<C>, steps: seq<Step<C>>)
    requires Runs(g, steps)
    decreases |steps|
  {
    steps == [] || (!LateOffline(g, steps[0]) && NeverLate(Next(g, steps[0]), steps[1..]))
  }

  function Empty<C>(status: map<string, Status>): Gateway<C> {
    Gateway(map[], map[], status, [], {}, {})
  }

  lemma {:induction false} RunKeeps<C>(g: Gateway<C>, steps: seq<Step<C>>)
    requires Inv(g) && Runs(g, steps)
    ensures Inv(After(g, steps))
    decreases |steps|
  {
    if steps == [] {
    } else {
      StepKeeps(g, steps[0]);
      RunKeeps(Next(g, steps[0]), steps[1..]);
    }
  }

  /** Over every run from an empty register: at most one current connection a device, all others closed, each
      connection telling online and offline at most once with offline only after online. */
  lemma EveryRun<C>(status: map<string, Status>, steps: seq<Step<C>>, c: C)
    requires Runs(Empty<C>(status), steps) && c in After(Empty<C>(status), steps).info
    ensures var g := After(Empty<C>(status), steps);
            && (IsCurrent(g, c) || g.info[c].closed)
            && NotesOf(c, g.notes) in [[], [Up(c)], [Up(c), Down(c)]]
  {
    RunKeeps(Empty<C>(status), steps);
    assert ConnOk(After(Empty<C>(status), steps), c);
  }

  // A teardown of the connection as the current one ends with its flag set.
  predicate EndsOnline<C(==)>(g: Gateway<C>, s: Step<C>, c: C)
    requires Enabled(g, s)
  {
    s.TeardownFinish? && s.conn == c && g.info[c].online
  }

  predicate WentOffline<C(==)>(g: Gateway<C>, steps: seq<Step<C>>, c: C)
    requires Runs(g, steps)
    decreases |steps|
  {
    steps != [] && (EndsOnline(g, steps[0], c) || WentOffline(Next(g, steps[0]), steps[1..], c))
  }

  lemma DownIsTold<C>(g: Gateway<C>, s: Step<C>, c: C)
    requires Enabled(g, s)
    ensures Down(c) in Next(g, s).notes <==>
            Down(c) in g.notes || (EndsOnline(g, s, c) && g.info[c].owner > 0)
  {
  }

  lemma {:induction false} DownAlong<C>(g: Gateway<C>, steps: seq<Step<C>>, c: C)
    requires Runs(g, steps) && c in After(g, steps).info && (c !in g.info ==> Down(c) !in g.notes)
    ensures Down(c) in After(g, steps).notes <==>
            Down(c) in g.notes || (WentOffline(g, steps, c) && After(g, steps).info[c].owner > 0)
    decreases |steps|
  {
    hide Next, Enabled, EndsOnline;
    if steps != [] {
      var g' := Next(g, steps[0]);
      DownIsTold(g, steps[0], c);
      OnlyKnownEnd(g, steps[0], c);
      if c in g.info {
        InfoStays(g, steps[0], c);
        OwnerStays(g', steps[1..], c);
      }
      DownAlong(g', steps[1..], c);
    }
  }

  lemma OnlyKnownEnd<C>(g: Gateway<C>, s: Step<C>, c: C)
    requires Enabled(g, s)
    ensures EndsOnline(g, s, c) ==> c in g.info
  {
  }

  lemma {:induction false} OwnerStays<C>(g: Gateway<C>, steps: seq<Step<C>>, c: C)
    requires Runs(g, steps) && c in g.info
    ensures c in After(g, steps).info && After(g, steps).info[c].owner == g.info[c].owner
    decreases |steps|
  {
    hide Next, Enabled;
    if steps != [] {
      InfoStays(g, steps[0], c);
      OwnerStays(Next(g, steps[0]), steps[1..], c);
    }
  }

  lemma {:induction false} NoteIn<C>(c: C, notes: seq<Note<C>>, note: Note<C>)
    requires note.conn == c
    ensures note in NotesOf(c, notes) <==> note in notes
    decreases |notes|
  {
    if notes != [] {
      NoteIn(c, notes[..|notes| - 1], note);
      assert notes == notes[..|notes| - 1] + [notes[|notes| - 1]];
    }
  }

  /** What its owner has been told of a connection over any run: nothing before it came online, that it is online, and
      that it is offline again exactly when its teardown as the current connection ended with the flag set, whether
      or not the status could be written. */
  lemma OwnerIsTold<C>(status: map<string, Status>, steps: seq<Step<C>>, c: C)
    requires Runs(Empty<C>(status), steps) && c in After(Empty<C>(status), steps).info
    ensures var g := After(Empty<C>(status), steps);
            NotesOf(c, g.notes) ==
            if g.info[c].owner == 0 || !g.info[c].online then []
            else if WentOffline(Empty<C>(status), steps, c) then [Up(c), Down(c)]
            else [Up(c)]
  {
    hide NotesOf, Next, Enabled, Runs, After, WentOffline;
    var g := After(Empty<C>(status), steps);
    EmptyIsSound<C>(status);
    RunKeeps(Empty<C>(status), steps);
    assert ConnOk(g, c);
    DownAlong(Empty<C>(status), steps, c);
    NoteIn(c, g.notes, Down(c));
  }

  lemma EmptyIsSound<C>(status: map<string, Status>)
    ensures Inv(Empty<C>(status))
  {
  }

  /** The teardown of a current connection that is online tells an owner so, with or without the status write. */
  lemma TeardownTells<C>(g: Gateway<C>, c: C, ok: bool)
    requires Inv(g) && Enabled(g, TeardownLock(c)) && IsCurrent(g, c) && g.info[c].online && g.info[c].owner > 0
    ensures NotesOf(c, g.notes) == [Up(c)] && NotesOf(c, Teardown(g, c, ok).notes) == [Up(c), Down(c)]
  {
    hide NotesOf;
    assert ConnOk(g, c);
    var locked := Next(g, TeardownLock(c));
    NotesStep(g, TeardownLock(c), c);
    NotesStep(locked, TeardownFinish(c, ok), c);
  }

  /** Which step writes a status: only the first SUBSCRIBE whose write works writes ONLINE, only the end of a teardown with
      the flag set writes OFFLINE, each for its own device. */
  lemma StatusStep<C>(g: Gateway<C>, s: Step<C>, device: string)
    requires Enabled(g, s)
    ensures var before, after := StatusOf(g, device), StatusOf(Next(g, s), device);
            if s.Subscribe? && s.ok && !g.info[s.conn].subscribed && g.info[s.conn].device == device then
              after == Some(Online)
            else if s.TeardownFinish? && s.ok && g.info[s.conn].online && g.info[s.conn].device == device then
              after == Some(Offline)
            else after == before
  {
  }

  function StatusOf<C>(g: Gateway<C>, device: string): Option<Status> {
    if device in g.status then Some(g.status[device]) else None
  }

  lemma {:induction false} RunKeepsOnline<C>(g: Gateway<C>, steps: seq<Step<C>>)
    requires Inv(g) && Runs(g, steps) && NeverLate(g, steps)
    requires forall d :: CurrentIsOnline(g, d)
    ensures forall d :: CurrentIsOnline(After(g, steps), d)
    decreases |steps|
  {
    if steps == [] {
    } else {
      forall d ensures CurrentIsOnline(Next(g, steps[0]), d) {
        StepKeepsOnlineIff(g, steps[0], d);
      }
      StepKeeps(g, steps[0]);
      RunKeepsOnline(Next(g, steps[0]), steps[1..]);
    }
  }

  // Each offline write follows at once on its own lock region.
  predicate AtomicTeardowns<C(==)>(steps: seq<Step<C>>) {
    forall i :: 0 <= i < |steps| && steps[i].TeardownFinish? ==> i > 0 && steps[i - 1] == TeardownLock(steps[i].conn)
  }

  lemma {:induction false} AtomicIsNeverLate<C>(g: Gateway<C>, steps: seq<Step<C>>)
    requires Inv(g) && Runs(g, steps) && AtomicTeardowns(steps)
    ensures NeverLate(g, steps)
    decreases |steps|
  {
    if |steps| >= 1 {
      var next := Next(g, steps[0]);
      StepKeeps(g, steps[0]);
      if |steps| >= 2 && steps[1].TeardownFinish? {
        LockThenFinish(g, steps[0].conn, steps[1].ok);
        StepKeeps(next, steps[1]);
        assert AtomicTeardowns(steps[2..]) by {
          NoFinishAfterFinish(steps);
        }
        AtomicIsNeverLate(Next(next, steps[1]), steps[2..]);
        assert steps[1..][1..] == steps[2..];
      } else {
        assert AtomicTeardowns(steps[1..]);
        AtomicIsNeverLate(next, steps[1..]);
      }
    }
  }

  lemma NoFinishAfterFinish<C>(steps: seq<Step<C>>)
    requires AtomicTeardowns(steps) && |steps| >= 2 && steps[1].TeardownFinish?
    ensures AtomicTeardowns(steps[2..])
  {
    forall i | 0 <= i < |steps[2..]| && steps[2..][i].TeardownFinish?
      ensures i > 0 && steps[2..][i - 1] == TeardownLock(steps[2..][i].conn)
    {
      assert steps[2..][i] == steps[i + 2];
      assert steps[i + 1] == TeardownLock(steps[i + 2].conn);
    }
  }

  // Right after the lock region nobody is current, unless the connection had left before.
  lemma LockThenFinish<C>(g: Gateway<C>, c: C, ok: bool)
    requires Inv(g) && Enabled(g, TeardownLock(c)) && c in Next(g, TeardownLock(c)).leaving
    ensures !LateOffline(Next(g, TeardownLock(c)), TeardownFinish(c, ok))
  {
    assert ConnOk(g, c);
  }

  /** With teardown as one step, in every run a current connection that came online implies status ONLINE. */
  lemma OnlineStaysOnline<C>(status: map<string, Status>, steps: seq<Step<C>>, device: string)
    requires Runs(Empty<C>(status), steps) && AtomicTeardowns(steps)
    ensures CurrentIsOnline(After(Empty<C>(status), steps), device)
  {
    AtomicIsNeverLate(Empty<C>(status), steps);
    RunKeepsOnline(Empty<C>(status), steps);
  }

  /** The teardown of a superseded connection changes neither the register nor any status, and tells nobody. */
  lemma SupersededTeardownIsSilent<C>(g: Gateway<C>, c: C, ok: bool)
    requires Inv(g) && Enabled(g, TeardownLock(c)) && !IsCurrent(g, c)
    ensures var g' := Teardown(g, c, ok);
            g'.conns == g.conns && g'.status == g.status && g'.notes == g.notes && g'.leaving == g.leaving
  {
    assert ConnOk(g, c);
  }

  /** Without that atomicity it does not: the offline write of an old connection can land after a reconnected
      device came online again. */
  lemma {:induction false} LateOfflineHappens()
    ensures var steps := [Register(1, "d", 0), Subscribe(1, true), MarkOnline(1), Close(1), TeardownLock(1),
                          Register(2, "d", 0), Subscribe(2, true), TeardownFinish(1, true)];
            Runs(Empty<nat>(map[]), steps) && !CurrentIsOnline(After(Empty<nat>(map[]), steps), "d")
  {
    hide Runs, After, Next;
    var late := ReconnectThenLate();
    var g4 := LeftBehind().(conns := map["d" := 1], info := map[1 := LeftInfo().(unregistered := false)], leaving := {});
    var g3 := g4.(info := map[1 := LeftInfo().(unregistered := false, closed := false)]);
    var rest := CloseAndLeave(g3, late);
    var g2 := g3.(info := map[1 := Info("d", 0, true, false, false, false)], arriving := {1});
    var g1 := Gateway(map["d" := 1], map[1 := Info("d", 0, false, false, false, false)], map[], [], {}, {});
    StepsOf(g1, g2, g3, g4);
    AlongStep(g2, MarkOnline(1), rest, g3);
    AlongStep(g1, Subscribe(1, true), [MarkOnline(1)] + rest, g2);
    AlongStep(Empty<nat>(map[]), Register(1, "d", 0), [Subscribe(1, true)] + ([MarkOnline(1)] + rest), g1);
    assert [Register(1, "d", 0)] + ([Subscribe(1, true)] + ([MarkOnline(1)] + rest))
        == [Register(1, "d", 0), Subscribe(1, true), MarkOnline(1), Close(1), TeardownLock(1),
            Register(2, "d", 0), Subscribe(2, true), TeardownFinish(1, true)];
  }

  lemma StepsOf(g1: Gateway<nat>, g2: Gateway<nat>, g3: Gateway<nat>, g4: Gateway<nat>)
    requires g4 == Gateway(map["d" := 1], map[1 := LeftInfo().(unregistered := false)], map["d" := Online], [], {}, {})
    requires g3 == g4.(info := map[1 := LeftInfo().(unregistered := false, closed := false)])
    requires g2 == g3.(info := map[1 := Info("d", 0, true, false, false, false)], arriving := {1})
    requires g1 == Gateway(map["d" := 1], map[1 := Info("d", 0, false, false, false, false)], map[], [], {}, {})
    ensures Next(Empty<nat>(map[]), Register(1, "d", 0)) == g1
    ensures Next(g1, Subscribe(1, true)) == g2
    ensures Next(g2, MarkOnline(1)) == g3
  {
  }

  lemma CloseAndLeave(g3: Gateway<nat>, late: seq<Step<nat>>) returns (rest: seq<Step<nat>>)
    requires g3 == Gateway(map["d" := 1], map[1 := Info("d", 0, true, true, false, false)], map["d" := Online], [], {}, {})
    requires Runs(LeftBehind(), late)
    ensures rest == [Close(1)] + ([TeardownLock(1)] + late)
    ensures Runs(g3, rest) && After(g3, rest) == After(LeftBehind(), late)
  {
    hide Runs, After;
    var g4 := g3.(info := map[1 := LeftInfo().(unregistered := false)]);
    AlongStep(g4, TeardownLock(1), late, LeftBehind());
    AlongStep(g3, Close(1), [TeardownLock(1)] + late, g4);
    rest := [Close(1)] + ([TeardownLock(1)] + late);
  }

  function LeftInfo(): Info {
    Info("d", 0, true, true, true, true)
  }

  // Connection 1 has left the register, its offline write still to come.
  function LeftBehind(): Gateway<nat> {
    Gateway(map[], map[1 := LeftInfo()], map["d" := Online], [], {}, {1})
  }

  lemma ReconnectThenLate() returns (late: seq<Step<nat>>)
    ensures late == [Register(2, "d", 0), Subscribe(2, true), TeardownFinish(1, true)]
    ensures Runs(LeftBehind(), late) && !CurrentIsOnline(After(LeftBehind(), late), "d")
  {
    hide Runs, After;
    var back := Info("d", 0, true, false, false, false);
    var end := Gateway(map["d" := 2], map[1 := LeftInfo(), 2 := back], map["d" := Offline], [], {2}, {});
    var g6 := end.(status := map["d" := Online], leaving := {1});
    var g5 := g6.(info := map[1 := LeftInfo(), 2 := back.(subscribed := false)], arriving := {});
    NoSteps(end);
    assert {1} - {1} == {} && {} + {2} == {2};
    assert Next(g6, TeardownFinish(1, true)).leaving == {};
    AlongStep(g6, TeardownFinish(1, true), [], end);
    assert [TeardownFinish(1, true)] + [] == [TeardownFinish(1, true)];
    assert [Subscribe(2, true)] + [TeardownFinish(1, true)] == [Subscribe(2, true), TeardownFinish(1, true)];
    AlongStep(g5, Subscribe(2, true), [TeardownFinish(1, true)], g6);
    AlongStep(LeftBehind(), Register(2, "d", 0), [Subscribe(2, true), TeardownFinish(1, true)], g5);
    late := [Register(2, "d", 0), Subscribe(2, true), TeardownFinish(1, true)];
    assert late == [Register(2, "d", 0)] + [Subscribe(2, true), TeardownFinish(1, true)];
  }

  lemma NoSteps<C>(g: Gateway<C>)
    ensures Runs(g, []) && After(g, []) == g
  {
  }

  /** A teardown between a connection's ONLINE and its flag is missed: it writes OFFLINE for the current
      connection exactly when the flag is already set. */
  lemma TeardownWritesOfflineIff<C>(g: Gateway<C>, c: C)
    requires Inv(g) && Enabled(g, TeardownLock(c)) && IsCurrent(g, c) && CameOnline(g, c)
    requires CurrentIsOnline(g, g.info[c].device)
    ensures var g' := Teardown(g, c, true);
            && g.info[c].device !in g'.conns && g.info[c].device in g'.status
            && (g'.status[g.info[c].device] == Offline <==> c !in g.arriving)
  {
    assert ConnOk(g, c);
  }

  lemma AlongStep<C>(g: Gateway<C>, s: Step<C>, rest: seq<Step<C>>, g': Gateway<C>)
    requires Enabled(g, s) && Next(g, s) == g' && Runs(g', rest)
    ensures Runs(g, [s] + rest) && After(g, [s] + rest) == After(g', rest)
  {
    assert ([s] + rest)[1..] == rest;
  }

  // ---------- device tokens ----------

  function TokenAdded(tokens: map<string, string>, device: string, token: string): map<string, string> {
    if device == "" || token == "" then tokens else tokens[device := token]
  }

  // Removed only while it is still this connection's token; an absent token reads as empty.
  function TokenRemoved(tokens: map<string, string>, device: string, token: string): map<string, string> {
    if device != "" && (if device in tokens then tokens[device] else "") == token then tokens - {device} else tokens
  }

  /** When a device reconnects before its old connection is torn down, the new connection keeps its token
      exactly when the two connections use different tokens. */
  lemma TokenSurvivesIff(tokens: map<string, string>, device: string, first: string, second: string)
    requires device != "" && first != "" && second != ""
    ensures var after := TokenRemoved(TokenAdded(TokenAdded(tokens, device, first), device, second), device, first);
            (device in after && after[device] == second) <==> first != second
    ensures first == second ==>
            device !in TokenRemoved(TokenAdded(TokenAdded(tokens, device, first), device, second), device, first)
  {
  }

  /** Tokens come and go for one device only, and an empty token is never registered. */
  lemma TokensOfOthers(tokens: map<string, string>, device: string, token: string, other: string)
    requires other != device || device == ""
    ensures other in TokenAdded(tokens, device, token) <==> other in tokens
    ensures other in TokenRemoved(tokens, device, token) <==> other in tokens
    ensures other in tokens ==>
              && TokenAdded(tokens, device, token)[other] == tokens[other]
              && TokenRemoved(tokens, device, token)[other] == tokens[other]
    ensures token == "" ==> TokenAdded(tokens, device, token) == tokens
  {
  }

  // ---------- the objects ----------

  class MqttConn {
    const deviceID: string
    const ownerID: nat
    var subscribed: bool
    var online: bool
    var unregistered: bool
    var closed: bool

    constructor (deviceID: string, ownerID: nat)
      ensures this.deviceID == deviceID && this.ownerID == ownerID
      ensures !subscribed && !online && !unregistered && !closed
    {
      this.deviceID, this.ownerID := deviceID, ownerID;
      subscribed, online, unregistered, closed := false, false, false, false;
    }

    function Snapshot(): Info reads this {
      Info(deviceID, ownerID, subscribed, online, unregistered, closed)
    }

    method Close()
      modifies this`closed
      ensures closed
    {
      if !closed {
        closed := true;
      }
    }
  }

  lemma SubscribeIs<C>(g: Gateway<C>, c: C, ok: bool)
    requires Enabled(g, Subscribe(c, ok))
    ensures var once := g.(info := g.info[c := g.info[c].(subscribed := true)]);
            Next(g, Subscribe(c, ok)) ==
            if g.info[c].subscribed then g
            else if ok then once.(status := g.status[g.info[c].device := Online], arriving := g.arriving + {c})
            else once
  {
  }

  /** The gateway's registers. View is its state as a value; every method moves it by the step of the same name. */
  class MqttGateway {
    const lower: string -> string
    var conns: map<string, MqttConn>
    var deviceTokens: map<string, string>
    var status: map<string, Status>
    var notes: seq<Note<MqttConn>>
    ghost var known: set<MqttConn>
    ghost var arriving: set<MqttConn>
    ghost var leaving: set<MqttConn>

    ghost predicate Valid() reads this {
      forall d :: d in conns ==> conns[d] in known
    }

    ghost function View(): Gateway<MqttConn> reads this, known {
      Gateway(conns, map c | c in known :: c.Snapshot(), status, notes, arriving, leaving)
    }

    constructor (lower: string -> string, status: map<string, Status>)
      ensures Valid() && View() == Empty(status) && this.lower == lower
    {
      this.lower, this.status := lower, status;
      conns, deviceTokens, notes := map[], map[], [];
      known, arriving, leaving := {}, {}, {};
    }

    method RegisterConn(conn: MqttConn)
      requires Valid() && conn !in known
      requires !conn.subscribed && !conn.online && !conn.unregistered && !conn.closed
      modifies this`conns, this`known, known
      ensures Valid() && known == old(known) + {conn}
      ensures View() == Next(old(View()), Register(conn, conn.deviceID, conn.ownerID))
    {
      if conn.deviceID in conns {
        var old_ := conns[conn.deviceID];
        if old_ != conn {
          old_.Close();
        }
      }
      conns := conns[conn.deviceID := conn];
      known := known + {conn};
    }

    // The first run uses the connection's once.
    method TakeOnce(conn: MqttConn)
      requires conn in known
      modifies conn`subscribed
      ensures View() == old(View()).(info := old(View()).info[conn := old(View()).info[conn].(subscribed := true)])
    {
      conn.subscribed := true;
      assert View().info == old(View()).info[conn := old(View()).info[conn].(subscribed := true)];
    }

    // The part run once per connection, up to the write of the status; ok is the device service's answer.
    method WriteOnline(conn: MqttConn, ok: bool)
      requires Valid() && conn in known
      modifies this`status, this`arriving, conn`subscribed
      ensures Valid() && View() == Next(old(View()), Subscribe(conn, ok))
    {
      hide Next;
      ghost var before := View();
      SubscribeIs(before, conn, ok);
      if conn.subscribed {
        return;
      }
      TakeOnce(conn);
      if ok {
        status := status[conn.deviceID := Online];
        arriving := arriving + {conn};
      }
    }

    // What follows when the status was written.
    method StoreOnline(conn: MqttConn)
      requires Valid() && conn in known && conn in arriving
      modifies this`notes, this`arriving, conn`online
      ensures Valid() && View() == Next(old(View()), MarkOnline(conn))
    {
      ghost var before := View();
      conn.online := true;
      arriving := arriving - {conn};
      assert View().info == before.info[conn := before.info[conn].(online := true)];
      if conn.ownerID > 0 {
        notes := notes + [Up(conn)];
      }
    }

    // A SUBSCRIBE of the device, with nothing in between: its first own topic counts, and only once.
    method OnSubscribe(conn: MqttConn, topics: seq<string>, ok: bool)
      requires Valid() && conn in known && (!conn.subscribed ==> conn !in arriving)
      modifies this`status, this`notes, this`arriving, conn`subscribed, conn`online
      ensures Valid()
      ensures var own := exists i :: 0 <= i < |topics| && IsOwnSubscribeTopic(lower, topics[i], conn.deviceID);
              var written := Next(old(View()), Subscribe(conn, ok));
              View() == if !own then old(View())
                        else if old(conn.subscribed) || !ok then written
                        else Next(written, MarkOnline(conn))
    {
      for i := 0 to |topics|
        invariant View() == old(View()) && Valid()
        invariant forall j :: 0 <= j < i ==> !IsOwnSubscribeTopic(lower, topics[j], conn.deviceID)
      {
        if !IsOwnSubscribeTopic(lower, topics[i], conn.deviceID) {
          continue;
        }
        var first := !conn.subscribed;
        WriteOnline(conn, ok);
        if first && ok {
          StoreOnline(conn);
        }
        return;
      }
    }

    // The lock region of the teardown.
    method LeaveRegister(conn: MqttConn) returns (isCurrent: bool)
      requires Valid() && conn in known && conn.closed && !conn.unregistered
      modifies this`conns, this`leaving, conn
      ensures Valid() && View() == Next(old(View()), TeardownLock(conn))
      ensures isCurrent == IsCurrent(old(View()), conn)
      ensures conn in leaving <==> isCurrent || conn in old(leaving)
    {
      ghost var before := View();
      conn.unregistered := true;
      assert View().info == before.info[conn := before.info[conn].(unregistered := true)];
      isCurrent := conn.deviceID in conns && conns[conn.deviceID] == conn;
      if isCurrent {
        conns := conns - {conn.deviceID};
        leaving := leaving + {conn};
      }
    }

    // What follows for a connection that was current: offline, if it ever came online.
    method GoOffline(conn: MqttConn, ok: bool)
      requires Valid() && conn in known && conn in leaving
      modifies this`status, this`notes, this`leaving
      ensures Valid() && View() == Next(old(View()), TeardownFinish(conn, ok))
    {
      leaving := leaving - {conn};
      if !conn.online {
        return;
      }
      if ok {
        status := status[conn.deviceID := Offline];
      }
      if conn.ownerID > 0 {
        notes := notes + [Down(conn)];
      }
    }

    // Called when the connection has been closed; a second call does nothing.
    method UnregisterConn(conn: MqttConn, ok: bool)
      requires Valid() && conn in known && conn.closed && conn !in leaving
      modifies this`conns, this`status, this`notes, this`leaving, conn
      ensures Valid()
      ensures old(conn.unregistered) ==> View() == old(View())
      ensures !old(conn.unregistered) ==> View() == Teardown(old(View()), conn, ok)
    {
      if conn.unregistered {
        return;
      }
      var isCurrent := LeaveRegister(conn);
      if !isCurrent {
        return;
      }
      GoOffline(conn, ok);
    }

    method IsConnected(deviceID: string) returns (connected: bool)
      ensures connected <==> Current(View(), lower(deviceID)).Some?
    {
      return lower(deviceID) in conns;
    }

    method RegisterDeviceToken(deviceID: string, token: string)
      modifies this`deviceTokens
      ensures deviceTokens == TokenAdded(old(deviceTokens), deviceID, token)
    {
      if deviceID == "" || token == "" {
        return;
      }
      deviceTokens := deviceTokens[deviceID := token];
    }

    method UnregisterDeviceToken(deviceID: string, token: string)
      modifies this`deviceTokens
      ensures deviceTokens == TokenRemoved(old(deviceTokens), deviceID, token)
    {
      if deviceID == "" {
        return;
      }
      var mine := if deviceID in deviceTokens then deviceTokens[deviceID] else "";
      if mine == token {
        deviceTokens := deviceTokens - {deviceID};
      }
    }
  }
}
