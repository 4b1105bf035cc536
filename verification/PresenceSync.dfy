/** A device's presence: its status hash in Redis, refreshed by every report or heartbeat; its status row in the
    database, written five seconds later; and a scanner that marks silent devices offline. Times are milliseconds. */
module PresenceSync {
  import opened Options
  import opened TwoLevelCache
  import D = ActivityDebounce

  const TTL_STATUS := 10 * 60 * 1000

  datatype Status = Online | Offline

  datatype Hash = Hash(status: Status, lastActive: nat, expires: nat)

  // A threshold that is not positive means two minutes.
  function Threshold(configured: int): nat {
    if configured <= 0 then 120 * 1000 else configured
  }

  // What the scanner finds under the device's key.
  function Read(hash: Option<Hash>, now: nat): Option<Hash> {
    if hash.Some? && now < hash.value.expires then hash else None
  }

  predicate Silent(found: Option<Hash>, now: nat, threshold: nat) {
    match found
    case None => true
    case Some(Hash(status, lastActive, _)) => status == Offline || lastActive <= 0 || now - lastActive > threshold
  }

  // ---------- the devices, and the debounce they share ----------

  // row is the database's status; live says that a connection is open. The rest is history: when the device was last
  // active, the time in the last ONLINE hash and that hash's end, and whether an OFFLINE hash has been written since.
  datatype Device = Device(
    row: Status,
    hash: Option<Hash>,
    live: bool,
    lastActivity: nat,
    lastReport: nat,
    expires: nat,
    marked: bool)

  // The devices that the callback of a timer has claimed and not written yet.
  datatype Batch = Batch(due: nat, ids: set<string>)

  // judged are the devices the scanner has found silent and not written OFFLINE yet.
  datatype World = World(
    debounce: D.Debounce,
    batches: seq<Batch>,
    judged: set<string>,
    devices: map<string, Device>)

  // delay is how late the last write of a debounce timer's callback may be.
  datatype Config = Config(threshold: nat, delay: nat)

  // Any number of calls overlap: one statement or lock region each. A report or heartbeat is WriteHash, Schedule; a
  // change of status is SetRow, WriteHash; a debounce callback is Claim, WriteRow for each device; the scanner does
  // Judge, ScanHash, ScanRow. The time in a hash was taken from the clock at some time before.
  datatype Step =
    | Tick(elapsed: nat)
    | WriteHash(id: string, status: Status, at: nat, ttl: nat)
    | SetRow(id: string, status: Status)
    | Schedule(id: string)
    | Connect(id: string)
    | Disconnect(id: string)
    | Judge(id: string)
    | ScanHash(id: string, at: nat, ttl: nat)
    | ScanRow(id: string, answers: bool)
    | Claim(timer: nat)
    | WriteRow(batch: nat, id: string, answers: bool)

  predicate Enabled(cfg: Config, w: World, s: Step) {
    match s
    case Tick(elapsed) => TimeMayPass(cfg, w, w.debounce.now + elapsed)
    case Claim(i) => D.Enabled(w.debounce, D.Claim(i))
    case WriteHash(id, _, at, ttl) => id in w.devices && at <= w.debounce.now && IsJittered(TTL_STATUS, ttl)
    case ScanHash(id, at, ttl) =>
      id in w.devices && id in w.judged && at <= w.debounce.now && IsJittered(TTL_STATUS, ttl)
    case ScanRow(id, _) => id in w.devices && id in w.judged
    case WriteRow(i, id, _) => id in w.devices && i < |w.batches| && id in w.batches[i].ids
    case SetRow(id, _) => id in w.devices
    case Schedule(id) => id in w.devices
    case Connect(id) => id in w.devices
    case Disconnect(id) => id in w.devices
    case Judge(id) => id in w.devices
  }

  // No callback, started or not, is later than it may be.
  predicate TimeMayPass(cfg: Config, w: World, now: nat) {
    && (forall i :: 0 <= i < |w.debounce.timers| ==> now <= w.debounce.timers[i] + cfg.delay)
    && (forall i :: 0 <= i < |w.batches| && w.batches[i].ids != {} ==> now <= w.batches[i].due + cfg.delay)
  }

  predicate Marks(cfg: Config, d: Device, now: nat) {
    d.row == Online && !d.live && Silent(Read(d.hash, now), now, cfg.threshold)
  }

  // What a step makes of the device it is about.
  function NextDevice(d: Device, now: nat, s: Step): Device {
    match s
    case WriteHash(_, Online, at, ttl) =>
      d.(hash := Some(Hash(Online, at, now + ttl)), lastActivity := now, lastReport := at, expires := now + ttl,
         marked := false)
    case WriteHash(_, Offline, at, ttl) => d.(hash := Some(Hash(Offline, at, now + ttl)), marked := true)
    case SetRow(_, status) => d.(row := status, lastActivity := if status == Online then now else d.lastActivity)
    case Schedule(_) => d.(lastActivity := now)
    case Connect(_) => d.(live := true)
    case Disconnect(_) => d.(live := false)
    case ScanHash(_, at, ttl) => d.(hash := Some(Hash(Offline, at, now + ttl)), marked := true)
    case ScanRow(_, answers) => if answers then d.(row := Offline) else d
    case WriteRow(_, _, answers) => if answers then d.(row := Online) else d
    case Tick(_) => d
    case Claim(_) => d
    case Judge(_) => d
  }

  function NextDebounce(cfg: Config, w: World, s: Step): D.Debounce
    requires Enabled(cfg, w, s)
  {
    match s
    case Tick(elapsed) => D.Next(w.debounce, D.Tick(elapsed))
    case Schedule(id) => D.Next(w.debounce, D.Schedule(id))
    case Claim(i) => D.Next(w.debounce, D.Claim(i))
    case _ => w.debounce
  }

  function NextBatches(cfg: Config, w: World, s: Step): seq<Batch>
    requires Enabled(cfg, w, s)
  {
    match s
    case Claim(i) => w.batches + [Batch(w.debounce.timers[i], w.debounce.pending.Keys)]
    case WriteRow(i, id, _) => w.batches[i := Batch(w.batches[i].due, w.batches[i].ids - {id})]
    case _ => w.batches
  }

  function NextJudged(cfg: Config, w: World, s: Step): set<string>
    requires Enabled(cfg, w, s)
  {
    match s
    case Judge(id) => if Marks(cfg, w.devices[id], w.debounce.now) then w.judged + {id} else w.judged
    case ScanRow(id, _) => w.judged - {id}
    case _ => w.judged
  }

  function Next(cfg: Config, w: World, s: Step): World
    requires Enabled(cfg, w, s)
  {
    World(
      NextDebounce(cfg, w, s),
      NextBatches(cfg, w, s),
      NextJudged(cfg, w, s),
      if s.Tick? || s.Claim? then w.devices
      else w.devices[s.id := NextDevice(w.devices[s.id], w.debounce.now, s)])
  }

  predicate Runs(cfg: Config, w: World, steps: seq<Step>)
    decreases |steps|
  {
    steps == [] || (Enabled(cfg, w, steps[0]) && Runs(cfg, Next(cfg, w, steps[0]), steps[1..]))
  }

  function After(cfg: Config, w: World, steps: seq<Step>): World
    requires Runs(cfg, w, steps)
    decreases |steps|
  {
    if steps == [] then w else After(cfg, Next(cfg, w, steps[0]), steps[1..])
  }

  lemma Along(cfg: Config, w: World, s: Step, rest: seq<Step>)
    requires Enabled(cfg, w, s) && Runs(cfg, Next(cfg, w, s), rest)
    ensures Runs(cfg, w, [s] + rest) && After(cfg, w, [s] + rest) == After(cfg, Next(cfg, w, s), rest)
  {
    hide Next, Enabled;
    assert ([s] + rest)[1..] == rest;
  }

  // The hash is that of the last ONLINE write or says OFFLINE; what is pending was scheduled no later than the last
  // activity, and what is claimed was due soon enough after it.
  predicate DeviceOk(w: World, id: string)
    requires id in w.devices
  {
    var d := w.devices[id];
    && d.lastReport <= d.lastActivity <= w.debounce.now
    && (d.hash.Some? && d.hash.value.status == Online ==> d.hash.value.lastActive == d.lastReport)
    && (!d.marked ==> d.hash == Some(Hash(Online, d.lastReport, d.expires))
                      && d.lastReport + TTL_STATUS - TTL_STATUS / 4 <= d.expires)
    && (id in w.debounce.pending ==> w.debounce.pending[id] <= d.lastActivity)
    && (forall i :: 0 <= i < |w.batches| && id in w.batches[i].ids ==>
          w.batches[i].due <= d.lastActivity + D.INTERVAL)
  }

  ghost predicate Inv(cfg: Config, w: World) {
    && D.Inv(w.debounce)
    && TimeMayPass(cfg, w, w.debounce.now)
    && (forall id :: id in w.debounce.pending ==> id in w.devices)
    && (forall i :: 0 <= i < |w.batches| ==> w.batches[i].ids <= w.devices.Keys)
    && w.judged <= w.devices.Keys
    && forall id :: id in w.devices ==> DeviceOk(w, id)
  }

  function Initial(now: nat, devices: map<string, Device>): World {
    World(D.Initial(now), [], {}, devices)
  }

  // Nothing has been heard of the device yet.
  predicate Unheard(d: Device) {
    d.hash == None && d.lastActivity == 0 && d.lastReport == 0 && d.marked
  }

  lemma InitialOk(cfg: Config, now: nat, devices: map<string, Device>)
    requires forall id :: id in devices ==> Unheard(devices[id])
    ensures Inv(cfg, Initial(now, devices))
  {
  }

  lemma DebounceStays(cfg: Config, w: World, s: Step)
    requires Inv(cfg, w) && Enabled(cfg, w, s)
    ensures D.Inv(Next(cfg, w, s).debounce)
  {
    hide DeviceOk, TimeMayPass;
    if s.Tick? {
      D.StepKeeps(w.debounce, D.Tick(s.elapsed));
    } else if s.Claim? {
      D.StepKeeps(w.debounce, D.Claim(s.timer));
    } else if s.Schedule? {
      D.StepKeeps(w.debounce, D.Schedule(s.id));
    }
  }

  lemma OnTime(cfg: Config, w: World, s: Step)
    requires Inv(cfg, w) && Enabled(cfg, w, s)
    ensures var w' := Next(cfg, w, s); TimeMayPass(cfg, w', w'.debounce.now)
  {
    hide DeviceOk, NextDevice, Marks, NextJudged, D.Claimed, D.Waiting;
    var w' := Next(cfg, w, s);
    forall i | 0 <= i < |w'.batches| && w'.batches[i].ids != {} ensures w'.debounce.now <= w'.batches[i].due + cfg.delay {
      if i < |w.batches| {
        assert w.batches[i].ids != {};
      }
    }
  }

  lemma SameDevices(cfg: Config, w: World, s: Step)
    requires Inv(cfg, w) && Enabled(cfg, w, s)
    ensures var w' := Next(cfg, w, s);
            && w'.devices.Keys == w.devices.Keys && w'.judged <= w'.devices.Keys
            && (forall id :: id in w'.debounce.pending ==> id in w'.devices)
            && (forall i :: 0 <= i < |w'.batches| ==> w'.batches[i].ids <= w'.devices.Keys)
  {
    hide DeviceOk, NextDevice, Marks, TimeMayPass;
  }

  lemma DeviceStays(cfg: Config, w: World, s: Step, id: string)
    requires Inv(cfg, w) && Enabled(cfg, w, s) && id in w.devices
    ensures id in Next(cfg, w, s).devices && DeviceOk(Next(cfg, w, s), id)
  {
    hide Marks, TimeMayPass;
    assert DeviceOk(w, id);
  }

  lemma {:induction false} StepKeeps(cfg: Config, w: World, s: Step)
    requires Inv(cfg, w) && Enabled(cfg, w, s)
    ensures Inv(cfg, Next(cfg, w, s)) && Next(cfg, w, s).devices.Keys == w.devices.Keys
  {
    hide D.Inv, DeviceOk, Next, TimeMayPass, Enabled;
    DebounceStays(cfg, w, s);
    OnTime(cfg, w, s);
    SameDevices(cfg, w, s);
    forall id | id in w.devices ensures DeviceOk(Next(cfg, w, s), id) {
      DeviceStays(cfg, w, s, id);
    }
  }

  lemma {:induction false} RunKeeps(cfg: Config, w: World, steps: seq<Step>)
    requires Inv(cfg, w) && Runs(cfg, w, steps)
    ensures Inv(cfg, After(cfg, w, steps)) && After(cfg, w, steps).devices.Keys == w.devices.Keys
    decreases |steps|
  {
    hide Inv, Next;
    if steps == [] {
    } else {
      StepKeeps(cfg, w, steps[0]);
      RunKeeps(cfg, Next(cfg, w, steps[0]), steps[1..]);
    }
  }

  /** In every run, a device of which no OFFLINE hash was written since its last report is judged by a scan exactly when
      it is online in the database, no connection is open, and the report is older than the threshold or its hash has
      run out. */
  lemma {:induction false} MarksIff(cfg: Config, w0: World, steps: seq<Step>, id: string)
    requires Inv(cfg, w0) && Runs(cfg, w0, steps) && id in w0.devices
    ensures id in After(cfg, w0, steps).devices
    ensures var w := After(cfg, w0, steps);
            var d, now := w.devices[id], w.debounce.now;
            0 < d.lastReport && !d.marked ==>
            (Marks(cfg, d, now) <==>
             d.row == Online && !d.live && (now - d.lastReport > cfg.threshold || now >= d.expires))
  {
    RunKeeps(cfg, w0, steps);
    assert DeviceOk(After(cfg, w0, steps), id);
  }

  // No disconnect writes an OFFLINE hash of the device, and whenever the scanner looks at it, its last report is recent.
  predicate KeepsReporting(cfg: Config, w: World, steps: seq<Step>, id: string)
    requires Runs(cfg, w, steps)
    decreases |steps|
  {
    steps == [] || (Recent(cfg, w, steps[0], id) && KeepsReporting(cfg, Next(cfg, w, steps[0]), steps[1..], id))
  }

  predicate Recent(cfg: Config, w: World, s: Step, id: string) {
    && !(s.WriteHash? && s.id == id && s.status == Offline)
    && (s.Judge? && s.id == id && id in w.devices ==>
          && 0 < w.devices[id].lastReport
          && w.debounce.now - w.devices[id].lastReport < Min(cfg.threshold, TTL_STATUS - TTL_STATUS / 4))
  }

  ghost predicate Unmarked(w: World, id: string) {
    id in w.devices && !w.devices[id].marked && id !in w.judged
  }

  lemma StaysUnmarked(cfg: Config, w: World, s: Step, id: string)
    requires Inv(cfg, w) && Enabled(cfg, w, s) && Unmarked(w, id) && Recent(cfg, w, s, id)
    ensures Unmarked(Next(cfg, w, s), id)
  {
    hide D.Inv, TimeMayPass;
    assert DeviceOk(w, id);
  }

  /** A device whose last report is never as old as the threshold or three quarters of the hash's nominal life when the
      scanner looks is never judged silent nor marked offline by it, connected or not. */
  lemma {:induction false} ReportingDeviceIsNeverMarked(cfg: Config, w: World, steps: seq<Step>, id: string)
    requires Inv(cfg, w) && Unmarked(w, id)
    requires Runs(cfg, w, steps) && KeepsReporting(cfg, w, steps, id)
    ensures Unmarked(After(cfg, w, steps), id)
    decreases |steps|
  {
    hide Inv, Next, Enabled, Recent, Unmarked;
    if steps == [] {
    } else {
      StepKeeps(cfg, w, steps[0]);
      StaysUnmarked(cfg, w, steps[0], id);
      ReportingDeviceIsNeverMarked(cfg, Next(cfg, w, steps[0]), steps[1..], id);
    }
  }

  // ---------- silence ----------

  predicate Active(s: Step, id: string) {
    || (s.WriteHash? && s.id == id && s.status == Online)
    || (s.SetRow? && s.id == id && s.status == Online)
    || (s.Schedule? && s.id == id)
  }

  // The device is silent: no report or heartbeat, nor a part of one, and no subscription.
  predicate Quiet(steps: seq<Step>, id: string) {
    forall i :: 0 <= i < |steps| ==> !Active(steps[i], id)
  }

  function QuietBound(cfg: Config): nat {
    if cfg.threshold > D.INTERVAL + cfg.delay then cfg.threshold else D.INTERVAL + cfg.delay
  }

  // The callback of a timer has claimed the device and not written it yet.
  predicate Writing(w: World, id: string) {
    exists i :: 0 <= i < |w.batches| && id in w.batches[i].ids
  }

  // Offline in the database, with no ONLINE write of a debounce to come.
  predicate SettledOffline(w: World, id: string) {
    id in w.devices && w.devices[id].row == Offline && id !in w.debounce.pending && !Writing(w, id)
  }

  lemma QuietStep(cfg: Config, w: World, s: Step, id: string)
    requires Enabled(cfg, w, s) && SettledOffline(w, id) && !Active(s, id)
    ensures SettledOffline(Next(cfg, w, s), id)
  {
    hide Marks, TimeMayPass;
  }

  lemma {:induction false} StaysOffline(cfg: Config, w: World, steps: seq<Step>, id: string)
    requires Runs(cfg, w, steps) && Quiet(steps, id) && SettledOffline(w, id)
    ensures SettledOffline(After(cfg, w, steps), id)
    decreases |steps|
  {
    hide Next, Enabled, SettledOffline, Active;
    if steps == [] {
    } else {
      QuietStep(cfg, w, steps[0], id);
      StaysOffline(cfg, Next(cfg, w, steps[0]), steps[1..], id);
    }
  }

  // Offline in the database, or about to be written so by the scanner.
  predicate Settling(w: World, id: string) {
    && id in w.devices && (w.devices[id].row == Offline || id in w.judged)
    && id !in w.debounce.pending && !Writing(w, id)
  }

  // The database takes the scanner's writes of the device.
  predicate TakesScans(steps: seq<Step>, id: string) {
    forall i :: 0 <= i < |steps| ==> steps[i] != ScanRow(id, false)
  }

  lemma SettlingStep(cfg: Config, w: World, s: Step, id: string)
    requires Enabled(cfg, w, s) && Settling(w, id) && !Active(s, id) && s != ScanRow(id, false)
    ensures Settling(Next(cfg, w, s), id)
  {
    hide Marks, TimeMayPass;
  }

  lemma {:induction false} StaysSettling(cfg: Config, w: World, steps: seq<Step>, id: string)
    requires Runs(cfg, w, steps) && Quiet(steps, id) && TakesScans(steps, id) && Settling(w, id)
    ensures Settling(After(cfg, w, steps), id)
    decreases |steps|
  {
    hide Next, Enabled, Settling, Active;
    if steps == [] {
    } else {
      SettlingStep(cfg, w, steps[0], id);
      StaysSettling(cfg, Next(cfg, w, steps[0]), steps[1..], id);
    }
  }

  // Nothing of a device silent for so long is pending or still to be written.
  lemma SilentIsJudged(cfg: Config, w: World, id: string)
    requires Inv(cfg, w) && Enabled(cfg, w, Judge(id))
    requires !w.devices[id].live && w.debounce.now - w.devices[id].lastActivity > QuietBound(cfg)
    ensures Settling(Next(cfg, w, Judge(id)), id)
  {
    assert DeviceOk(w, id);
  }

  /** A device silent for longer than the threshold, the debounce interval and its delay, with no connection open when a
      scan looks at it, is OFFLINE in the database as soon as the scan has written its verdict, and stays so until it is
      active again, whatever other devices do. */
  lemma SilentDeviceGoesOffline(cfg: Config, w0: World, before: seq<Step>, id: string, later: seq<Step>)
    requires Inv(cfg, w0) && Runs(cfg, w0, before) && Enabled(cfg, After(cfg, w0, before), Judge(id))
    requires var w := After(cfg, w0, before);
             !w.devices[id].live && w.debounce.now - w.devices[id].lastActivity > QuietBound(cfg)
    requires Runs(cfg, Next(cfg, After(cfg, w0, before), Judge(id)), later)
    requires Quiet(later, id) && TakesScans(later, id)
    ensures var w := After(cfg, Next(cfg, After(cfg, w0, before), Judge(id)), later);
            id !in w.judged ==> SettledOffline(w, id)
  {
    hide Inv, Next, Enabled, Active, Writing;
    RunKeeps(cfg, w0, before);
    SilentIsJudged(cfg, After(cfg, w0, before), id);
    StaysSettling(cfg, Next(cfg, After(cfg, w0, before), Judge(id)), later, id);
  }

  // The device stays OFFLINE in the database for as long as it is silent.
  ghost predicate NeverUndone(cfg: Config, w: World, id: string) {
    forall later :: Runs(cfg, w, later) && Quiet(later, id) ==>
      id in After(cfg, w, later).devices && After(cfg, w, later).devices[id].row == Offline
  }

  /** An OFFLINE in the database, written by a scan or a disconnect, lasts for as long as the device is silent exactly
      when no debounced write of it is outstanding: neither pending nor claimed by a callback that has not got to it. */
  lemma OfflineLastsIff(cfg: Config, w: World, id: string)
    requires Inv(cfg, w) && id in w.devices && w.devices[id].row == Offline
    ensures NeverUndone(cfg, w, id) <==> id !in w.debounce.pending && !Writing(w, id)
  {
    hide Inv, Next, Enabled, Active, Writing;
    if id !in w.debounce.pending && !Writing(w, id) {
      forall later | Runs(cfg, w, later) && Quiet(later, id)
        ensures id in After(cfg, w, later).devices && After(cfg, w, later).devices[id].row == Offline
      {
        StaysOffline(cfg, w, later, id);
      }
    } else {
      var later := OutstandingWrite(cfg, w, id, 0);
    }
  }

  // The claimed devices before batch i have been written; in the end the device is.
  lemma {:induction false} OutstandingWrite(cfg: Config, w: World, id: string, i: nat) returns (later: seq<Step>)
    requires Inv(cfg, w) && id in w.devices && (id in w.debounce.pending || Writing(w, id))
    requires i <= |w.batches| && forall k :: 0 <= k < i ==> w.batches[k].ids == {}
    ensures Runs(cfg, w, later) && Quiet(later, id)
    ensures id in After(cfg, w, later).devices && After(cfg, w, later).devices[id].row == Online
    decreases |w.batches| - i, if i < |w.batches| then |w.batches[i].ids| else 0
  {
    hide Inv, Next, Enabled, DeviceOk;
    if i == |w.batches| {
      later := PendingWrite(cfg, w, id);
    } else if id in w.batches[i].ids {
      later := [WriteRow(i, id, true)];
      RowIsWritten(cfg, w, i, id);
      Along(cfg, w, WriteRow(i, id, true), []);
    } else if other :| other in w.batches[i].ids {
      var s := WriteRow(i, other, false);
      OtherIsWritten(cfg, w, i, other, id);
      StepKeeps(cfg, w, s);
      var rest := OutstandingWrite(cfg, Next(cfg, w, s), id, i);
      later := [s] + rest;
      Along(cfg, w, s, rest);
    } else {
      later := OutstandingWrite(cfg, w, id, i + 1);
    }
  }

  lemma RowIsWritten(cfg: Config, w: World, i: nat, id: string)
    requires id in w.devices && i < |w.batches| && id in w.batches[i].ids
    ensures Enabled(cfg, w, WriteRow(i, id, true))
    ensures var w' := Next(cfg, w, WriteRow(i, id, true)); id in w'.devices && w'.devices[id].row == Online
  {
  }

  lemma OtherIsWritten(cfg: Config, w: World, i: nat, other: string, id: string)
    requires Inv(cfg, w) && i < |w.batches| && other in w.batches[i].ids && id != other
    ensures Enabled(cfg, w, WriteRow(i, other, false))
    ensures var w' := Next(cfg, w, WriteRow(i, other, false));
            && w'.debounce == w.debounce && |w'.batches| == |w.batches|
            && |w'.batches[i].ids| < |w.batches[i].ids|
            && (forall k :: 0 <= k < i ==> w'.batches[k] == w.batches[k])
            && (Writing(w, id) ==> Writing(w', id))
  {
    hide DeviceOk;
    var w' := Next(cfg, w, WriteRow(i, other, false));
    if k :| 0 <= k < |w.batches| && id in w.batches[k].ids {
      assert id in w'.batches[k].ids;
    }
  }

  // With nothing claimed, time can pass until the timer of what is pending is due.
  lemma PendingWrite(cfg: Config, w: World, id: string) returns (later: seq<Step>)
    requires Inv(cfg, w) && id in w.devices && id in w.debounce.pending
    requires forall k :: 0 <= k < |w.batches| ==> w.batches[k].ids == {}
    ensures Runs(cfg, w, later) && Quiet(later, id)
    ensures id in After(cfg, w, later).devices && After(cfg, w, later).devices[id].row == Online
  {
    hide DeviceOk;
    var due, now, last := w.debounce.timers[0], w.debounce.now, |w.batches|;
    var wait := if due > now then due - now else 0;
    var waited := Next(cfg, w, Tick(wait));
    var claimed := Next(cfg, waited, Claim(0));
    assert claimed.batches[last].ids == w.debounce.pending.Keys;
    var write := WriteRow(last, id, true);
    hide Next, Enabled, D.Inv, Inv;
    RowIsWritten(cfg, claimed, last, id);
    Along(cfg, claimed, write, []);
    Along(cfg, waited, Claim(0), [write] + []);
    Along(cfg, w, Tick(wait), [Claim(0)] + ([write] + []));
    later := [Tick(wait)] + ([Claim(0)] + ([write] + []));
  }

  // One device, online in the database of a process that starts, reports after ten seconds.
  function StartOfRun(): World {
    Initial(0, map["d" := Device(Online, None, false, 0, 0, 0, true)])
  }

  const REPORTED := [Tick(10_000), WriteHash("d", Online, 10_000, 600_000), Schedule("d")]

  // The report has been written, and the timer of its debounce is running.
  function Reported(): World {
    var d := Device(Online, Some(Hash(Online, 10_000, 610_000)), false, 10_000, 10_000, 610_000, false);
    World(D.Debounce(10_000, map["d" := 10_000], true, [15_000], [D.Call("d", 10_000)], []), [], {}, map["d" := d])
  }

  lemma ReportHappens(cfg: Config, rest: seq<Step>)
    requires Runs(cfg, Reported(), rest)
    ensures Runs(cfg, StartOfRun(), REPORTED + rest)
    ensures After(cfg, StartOfRun(), REPORTED + rest) == After(cfg, Reported(), rest)
  {
    var w1 := Next(cfg, StartOfRun(), REPORTED[0]);
    var w2 := Next(cfg, w1, REPORTED[1]);
    assert Next(cfg, w2, REPORTED[2]) == Reported();
    hide Next, Enabled;
    Along(cfg, w2, REPORTED[2], rest);
    Along(cfg, w1, REPORTED[1], [REPORTED[2]] + rest);
    Along(cfg, StartOfRun(), REPORTED[0], [REPORTED[1]] + ([REPORTED[2]] + rest));
    assert REPORTED + rest == [REPORTED[0]] + ([REPORTED[1]] + ([REPORTED[2]] + rest));
  }

  function ScanAt(now: nat): seq<Step> {
    [Judge("d"), ScanHash("d", now, 600_000), ScanRow("d", true)]
  }

  // A scan finds the device silent and writes it OFFLINE.
  lemma ScanHappens(cfg: Config, w: World) returns (w': World)
    requires w.devices.Keys == {"d"} && Marks(cfg, w.devices["d"], w.debounce.now)
    ensures Runs(cfg, w, ScanAt(w.debounce.now)) && w' == After(cfg, w, ScanAt(w.debounce.now))
    ensures w'.debounce == w.debounce && w'.batches == w.batches && w'.devices.Keys == {"d"}
    ensures w'.devices["d"].row == Offline
  {
    var steps := ScanAt(w.debounce.now);
    var w1 := Next(cfg, w, steps[0]);
    var w2 := Next(cfg, w1, steps[1]);
    w' := Next(cfg, w2, steps[2]);
    assert Enabled(cfg, w2, steps[2]) && w'.devices["d"].row == Offline;
    hide Next, Enabled;
    Along(cfg, w2, steps[2], []);
    Along(cfg, w1, steps[1], [steps[2]] + []);
    Along(cfg, w, steps[0], [steps[1]] + ([steps[2]] + []));
    assert steps == [steps[0]] + ([steps[1]] + ([steps[2]] + []));
  }

  /** It does happen with a threshold below the debounce interval: the device is marked three seconds after its last
      report, and the timer of that report puts it back online two seconds later. */
  lemma EarlyScanIsUndone()
    ensures var cfg, w := Config(1000, 0), StartOfRun();
            var steps := REPORTED + ([Tick(3_000)] + ScanAt(13_000));
            && Inv(cfg, w) && Runs(cfg, w, steps)
            && var scanned := After(cfg, w, steps);
               "d" in scanned.debounce.pending && !Writing(scanned, "d") && !NeverUndone(cfg, scanned, "d")
  {
    var cfg := Config(1000, 0);
    var later := Next(cfg, Reported(), Tick(3_000));
    assert Enabled(cfg, Reported(), Tick(3_000)) && later.debounce.now == 13_000;
    assert "d" in later.debounce.pending && later.batches == [];
    var w' := ScanHappens(cfg, later);
    hide Next, Enabled;
    Along(cfg, Reported(), Tick(3_000), ScanAt(13_000));
    ReportHappens(cfg, [Tick(3_000)] + ScanAt(13_000));
    InitialOk(cfg, 0, StartOfRun().devices);
    RunKeeps(cfg, StartOfRun(), REPORTED + ([Tick(3_000)] + ScanAt(13_000)));
    OfflineLastsIff(cfg, w', "d");
  }

  // The callback has claimed the device, and half a second has passed.
  function Claimed(): World {
    var d := Device(Online, Some(Hash(Online, 10_000, 610_000)), false, 10_000, 10_000, 610_000, false);
    var flush := D.Flush(15_000, map["d" := 10_000]);
    World(D.Debounce(15_500, map[], false, [], [D.Call("d", 10_000)], [flush]), [Batch(15_000, {"d"})], {},
          map["d" := d])
  }

  lemma ClaimHappens(cfg: Config, rest: seq<Step>)
    requires cfg.delay >= 500 && Runs(cfg, Claimed(), rest)
    ensures var steps := [Tick(5_000)] + ([Claim(0)] + ([Tick(500)] + rest));
            Runs(cfg, Reported(), steps) && After(cfg, Reported(), steps) == After(cfg, Claimed(), rest)
  {
    var due := Next(cfg, Reported(), Tick(5_000));
    var claimed := Next(cfg, due, Claim(0));
    assert claimed.batches[0].ids == {"d"} && claimed.debounce.timers == [];
    assert Next(cfg, claimed, Tick(500)) == Claimed();
    hide Next, Enabled;
    Along(cfg, claimed, Tick(500), rest);
    Along(cfg, due, Claim(0), [Tick(500)] + rest);
    Along(cfg, Reported(), Tick(5_000), [Claim(0)] + ([Tick(500)] + rest));
  }

  /** It happens with nothing pending as well: the callback has claimed the device, and the scanner writes OFFLINE before
      the callback writes ONLINE. */
  lemma ClaimedDeviceIsUndone()
    ensures var cfg, w := Config(3000, 1000), StartOfRun();
            var steps := REPORTED + ([Tick(5_000)] + ([Claim(0)] + ([Tick(500)] + ScanAt(15_500))));
            && Inv(cfg, w) && Runs(cfg, w, steps)
            && var scanned := After(cfg, w, steps);
               scanned.debounce.pending == map[] && Writing(scanned, "d") && !NeverUndone(cfg, scanned, "d")
  {
    hide Next, Enabled, Inv;
    var cfg := Config(3000, 1000);
    assert Marks(cfg, Claimed().devices["d"], 15_500);
    var w' := ScanHappens(cfg, Claimed());
    ClaimHappens(cfg, ScanAt(15_500));
    assert "d" in w'.batches[0].ids;
    ReportHappens(cfg, [Tick(5_000)] + ([Claim(0)] + ([Tick(500)] + ScanAt(15_500))));
    InitialOk(cfg, 0, StartOfRun().devices);
    RunKeeps(cfg, StartOfRun(), REPORTED + ([Tick(5_000)] + ([Claim(0)] + ([Tick(500)] + ScanAt(15_500)))));
    OfflineLastsIff(cfg, w', "d");
  }

  /** A scan marks a device that has reported since the scan looked at it: the row, and the hash over the new report. */
  lemma LateVerdictOvertakesReport(cfg: Config)
    ensures var w := StartOfRun();
            var steps := [Tick(10_000), Judge("d"), REPORTED[1], REPORTED[2],
                          ScanHash("d", 10_000, 600_000), ScanRow("d", true)];
            && Inv(cfg, w) && Runs(cfg, w, steps)
            && var end := After(cfg, w, steps);
               && "d" in end.devices && end.devices["d"].lastReport == end.debounce.now
               && end.devices["d"].row == Offline && end.devices["d"].hash == Some(Hash(Offline, 10_000, 610_000))
  {
    var w1 := Next(cfg, StartOfRun(), Tick(10_000));
    var w2 := Next(cfg, w1, Judge("d"));
    assert "d" in w2.judged;
    var w3 := Next(cfg, w2, REPORTED[1]);
    var w4 := Next(cfg, w3, REPORTED[2]);
    var w5 := Next(cfg, w4, ScanHash("d", 10_000, 600_000));
    assert Enabled(cfg, w5, ScanRow("d", true));
    var rest := [ScanRow("d", true)] + [];
    InitialOk(cfg, 0, StartOfRun().devices);
    hide Inv;
    Along(cfg, w5, ScanRow("d", true), []);
    Along(cfg, w4, ScanHash("d", 10_000, 600_000), rest);
    rest := [ScanHash("d", 10_000, 600_000)] + rest;
    Along(cfg, w3, REPORTED[2], rest);
    rest := [REPORTED[2]] + rest;
    Along(cfg, w2, REPORTED[1], rest);
    rest := [REPORTED[1]] + rest;
    Along(cfg, w1, Judge("d"), rest);
    Along(cfg, StartOfRun(), Tick(10_000), [Judge("d")] + rest);
    assert [Tick(10_000)] + ([Judge("d")] + rest)
        == [Tick(10_000), Judge("d"), REPORTED[1], REPORTED[2], ScanHash("d", 10_000, 600_000), ScanRow("d", true)];
  }

  // ---------- the scanner ----------

  predicate NoRepeats(ids: seq<string>) {
    forall i, j :: 0 <= i < j < |ids| ==> ids[i] != ids[j]
  }

  predicate RowsMarked(before: map<string, Status>, after: map<string, Status>, off: set<string>) {
    after.Keys == before.Keys && forall d :: d in before ==> after[d] == if d in off then Offline else before[d]
  }

  ghost predicate HashesMarked(before: map<string, Hash>, after: map<string, Hash>, off: set<string>, now: nat,
                               ttl: string -> nat) {
    forall d :: Find(after, d) == if d in off then Some(Hash(Offline, now, now + ttl(d))) else Find(before, d)
  }

  lemma NothingMarked(rows: map<string, Status>, hashes: map<string, Hash>, now: nat, ttl: string -> nat)
    ensures RowsMarked(rows, rows, {}) && HashesMarked(hashes, hashes, {}, now, ttl)
  {
  }

  lemma RowMarked(before: map<string, Status>, rows: map<string, Status>, off: set<string>, d: string)
    requires RowsMarked(before, rows, off) && d in before
    ensures RowsMarked(before, rows[d := Offline], off + {d})
  {
  }

  lemma HashMarked(before: map<string, Hash>, hashes: map<string, Hash>, off: set<string>, d: string, now: nat,
                   ttl: string -> nat)
    requires HashesMarked(before, hashes, off, now, ttl)
    ensures HashesMarked(before, hashes[d := Hash(Offline, now, now + ttl(d))], off + {d}, now, ttl)
  {
    var after := hashes[d := Hash(Offline, now, now + ttl(d))];
    forall k ensures Find(after, k) == if k in off + {d} then Some(Hash(Offline, now, now + ttl(k))) else Find(before, k) {
      assert k != d ==> Find(after, k) == Find(hashes, k);
    }
  }

  /** The scanner over the database's rows and the hashes in Redis. Which store answers is free, device by device. */
  class DeviceOfflineSyncer {
    const threshold: nat
    var rows: map<string, Status>
    var hashes: map<string, Hash>
    var notified: seq<string>

    constructor (configured: int, rows: map<string, Status>, hashes: map<string, Hash>)
      ensures threshold == if configured <= 0 then 120_000 else configured
      ensures this.rows == rows && this.hashes == hashes && notified == []
    {
      threshold := Threshold(configured);
      this.rows, this.hashes, notified := rows, hashes, [];
    }

    // The scan finds the device online in the database, not connected, and silent.
    predicate Judged(isOnline: string -> bool, now: nat, d: string) reads this {
      && d in rows && rows[d] == Online && !isOnline(d)
      && (d in hashes && now < hashes[d].expires ==>
            hashes[d].status == Offline || hashes[d].lastActive == 0 || now - hashes[d].lastActive > threshold)
    }

    method ListOnline() returns (ids: seq<string>)
      ensures NoRepeats(ids) && forall d :: d in ids <==> d in rows && rows[d] == Online
    {
      ids := [];
      var left := rows.Keys;
      while left != {}
        invariant left <= rows.Keys && NoRepeats(ids)
        invariant forall d :: d in ids <==> d in rows.Keys - left && rows[d] == Online
        decreases left
      {
        var d :| d in left;
        left := left - {d};
        if rows[d] == Online {
          ids := ids + [d];
        }
      }
    }

    // The devices to look at, and what Redis holds for each, read in one round trip; a read of one device may fail.
    method ReadHashes(devices: seq<string>, isOnline: string -> bool, now: nat, replies: string -> bool)
        returns (ids: seq<string>, found: seq<Option<Option<Hash>>>)
      requires NoRepeats(devices)
      ensures NoRepeats(ids) && |found| == |ids|
      ensures forall d :: d in ids <==> d in devices && !isOnline(d)
      ensures forall i :: 0 <= i < |ids| ==>
                found[i] == if replies(ids[i]) then Some(Read(Find(hashes, ids[i]), now)) else None
    {
      ids, found := [], [];
      for k := 0 to |devices|
        invariant NoRepeats(ids) && |found| == |ids|
        invariant forall d :: d in ids <==> d in devices[..k] && !isOnline(d)
        invariant forall i :: 0 <= i < |ids| ==>
                    found[i] == if replies(ids[i]) then Some(Read(Find(hashes, ids[i]), now)) else None
      {
        assert devices[..k + 1] == devices[..k] + [devices[k]];
        if isOnline(devices[k]) {
          continue;
        }
        ids := ids + [devices[k]];
        found := found + [if replies(devices[k]) then Some(Read(Find(hashes, devices[k]), now)) else None];
      }
      assert devices[..|devices|] == devices;
    }

    /** One scan. Unless the list of devices or the round trip to Redis fails, exactly the judged devices that could be
        read get an OFFLINE hash and an OFFLINE row, each where its store answers, and exactly those whose row was
        written are announced, once each. */
    method SyncOnce(now: nat, isOnline: string -> bool, ttl: string -> nat, listed: bool, piped: bool,
                    replies: string -> bool, redisAnswers: string -> bool, databaseAnswers: string -> bool)
      modifies this`rows, this`hashes, this`notified
      ensures rows.Keys == old(rows).Keys
      ensures forall d :: d in rows ==>
                rows[d] == if listed && piped && old(Judged(isOnline, now, d)) && replies(d) && databaseAnswers(d)
                           then Offline else old(rows)[d]
      ensures forall d :: Find(hashes, d) ==
                if listed && piped && old(Judged(isOnline, now, d)) && replies(d) && redisAnswers(d)
                then Some(Hash(Offline, now, now + ttl(d))) else Find(old(hashes), d)
      ensures old(notified) <= notified && NoRepeats(notified[|old(notified)|..])
      ensures forall d :: d in notified[|old(notified)|..] <==>
                listed && piped && old(Judged(isOnline, now, d)) && replies(d) && databaseAnswers(d)
    {
      if !listed {
        return;
      }
      var devices := ListOnline();
      if |devices| == 0 {
        return;
      }
      var ids, found := ReadHashes(devices, isOnline, now, replies);
      if |ids| == 0 || !piped {
        return;
      }
      ghost var judged :=
        set d | d in ids && replies(d) && Silent(Read(Find(hashes, d), now), now, threshold);
      assert forall d :: d in judged <==> Judged(isOnline, now, d) && replies(d);
      MarkSilent(ids, found, judged, now, ttl, redisAnswers, databaseAnswers);
    }

    // The second loop of a scan.
    method MarkSilent(ids: seq<string>, found: seq<Option<Option<Hash>>>, ghost judged: set<string>, now: nat,
                      ttl: string -> nat, redisAnswers: string -> bool, databaseAnswers: string -> bool)
      requires NoRepeats(ids) && |found| == |ids| && forall d :: d in ids ==> d in rows
      requires judged <= set d | d in ids
      requires forall i :: 0 <= i < |ids| ==>
                 (ids[i] in judged <==> found[i].Some? && Silent(found[i].value, now, threshold))
      modifies this`rows, this`hashes, this`notified
      ensures RowsMarked(old(rows), rows, (set d | d in judged && databaseAnswers(d)))
      ensures HashesMarked(old(hashes), hashes, (set d | d in judged && redisAnswers(d)), now, ttl)
      ensures old(notified) <= notified && NoRepeats(notified[|old(notified)|..])
      ensures forall d :: d in notified[|old(notified)|..] <==> d in judged && databaseAnswers(d)
    {
      hide Silent, RowsMarked, HashesMarked;
      ghost var told, off, gone := [], {}, {};
      NothingMarked(rows, hashes, now, ttl);
      for i := 0 to |ids|
        invariant notified == old(notified) + told && NoRepeats(told)
        invariant forall d :: d in told <==> d in ids[..i] && d in judged && databaseAnswers(d)
        invariant forall d :: d in off <==> d in told
        invariant forall d :: d in gone <==> d in ids[..i] && d in judged && redisAnswers(d)
        invariant rows.Keys == old(rows).Keys
        invariant RowsMarked(old(rows), rows, off)
        invariant HashesMarked(old(hashes), hashes, gone, now, ttl)
      {
        var d := ids[i];
        assert ids[..i + 1] == ids[..i] + [d] && d !in ids[..i];
        if found[i].None? || !Silent(found[i].value, now, threshold) {
          continue;
        }
        if redisAnswers(d) {
          HashMarked(old(hashes), hashes, gone, d, now, ttl);
          hashes := hashes[d := Hash(Offline, now, now + ttl(d))];
          gone := gone + {d};
        }
        if !databaseAnswers(d) {
          continue;
        }
        RowMarked(old(rows), rows, off, d);
        rows := rows[d := Offline];
        off := off + {d};
        notified := notified + [d];
        told := told + [d];
      }
      assert ids[..|ids|] == ids;
      assert off == set d | d in judged && databaseAnswers(d);
      assert gone == set d | d in judged && redisAnswers(d);
    }
  }
}
