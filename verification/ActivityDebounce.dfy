/** The debounced write of device activity: devices are collected in a pending map, and a timer of five seconds
    claims the whole map for one batch of database updates. Times are milliseconds. */
module ActivityDebounce {
  import opened Options

  const INTERVAL := 5000

  // A batch claimed by a timer that was due at some time.
  datatype Flush = Flush(due: nat, batch: map<string, nat>)

  datatype Call = Call(device: string, at: nat)

  // armed says whether the timer field is set; timers are the callbacks that have not claimed yet, by due time.
  // calls and flushes are histories.
  datatype Debounce = Debounce(
    now: nat,
    pending: map<string, nat>,
    armed: bool,
    timers: seq<nat>,
    calls: seq<Call>,
    flushes: seq<Flush>)

  datatype Step = Tick(elapsed: nat) | Schedule(device: string) | Claim(timer: nat)

  // A callback runs at its due time or later.
  predicate Enabled(d: Debounce, s: Step) {
    s.Claim? ==> s.timer < |d.timers| && d.timers[s.timer] <= d.now
  }

  function Next(d: Debounce, s: Step): Debounce
    requires Enabled(d, s)
  {
    match s
    case Tick(elapsed) => d.(now := d.now + elapsed)
    case Schedule(device) =>
      d.(pending := d.pending[device := d.now],
         timers := if d.armed then d.timers else d.timers + [d.now + INTERVAL],
         armed := true,
         calls := d.calls + [Call(device, d.now)])
    case Claim(i) =>
      d.(pending := map[],
         timers := d.timers[..i] + d.timers[i + 1..],
         armed := false,
         flushes := d.flushes + [Flush(d.timers[i], d.pending)])
  }

  // A flush took the device, with the time of this call or a later one, and its timer was due soon enough.
  predicate ClaimedBy(f: Flush, c: Call) {
    c.device in f.batch && c.at <= f.batch[c.device] && f.due <= c.at + INTERVAL
  }

  ghost predicate Claimed(flushes: seq<Flush>, c: Call) {
    exists f :: f in flushes && ClaimedBy(f, c)
  }

  ghost predicate Waiting(d: Debounce, c: Call) {
    && c.device in d.pending && c.at <= d.pending[c.device]
    && |d.timers| == 1 && d.timers[0] <= c.at + INTERVAL
  }

  ghost predicate Inv(d: Debounce) {
    && |d.timers| == (if d.armed then 1 else 0)
    && (!d.armed ==> d.pending == map[])
    && (d.armed ==> d.timers[0] <= d.now + INTERVAL)
    && (forall device :: device in d.pending ==>
          d.pending[device] <= d.now && d.armed && d.timers[0] <= d.pending[device] + INTERVAL)
    && (forall c :: c in d.calls ==> c.at <= d.now && (Claimed(d.flushes, c) || Waiting(d, c)))
  }

  lemma CallStays(d: Debounce, s: Step, c: Call)
    requires Inv(d) && Enabled(d, s) && c in d.calls
    ensures Claimed(Next(d, s).flushes, c) || Waiting(Next(d, s), c)
  {
    var d' := Next(d, s);
    if Claimed(d.flushes, c) {
      var f :| f in d.flushes && ClaimedBy(f, c);
      assert f in d'.flushes;
    } else if s.Claim? {
      assert d'.flushes[|d.flushes|] == Flush(d.timers[0], d.pending);
      assert ClaimedBy(d'.flushes[|d.flushes|], c);
    }
  }

  lemma StepKeeps(d: Debounce, s: Step)
    requires Inv(d) && Enabled(d, s)
    ensures Inv(Next(d, s))
  {
    hide Claimed;
    var d' := Next(d, s);
    forall c | c in d'.calls ensures c.at <= d'.now && (Claimed(d'.flushes, c) || Waiting(d', c)) {
      if c in d.calls {
        CallStays(d, s, c);
      }
    }
  }

  predicate Runs(d: Debounce, steps: seq<Step>)
    decreases |steps|
  {
    steps == [] || (Enabled(d, steps[0]) && Runs(Next(d, steps[0]), steps[1..]))
  }

  function After(d: Debounce, steps: seq<Step>): Debounce
    requires Runs(d, steps)
    decreases |steps|
  {
    if steps == [] then d else After(Next(d, steps[0]), steps[1..])
  }

  function Initial(now: nat): Debounce {
    Debounce(now, map[], false, [], [], [])
  }

  lemma {:induction false} RunKeeps(d: Debounce, steps: seq<Step>)
    requires Inv(d) && Runs(d, steps)
    ensures Inv(After(d, steps))
    decreases |steps|
  {
    hide Inv, Next;
    if steps == [] {
    } else {
      StepKeeps(d, steps[0]);
      RunKeeps(Next(d, steps[0]), steps[1..]);
    }
  }

  /** Nothing is lost under any interleaving: without a timer nothing is pending, at most one callback is outstanding,
      and every scheduled device has been claimed by a timer due within five seconds of the call, or is pending
      with such a timer outstanding. */
  lemma EveryRun(now: nat, steps: seq<Step>, c: Call)
    requires Runs(Initial(now), steps) && c in After(Initial(now), steps).calls
    ensures var d := After(Initial(now), steps);
            && (!d.armed ==> d.pending == map[])
            && |d.timers| <= 1
            && (Claimed(d.flushes, c) || Waiting(d, c))
  {
    RunKeeps(Initial(now), steps);
  }

  /** No device is updated that did not report: what a batch holds was scheduled, at the time it holds. */
  lemma {:induction false} OnlyScheduled(d: Debounce, steps: seq<Step>, device: string)
    requires Runs(d, steps)
    requires device in d.pending ==> Call(device, d.pending[device]) in d.calls
    ensures var d' := After(d, steps); device in d'.pending ==> Call(device, d'.pending[device]) in d'.calls
    decreases |steps|
  {
    if steps == [] {
    } else {
      OnlyScheduled(Next(d, steps[0]), steps[1..], device);
    }
  }

  /** The debounce fields of the report service, and the database's ONLINE column; the mutex makes scheduling and
      claiming one step each. */
  class ActivityUpdates {
    var pgUpdatePending: map<string, nat>
    var pgUpdateTimer: Option<nat>
    var online: map<string, bool>
    ghost var state: Debounce

    ghost predicate Valid() reads this {
      && Inv(state)
      && state.pending == pgUpdatePending
      && state.armed == pgUpdateTimer.Some?
      && (pgUpdateTimer.Some? ==> state.timers == [pgUpdateTimer.value])
    }

    constructor (now: nat, online: map<string, bool>)
      ensures Valid() && state == Initial(now) && this.online == online
    {
      pgUpdatePending, pgUpdateTimer, this.online := map[], None, online;
      state := Initial(now);
    }

    method SchedulePGUpdate(deviceID: string, now: nat)
      requires Valid() && now == state.now
      modifies this`pgUpdatePending, this`pgUpdateTimer, this`state
      ensures Valid() && state == Next(old(state), Schedule(deviceID))
      ensures pgUpdatePending == old(pgUpdatePending)[deviceID := now]
      ensures pgUpdateTimer == if old(pgUpdateTimer).Some? then old(pgUpdateTimer) else Some(now + 5000)
    {
      StepKeeps(state, Schedule(deviceID));
      state := Next(state, Schedule(deviceID));
      pgUpdatePending := pgUpdatePending[deviceID := now];
      if pgUpdateTimer.None? {
        pgUpdateTimer := Some(now + INTERVAL);
      }
    }

    // The locked part of the timer's callback: it claims what is pending.
    method ClaimPending() returns (pending: map<string, nat>)
      requires Valid() && Enabled(state, Claim(0))
      modifies this`pgUpdatePending, this`pgUpdateTimer, this`state
      ensures Valid() && state == Next(old(state), Claim(0))
      ensures pending == old(pgUpdatePending) && pgUpdatePending == map[] && pgUpdateTimer == None
    {
      StepKeeps(state, Claim(0));
      state := Next(state, Claim(0));
      pending := pgUpdatePending;
      pgUpdatePending := map[];
      pgUpdateTimer := None;
    }

    // The callback: every device claimed is written ONLINE, in any order, where the database answers.
    method FlushPGUpdates(answers: string -> bool)
      requires Valid() && Enabled(state, Claim(0))
      modifies this
      ensures Valid() && state == Next(old(state), Claim(0)) && pgUpdatePending == map[] && pgUpdateTimer == None
      ensures online.Keys == old(online).Keys
      ensures forall d :: d in online ==> online[d] == (old(online)[d] || (d in old(pgUpdatePending) && answers(d)))
    {
      var pending := ClaimPending();
      var left := pending.Keys;
      while left != {}
        invariant left <= pending.Keys && online.Keys == old(online).Keys
        invariant Valid() && state == Next(old(state), Claim(0)) && pgUpdatePending == map[] && pgUpdateTimer == None
        invariant forall d :: d in online ==> online[d] == (old(online)[d] || (d in pending.Keys - left && answers(d)))
        decreases left
      {
        var d :| d in left;
        left := left - {d};
        if answers(d) && d in online {
          online := online[d := true];
        }
      }
    }
  }
}
