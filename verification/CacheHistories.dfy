/** What is stored in L2 over a run of the machine of CacheFlights: how often it is loaded, who shares a load, and when it
    is stale. */
module CacheHistories {
  import opened CacheFlights
  import opened Options
  import opened TwoLevelCache

  // ---------- one load per L2 lifetime ----------

  // Event n is the flight of instance i storing loaded data in L2.
  predicate StoresAt(run: seq<State>, events: seq<Event>, i: nat, n: nat)
    requires |run| == |events| + 1
  {
    && n < |events| && i < |run[n].instances|
    && events[n].FlightStep? && events[n].instance == i && events[n].ok && run[n].instances[i].flight.Storing?
  }

  // Event n is the flight of instance i starting its loader.
  predicate LoadsAt(run: seq<State>, events: seq<Event>, i: nat, n: nat)
    requires |run| == |events| + 1
  {
    && n < |events| && i < |run[n].instances|
    && events[n].FlightStep? && events[n].instance == i && run[n].instances[i].flight.Missed?
  }

  // Event n is the second L2 look of a flight of instance i, and Redis does not answer it.
  predicate BlindAt(run: seq<State>, events: seq<Event>, i: nat, n: nat)
    requires |run| == |events| + 1
  {
    && n < |events| && i < |run[n].instances|
    && events[n].FlightStep? && events[n].instance == i && !events[n].ok && run[n].instances[i].flight.Checking?
  }

  // What can end the life in L2 of what event a stored: an eviction, or three quarters of the nominal lifetime.
  predicate Outlived(cfg: Config, run: seq<State>, events: seq<Event>, a: nat, n: nat)
    requires |run| == |events| + 1
  {
    a <= n < |events| && (events[n].EvictL2? || 4 * run[n].now >= 4 * run[a].now + 3 * cfg.redisTTL)
  }

  lemma BecomesMissed(cfg: Config, s: State, e: Event, i: nat)
    requires Enabled(cfg, s, e) && i < |Next(cfg, s, e).instances| && Next(cfg, s, e).instances[i].flight.Missed?
    ensures i < |s.instances|
    ensures || s.instances[i].flight.Missed?
            || (e.FlightStep? && e.instance == i && s.instances[i].flight.Checking? && (!e.ok || !Live(s.l2, s.now)))
  {
  }

  // The look at which a flight that is now missing L2 missed it.
  lemma {:induction false} MissedSince(cfg: Config, run: seq<State>, events: seq<Event>, i: nat, a: nat, n: nat)
      returns (c: nat)
    requires IsRun(cfg, run, events) && StoresAt(run, events, i, a) && a < n < |run|
    requires i < |run[n].instances| && run[n].instances[i].flight.Missed?
    ensures a < c < n && (BlindAt(run, events, i, c) || !Live(run[c].l2, run[c].now))
    decreases n
  {
    BecomesMissed(cfg, run[n - 1], events[n - 1], i);
    if run[n - 1].instances[i].flight.Missed? {
      c := MissedSince(cfg, run, events, i, a, n - 1);
    } else {
      c := n - 1;
    }
  }

  // L2 holds an entry that lives at least as long as one stored at event a.
  predicate Outlasts(cfg: Config, run: seq<State>, a: nat, n: nat)
    requires a < |run| && n < |run|
  {
    run[n].l2.Some? && 4 * run[n].l2.value.expires >= 4 * run[a].now + 3 * cfg.redisTTL
  }

  lemma StepOutlasts(cfg: Config, s: State, e: Event, bound: nat)
    requires Enabled(cfg, s, e) && !e.EvictL2? && bound <= 4 * s.now + 3 * cfg.redisTTL
    requires s.l2.Some? && 4 * s.l2.value.expires >= bound
    ensures Next(cfg, s, e).l2.Some? && 4 * Next(cfg, s, e).l2.value.expires >= bound
    ensures s.now <= Next(cfg, s, e).now
  {
  }

  lemma {:induction false} StoredEntryStays(cfg: Config, run: seq<State>, events: seq<Event>, i: nat, a: nat, n: nat)
    requires IsRun(cfg, run, events) && StoresAt(run, events, i, a) && a < n < |run|
    requires forall k :: a < k < n ==> !events[k].EvictL2?
    ensures run[a].now <= run[n].now && Outlasts(cfg, run, a, n)
    decreases n
  {
    hide Next, StoresAt;
    if n == a + 1 {
      StoredEntryBegins(cfg, run, events, i, a);
    } else {
      StoredEntryStays(cfg, run, events, i, a, n - 1);
      StepOutlasts(cfg, run[n - 1], events[n - 1], 4 * run[a].now + 3 * cfg.redisTTL);
    }
  }

  lemma StoredEntryBegins(cfg: Config, run: seq<State>, events: seq<Event>, i: nat, a: nat)
    requires IsRun(cfg, run, events) && StoresAt(run, events, i, a)
    ensures run[a].now <= run[a + 1].now && Outlasts(cfg, run, a, a + 1)
  {
    assert run[a + 1] == Next(cfg, run[a], events[a]);
  }

  /** Once a flight has stored a row in L2, its instance starts no further load, whatever callers had already missed L1
      and L2, before the entry was evicted, three quarters of its nominal lifetime passed, or Redis did not
      answer the instance's own look at it. */
  lemma SingleLoadPerLifetime(
      cfg: Config, run: seq<State>, events: seq<Event>, i: nat, a: nat, b: nat)
    requires IsRun(cfg, run, events) && a < b
    requires StoresAt(run, events, i, a) && LoadsAt(run, events, i, b)
    ensures exists c :: a < c < b && (BlindAt(run, events, i, c) || Outlived(cfg, run, events, a, c))
  {
    var c := MissedSince(cfg, run, events, i, a, b);
    if !BlindAt(run, events, i, c) {
      if k :| a < k < c && events[k].EvictL2? {
        assert Outlived(cfg, run, events, a, k);
      } else {
        StoredEntryStays(cfg, run, events, i, a, c);
        assert Outlived(cfg, run, events, a, c);
      }
    }
  }

  lemma {:induction false} DoneStays(cfg: Config, run: seq<State>, events: seq<Event>, i: nat, n: nat, a: nat, b: nat)
    requires IsRun(cfg, run, events) && a <= b < |run|
    requires i < |run[a].instances| && n < |run[a].instances[i].done|
    ensures i < |run[b].instances| && n < |run[b].instances[i].done|
    ensures run[b].instances[i].done[n] == run[a].instances[i].done[n]
    decreases b
  {
    if a < b {
      DoneStays(cfg, run, events, i, n, a, b - 1);
      assert run[b] == Next(cfg, run[b - 1], events[b - 1]);
    }
  }

  // Event n is caller c of instance i taking the result of flight f.
  predicate TakesAt(run: seq<State>, events: seq<Event>, i: nat, f: nat, c: nat, n: nat)
    requires |run| == |events| + 1
  {
    && n < |events| && events[n].CallerStep? && events[n].caller == c && c in run[n].callers
    && run[n].callers[c].instance == i && run[n].callers[c].place == Waiting(f)
  }

  // What a caller holds right after taking a result: data to keep and return, or an error.
  function Taken(place: Place): Answer
    requires place.FillHit? || place.Returned?
  {
    if place.FillHit? then Found(place.data) else place.answer
  }

  /** All callers of one flight get the same bytes, or the same error. */
  lemma SameBytesForAll(
      cfg: Config, run: seq<State>, events: seq<Event>, i: nat, f: nat, c: nat, n: nat, c': nat, n': nat)
    requires IsRun(cfg, run, events) && n <= n'
    requires TakesAt(run, events, i, f, c, n) && TakesAt(run, events, i, f, c', n')
    ensures c in run[n + 1].callers && c' in run[n' + 1].callers
    ensures var p, p' := run[n + 1].callers[c].place, run[n' + 1].callers[c'].place;
            (p.FillHit? || p.Returned?) && (p'.FillHit? || p'.Returned?) && Taken(p) == Taken(p')
  {
    DoneStays(cfg, run, events, i, f, n, n');
    assert run[n + 1] == Next(cfg, run[n], events[n]) && run[n' + 1] == Next(cfg, run[n'], events[n']);
  }

  // ---------- a load that is not one step ----------

  // Event k puts into L2 the row that event r read: the load of a flight, or the read of a writer that warms the cache.
  ghost predicate Carries(run: seq<State>, events: seq<Event>, r: nat, k: nat)
    requires |run| == |events| + 1
  {
    r < k < |events| && (FlightCarries(run, events, r, k) || WarmCarries(run, events, r, k))
  }

  ghost predicate FlightCarries(run: seq<State>, events: seq<Event>, r: nat, k: nat)
    requires |run| == |events| + 1 && r < k < |events|
  {
    && events[k].FlightStep?
    && var i := events[k].instance;
       && StoresAt(run, events, i, k) && LoadsAt(run, events, i, r)
       && forall j :: r < j <= k ==> i < |run[j].instances| && run[j].instances[i].flight == run[k].instances[i].flight
  }

  ghost predicate WarmCarries(run: seq<State>, events: seq<Event>, r: nat, k: nat)
    requires |run| == |events| + 1 && r < k < |events|
  {
    && events[k].WarmStore? && events[r] == WarmRead(events[k].writer)
    && events[k].writer in run[k].warming
    && forall j :: r < j <= k ==>
         events[k].writer in run[j].warming && run[j].warming[events[k].writer] == run[k].warming[events[k].writer]
  }

  // What is carried is what the database held at the read.
  lemma CarriedRow(cfg: Config, run: seq<State>, events: seq<Event>, r: nat, k: nat)
    requires IsRun(cfg, run, events) && Carries(run, events, r, k)
    ensures run[k + 1].l2.Some? && run[r].db == Some(run[k + 1].l2.value.value)
  {
    assert run[k + 1] == Next(cfg, run[k], events[k]) && run[r + 1] == Next(cfg, run[r], events[r]);
  }

  lemma {:induction false} FlightLoad(cfg: Config, run: seq<State>, events: seq<Event>, i: nat, n: nat) returns (r: nat)
    requires IsRun(cfg, run, events) && n < |run| && i < |run[n].instances| && run[n].instances[i].flight.Storing?
    ensures r < n && LoadsAt(run, events, i, r)
    ensures forall j :: r < j <= n ==> i < |run[j].instances| && run[j].instances[i].flight == run[n].instances[i].flight
    decreases n
  {
    StoringSince(cfg, run[n - 1], events[n - 1], i);
    if run[n - 1].instances[i].flight.Storing? {
      r := FlightLoad(cfg, run, events, i, n - 1);
    } else {
      r := n - 1;
    }
  }

  lemma StoringSince(cfg: Config, s: State, e: Event, i: nat)
    requires Enabled(cfg, s, e) && i < |Next(cfg, s, e).instances| && Next(cfg, s, e).instances[i].flight.Storing?
    ensures i < |s.instances|
    ensures || s.instances[i].flight == Next(cfg, s, e).instances[i].flight
            || (e.FlightStep? && e.instance == i && s.instances[i].flight.Missed?)
    ensures s.instances[i].flight.Storing? ==> s.instances[i].flight == Next(cfg, s, e).instances[i].flight
  {
  }

  lemma {:induction false} WarmUpRead(cfg: Config, run: seq<State>, events: seq<Event>, p: nat, n: nat) returns (r: nat)
    requires IsRun(cfg, run, events) && n < |run| && p in run[n].warming
    ensures r < n && events[r] == WarmRead(p)
    ensures forall j :: r < j <= n ==> p in run[j].warming && run[j].warming[p] == run[n].warming[p]
    decreases n
  {
    assert n > 0 && run[n] == Next(cfg, run[n - 1], events[n - 1]);
    if p in run[n - 1].warming {
      r := WarmUpRead(cfg, run, events, p, n - 1);
    } else {
      r := n - 1;
    }
  }

  // Event k writes L2.
  predicate FillsL2(s: State, e: Event) {
    || e.WarmStore?
    || (e.FlightStep? && e.ok && e.instance < |s.instances| && s.instances[e.instance].flight.Storing?)
  }

  lemma EveryFillCarries(cfg: Config, run: seq<State>, events: seq<Event>, k: nat) returns (r: nat)
    requires IsRun(cfg, run, events) && k < |events| && FillsL2(run[k], events[k])
    ensures Carries(run, events, r, k)
  {
    if events[k].WarmStore? {
      r := WarmUpRead(cfg, run, events, events[k].writer, k);
    } else {
      r := FlightLoad(cfg, run, events, events[k].instance, k);
    }
  }

  lemma {:induction false} RowChanges(cfg: Config, run: seq<State>, events: seq<Event>, m: nat, n: nat)
    requires IsRun(cfg, run, events) && m <= n < |run| && forall k :: m <= k < n ==> !events[k].Write?
    ensures run[m].db == run[n].db
    decreases n
  {
    if m < n {
      RowChanges(cfg, run, events, m, n - 1);
      assert run[n] == Next(cfg, run[n - 1], events[n - 1]);
    }
  }

  /** Whatever is written to L2 was read from the database by its own flight or warm-up at an earlier event r; it agrees
      with the database exactly when the row is what it was at r, so only a write in between makes it differ. */
  lemma StoreAgreesIff(cfg: Config, run: seq<State>, events: seq<Event>, k: nat) returns (r: nat)
    requires IsRun(cfg, run, events) && k < |events| && FillsL2(run[k], events[k])
    ensures Carries(run, events, r, k) && run[k + 1].l2.Some?
    ensures Some(run[k + 1].l2.value.value) == run[k + 1].db <==> run[r].db == run[k].db
    ensures run[r].db != run[k].db ==> exists w :: r <= w < k && events[w].Write?
  {
    r := EveryFillCarries(cfg, run, events, k);
    CarriedRow(cfg, run, events, r, k);
    assert run[k + 1].db == run[k].db;
    if forall w :: r <= w < k ==> !events[w].Write? {
      RowChanges(cfg, run, events, r, k);
    }
  }

  // What L2 holds before event n was written by event k.
  predicate LastFill(run: seq<State>, events: seq<Event>, k: nat, n: nat)
    requires |run| == |events| + 1
  {
    && k < n < |run| && FillsL2(run[k], events[k])
    && forall j :: k < j < n ==> !FillsL2(run[j], events[j]) && !events[j].EvictL2?
  }

  lemma UntouchedL2(cfg: Config, s: State, e: Event)
    requires Enabled(cfg, s, e)
    ensures !FillsL2(s, e) && !e.EvictL2? ==> Next(cfg, s, e).l2 == s.l2
    ensures e.EvictL2? ==> Next(cfg, s, e).l2 == None
    ensures FillsL2(s, e) ==> Next(cfg, s, e).l2.Some?
  {
  }

  lemma {:induction false} FillStays(cfg: Config, run: seq<State>, events: seq<Event>, k: nat, n: nat)
    requires IsRun(cfg, run, events) && LastFill(run, events, k, n)
    ensures run[n].l2 == run[k + 1].l2
    decreases n
  {
    if n > k + 1 {
      FillStays(cfg, run, events, k, n - 1);
      UntouchedL2(cfg, run[n - 1], events[n - 1]);
    }
  }

  lemma {:induction false} FilledSince(cfg: Config, run: seq<State>, events: seq<Event>, e: nat, n: nat) returns (k: nat)
    requires IsRun(cfg, run, events) && e < n < |run| && events[e].EvictL2? && run[n].l2.Some?
    ensures e < k && LastFill(run, events, k, n)
    decreases n
  {
    UntouchedL2(cfg, run[n - 1], events[n - 1]);
    if FillsL2(run[n - 1], events[n - 1]) {
      k := n - 1;
    } else {
      k := FilledSince(cfg, run, events, e, n - 1);
    }
  }

  // L2 holds an entry that is not the database's row.
  predicate StaleL2(s: State) {
    s.l2.Some? && Some(s.l2.value.value) != s.db
  }

  /** After a write (event w) and its eviction (event e), and until the next write, L2 is stale exactly when what it holds
      was put there after the eviction by a flight or warm-up that had read a different row before the write. */
  lemma StaleAfterEvictionIff(
      cfg: Config, run: seq<State>, events: seq<Event>, w: nat, e: nat, n: nat)
    requires IsRun(cfg, run, events) && w < e < n < |run|
    requires events[w].Write? && events[e].EvictL2? && forall j :: w < j < n ==> !events[j].Write?
    ensures StaleL2(run[n]) <==>
            exists r: nat, k: nat :: && r < w && e < k && LastFill(run, events, k, n) && Carries(run, events, r, k)
                           && run[r].db != run[w + 1].db
  {
    RowChanges(cfg, run, events, w + 1, n);
    if StaleL2(run[n]) {
      var k := FilledSince(cfg, run, events, e, n);
      var r := EveryFillCarries(cfg, run, events, k);
      CarriedRow(cfg, run, events, r, k);
      FillStays(cfg, run, events, k, n);
      if r > w {
        RowChanges(cfg, run, events, r, n);
      }
      assert r < w && run[r].db != run[w + 1].db;
    }
    forall r: nat, k: nat | && r < w && e < k && LastFill(run, events, k, n) && Carries(run, events, r, k)
                  && run[r].db != run[w + 1].db
      ensures StaleL2(run[n])
    {
      CarriedRow(cfg, run, events, r, k);
      FillStays(cfg, run, events, k, n);
    }
  }
}
