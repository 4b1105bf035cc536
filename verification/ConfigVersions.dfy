/** Saving a device's configuration: update, else insert, else update again, then read back. Any number of savers
    interleave statement by statement with reports, deletions of the snapshot and deletions of the device. */
module ConfigVersions {
  import opened Options

  datatype Status = Pending | Acked

  datatype Row = Row(payload: string, version: nat, status: Status, reportedVersion: nat, reportedPayload: string)

  datatype Report = Report(version: nat, payload: string)

  // Unhit: an insert met a conflict, but the update after it found no row.
  datatype Error = Unhit | NotFound | Broken

  // The next statement of a saver, or how its call ended.
  datatype Place =
    | AtUpdate
    | AtInsert
    | AtRetry
    | AtRead(committed: nat)
    | Saved(committed: nat, seen: Row)
    | Failed(error: Error)

  datatype Saver = Saver(payload: string, place: Place)

  datatype Commit = Commit(saver: nat, payload: string)

  // commits and reports are histories: all writes of a payload, and the reports since the last of them.
  datatype Store = Store(
    device: bool,
    row: Option<Row>,
    savers: map<nat, Saver>,
    commits: seq<Commit>,
    reports: seq<Report>)

  datatype Event =
    | Arrive(saver: nat, payload: string)
    | Statement(saver: nat)
    | Break(saver: nat)
    | Acknowledge(report: Report)
    | DeleteConfig
    | DeleteDevice

  predicate Running(p: Place) {
    p.AtUpdate? || p.AtInsert? || p.AtRetry? || p.AtRead?
  }

  predicate Enabled(s: Store, e: Event) {
    match e
    case Arrive(w, _) => w !in s.savers
    case Statement(w) => w in s.savers && Running(s.savers[w].place)
    case Break(w) => w in s.savers && Running(s.savers[w].place)
    case _ => true
  }

  function Move(s: Store, w: nat, place: Place): Store
    requires w in s.savers
  {
    s.(savers := s.savers[w := s.savers[w].(place := place)])
  }

  function Write(s: Store, w: nat, row: Row): Store
    requires w in s.savers
  {
    Move(s, w, AtRead(row.version)).(row := Some(row), commits := s.commits + [Commit(w, row.payload)], reports := [])
  }

  function Rewritten(row: Row, payload: string): Row {
    row.(payload := payload, status := Pending, version := row.version + 1)
  }

  // The update by device: it counts its rows.
  function Update(s: Store, w: nat, missed: Place): Store
    requires w in s.savers
  {
    match s.row
    case Some(row) =>
      Write(s, w, Rewritten(row, s.savers[w].payload))
    case None => Move(s, w, missed)
  }

  // One row a device, and only for a device that exists: anything else is a constraint error.
  function Insert(s: Store, w: nat): Store
    requires w in s.savers
  {
    if s.row.Some? || !s.device then Move(s, w, AtRetry)
    else Write(s, w, Row(s.savers[w].payload, 1, Pending, 0, ""))
  }

  function ReadBack(s: Store, w: nat, committed: nat): Store
    requires w in s.savers
  {
    match s.row
    case Some(row) => Move(s, w, Saved(committed, row))
    case None => Move(s, w, Failed(NotFound))
  }

  function Next(s: Store, e: Event): Store
    requires Enabled(s, e)
  {
    match e
    case Arrive(w, payload) => s.(savers := s.savers[w := Saver(payload, AtUpdate)])
    case Statement(w) =>
      (match s.savers[w].place
       case AtUpdate => Update(s, w, AtInsert)
       case AtInsert => Insert(s, w)
       case AtRetry => Update(s, w, Failed(Unhit))
       case AtRead(committed) => ReadBack(s, w, committed)
       case _ => s)
    case Break(w) => Move(s, w, Failed(Broken))
    case Acknowledge(r) =>
      if s.row.Some? then
        s.(row := Some(s.row.value.(status := Acked, reportedVersion := r.version, reportedPayload := r.payload)),
           reports := s.reports + [r])
      else s
    case DeleteConfig => s.(row := None, reports := [])
    case DeleteDevice => s.(device := false, row := None, reports := [])
  }

  predicate Removes(e: Event) {
    e.DeleteConfig? || e.DeleteDevice?
  }

  // ---------- runs ----------

  predicate IsRun(run: seq<Store>, events: seq<Event>) {
    && |run| == |events| + 1
    && forall n :: 0 <= n < |events| ==> Enabled(run[n], events[n]) && run[n + 1] == Next(run[n], events[n])
  }

  // Acknowledged means reported since the last save; the last report is the one kept.
  predicate AckOk(s: Store) {
    && (s.row.Some? ==> s.device)
    && (s.row.None? ==> s.reports == [])
    && (s.row.Some? ==> (s.row.value.status == Acked <==> s.reports != []))
    && (s.reports != [] ==>
          Report(s.row.value.reportedVersion, s.row.value.reportedPayload) == s.reports[|s.reports| - 1])
  }

  predicate Initial(s: Store) {
    s.savers == map[] && s.commits == [] && AckOk(s)
  }

  predicate NothingRemoved(events: seq<Event>) {
    forall n :: 0 <= n < |events| ==> !Removes(events[n])
  }

  function VersionOf(row: Option<Row>): nat {
    if row.Some? then row.value.version else 0
  }

  // ---------- versions, when nothing is removed ----------

  // The saver has written its payload.
  predicate HasCommitted(commits: seq<Commit>, w: nat) {
    exists i :: 0 <= i < |commits| && commits[i].saver == w
  }

  ghost predicate SaverOk(s: Store, base: nat, w: nat)
    requires w in s.savers
  {
    match s.savers[w].place
    case AtUpdate => !HasCommitted(s.commits, w)
    case AtInsert => !HasCommitted(s.commits, w)
    case AtRetry => !HasCommitted(s.commits, w) && s.row.Some?
    case AtRead(v) => CommittedAs(s, base, w, v)
    case Saved(v, seen) =>
      && CommittedAs(s, base, w, v)
      && v <= seen.version <= VersionOf(s.row)
      && base < seen.version
      && seen.payload == s.commits[seen.version - base - 1].payload
    case Failed(error) => error == Broken
  }

  ghost predicate CommittedAs(s: Store, base: nat, w: nat, v: nat) {
    base < v <= VersionOf(s.row) == base + |s.commits|
    && w in s.savers && s.commits[v - base - 1] == Commit(w, s.savers[w].payload)
  }

  ghost predicate Counted(s: Store, base: nat) {
    && s.device
    && VersionOf(s.row) == base + |s.commits|
    && (|s.commits| > 0 ==> s.row.Some? && s.row.value.payload == s.commits[|s.commits| - 1].payload)
    && (forall i :: 0 <= i < |s.commits| ==> s.commits[i].saver in s.savers)
    && (forall i, j :: 0 <= i < j < |s.commits| ==> s.commits[i].saver != s.commits[j].saver)
    && (forall w :: w in s.savers ==> SaverOk(s, base, w))
  }

  // A saver that does not move stays sound when commits are only added.
  lemma SaverStays(s: Store, s': Store, base: nat, v: nat)
    requires v in s.savers && SaverOk(s, base, v) && v in s'.savers && s'.savers[v] == s.savers[v]
    requires s.commits <= s'.commits && (HasCommitted(s'.commits, v) ==> HasCommitted(s.commits, v))
    requires VersionOf(s'.row) == base + |s'.commits| && VersionOf(s.row) == base + |s.commits|
    requires s.row.Some? ==> s'.row.Some?
    ensures SaverOk(s', base, v)
  {
    hide HasCommitted;
  }

  lemma WriteCounts(s: Store, base: nat, w: nat, row: Row)
    requires Counted(s, base) && w in s.savers && !HasCommitted(s.commits, w)
    requires row.version == VersionOf(s.row) + 1 && row.payload == s.savers[w].payload
    ensures Counted(Write(s, w, row), base)
  {
    hide SaverOk;
    var s' := Write(s, w, row);
    forall v | v in s'.savers ensures SaverOk(s', base, v) {
      if v == w {
        WriterOk(s, base, w, row);
      } else {
        assert HasCommitted(s'.commits, v) ==> HasCommitted(s.commits, v);
        SaverStays(s, s', base, v);
      }
    }
  }

  lemma WriterOk(s: Store, base: nat, w: nat, row: Row)
    requires w in s.savers && VersionOf(s.row) == base + |s.commits|
    requires row.version == VersionOf(s.row) + 1 && row.payload == s.savers[w].payload
    ensures SaverOk(Write(s, w, row), base, w)
  {
  }

  lemma MoveCounts(s: Store, base: nat, w: nat, place: Place)
    requires Counted(s, base) && w in s.savers && SaverOk(Move(s, w, place), base, w)
    ensures Counted(Move(s, w, place), base)
  {
    hide SaverOk, HasCommitted;
    var s' := Move(s, w, place);
    forall v | v in s'.savers ensures SaverOk(s', base, v) {
      if v != w {
        SaverStays(s, s', base, v);
      }
    }
  }

  lemma {:induction false} StatementCounts(s: Store, base: nat, w: nat)
    requires Counted(s, base) && Enabled(s, Statement(w))
    ensures Counted(Next(s, Statement(w)), base)
  {
    hide HasCommitted;
    assert SaverOk(s, base, w);
    var saver := s.savers[w];
    match saver.place {
      case AtUpdate =>
        if s.row.Some? {
          WriteCounts(s, base, w, Rewritten(s.row.value, saver.payload));
        } else {
          MoveCounts(s, base, w, AtInsert);
        }
      case AtInsert =>
        if s.row.Some? {
          MoveCounts(s, base, w, AtRetry);
        } else {
          WriteCounts(s, base, w, Row(saver.payload, 1, Pending, 0, ""));
        }
      case AtRetry => WriteCounts(s, base, w, Rewritten(s.row.value, saver.payload));
      case AtRead(v) => MoveCounts(s, base, w, Saved(v, s.row.value));
    }
  }

  lemma ArriveCounts(s: Store, base: nat, e: Event)
    requires Counted(s, base) && Enabled(s, e) && e.Arrive?
    ensures Counted(Next(s, e), base)
  {
    hide SaverOk;
    var s' := Next(s, e);
    forall v | v in s'.savers ensures SaverOk(s', base, v) {
      if v in s.savers {
        SaverStays(s, s', base, v);
      } else {
        NewSaverOk(s', base, v);
      }
    }
  }

  lemma NewSaverOk(s: Store, base: nat, w: nat)
    requires w in s.savers && s.savers[w].place == AtUpdate && !HasCommitted(s.commits, w)
    ensures SaverOk(s, base, w)
  {
  }

  lemma AcknowledgeCounts(s: Store, base: nat, e: Event)
    requires Counted(s, base) && e.Acknowledge?
    ensures Counted(Next(s, e), base)
  {
    hide SaverOk, HasCommitted;
    var s' := Next(s, e);
    forall v | v in s'.savers ensures SaverOk(s', base, v) {
      SaverStays(s, s', base, v);
    }
  }

  lemma {:induction false} StepCounts(s: Store, e: Event, base: nat)
    requires Counted(s, base) && Enabled(s, e) && !Removes(e)
    ensures Counted(Next(s, e), base)
  {
    var s' := Next(s, e);
    match e {
      case Statement(w) => StatementCounts(s, base, w);
      case Break(w) => MoveCounts(s, base, w, Failed(Broken));
      case Arrive(_, _) => ArriveCounts(s, base, e);
      case Acknowledge(_) => AcknowledgeCounts(s, base, e);
    }
  }

  lemma {:induction false} CountsAlong(run: seq<Store>, events: seq<Event>, n: nat)
    requires IsRun(run, events) && Initial(run[0]) && run[0].device && NothingRemoved(events) && n <= |events|
    ensures Counted(run[n], VersionOf(run[0].row))
    decreases n
  {
    if n > 0 {
      CountsAlong(run, events, n - 1);
      StepCounts(run[n - 1], events[n - 1], VersionOf(run[0].row));
    }
  }

  // The version a saver committed, if it got that far.
  function Committed(p: Place): Option<nat> {
    match p
    case AtRead(v) => Some(v)
    case Saved(v, _) => Some(v)
    case _ => None
  }

  function Completed(s: Store): set<nat> {
    set w | w in s.savers && Committed(s.savers[w].place).Some?
  }

  /** Under any interleaving without a removal: the version has grown by the number of commits and the payload is the
      last one's, every saver has committed a version of its own with its own payload and reads back no smaller
      one, and the only failures are those of the database. */
  lemma ConcurrentSaves(run: seq<Store>, events: seq<Event>)
    requires IsRun(run, events) && Initial(run[0]) && run[0].device && NothingRemoved(events)
    ensures var s, base := run[|events|], VersionOf(run[0].row);
            && VersionOf(s.row) == base + |s.commits|
            && (s.commits != [] ==> s.row.Some? && s.row.value.payload == s.commits[|s.commits| - 1].payload)
            && (forall w :: w in Completed(s) ==>
                  var v := Committed(s.savers[w].place).value;
                  base < v <= base + |s.commits| && s.commits[v - base - 1] == Commit(w, s.savers[w].payload))
            && (forall w, w' :: w in Completed(s) && w' in Completed(s) && w != w' ==>
                  Committed(s.savers[w].place) != Committed(s.savers[w'].place))
            && (forall w :: w in s.savers && s.savers[w].place.Saved? ==>
                  s.savers[w].place.committed <= s.savers[w].place.seen.version)
            && (forall w :: w in s.savers && s.savers[w].place.Failed? ==> s.savers[w].place.error == Broken)
  {
    hide SaverOk, Committed, HasCommitted;
    CountsAlong(run, events, |events|);
    var s, base := run[|events|], VersionOf(run[0].row);
    forall w | w in s.savers ensures SaverDone(s, base, w) {
      SaverFacts(s, base, w);
    }
    forall w, w' | w in Completed(s) && w' in Completed(s) && w != w'
      ensures Committed(s.savers[w].place) != Committed(s.savers[w'].place)
    {
      assert SaverDone(s, base, w) && SaverDone(s, base, w');
    }
  }

  // What a finished saver has to show.
  ghost predicate SaverDone(s: Store, base: nat, w: nat)
    requires w in s.savers
  {
    var place := s.savers[w].place;
    && (Committed(place).Some? ==>
          && base < Committed(place).value <= base + |s.commits|
          && s.commits[Committed(place).value - base - 1] == Commit(w, s.savers[w].payload))
    && (place.Saved? ==> place.committed <= place.seen.version)
    && (place.Failed? ==> place.error == Broken)
  }

  lemma SaverFacts(s: Store, base: nat, w: nat)
    requires w in s.savers && SaverOk(s, base, w) && VersionOf(s.row) == base + |s.commits|
    ensures SaverDone(s, base, w)
  {
    hide HasCommitted;
  }

  lemma {:induction false} NeverBroken(run: seq<Store>, events: seq<Event>, n: nat, w: nat)
    requires IsRun(run, events) && Initial(run[0]) && n <= |events| && w in run[n].savers
    requires forall k :: 0 <= k < |events| ==> !events[k].Break?
    ensures run[n].savers[w].place != Failed(Broken)
    decreases n
  {
    if n > 0 && w in run[n - 1].savers {
      NeverBroken(run, events, n - 1, w);
    }
  }

  lemma {:induction false} SaversOf(commits: seq<Commit>)
    requires forall i, j :: 0 <= i < j < |commits| ==> commits[i].saver != commits[j].saver
    ensures |set i | 0 <= i < |commits| :: commits[i].saver| == |commits|
  {
    if commits == [] {
    } else {
      var n := |commits| - 1;
      var front := commits[..n];
      SaversOf(front);
      assert (set i | 0 <= i < |commits| :: commits[i].saver)
          == (set i | 0 <= i < |front| :: front[i].saver) + {commits[n].saver};
      assert forall i :: 0 <= i < |front| ==> front[i].saver != commits[n].saver;
    }
  }

  /** If moreover no statement fails, n completed saves have raised the version by exactly n. */
  lemma CompletedSavesAreCounted(run: seq<Store>, events: seq<Event>)
    requires IsRun(run, events) && Initial(run[0]) && run[0].device && NothingRemoved(events)
    requires forall k :: 0 <= k < |events| ==> !events[k].Break?
    ensures VersionOf(run[|events|].row) == VersionOf(run[0].row) + |Completed(run[|events|])|
  {
    hide SaverOk, Committed;
    CountsAlong(run, events, |events|);
    var s, base := run[|events|], VersionOf(run[0].row);
    SaversOf(s.commits);
    var savers := set i | 0 <= i < |s.commits| :: s.commits[i].saver;
    forall w ensures w in Completed(s) <==> w in savers {
      assert w in savers <==> HasCommitted(s.commits, w);
      if w in s.savers {
        NeverBroken(run, events, |events|, w);
        CompletedIff(s, base, w);
      }
    }
    assert Completed(s) == savers;
  }

  lemma CompletedIff(s: Store, base: nat, w: nat)
    requires w in s.savers && SaverOk(s, base, w) && s.savers[w].place != Failed(Broken)
    ensures Committed(s.savers[w].place).Some? <==> HasCommitted(s.commits, w)
  {
  }

  // What the row says the device has reported last.
  function LastReport(row: Option<Row>): Report {
    if row.Some? then Report(row.value.reportedVersion, row.value.reportedPayload) else Report(0, "")
  }

  /** Only a report changes what was reported last, to what it says, and it changes neither version nor payload; a save that
      creates the row has no report. */
  lemma ReportedStays(s: Store, e: Event)
    requires Enabled(s, e) && Next(s, e).row.Some?
    ensures LastReport(Next(s, e).row) == if e.Acknowledge? then e.report else LastReport(s.row)
    ensures e.Acknowledge? ==> s.row.Some? && VersionOf(Next(s, e).row) == VersionOf(s.row)
                               && Next(s, e).row.value.payload == s.row.value.payload
  {
  }

  // ---------- the envelope sent to the device ----------

  // The read-back version, with the saver's own configuration.
  function Envelope(s: Saver): Report
    requires s.place.Saved?
  {
    Report(s.place.seen.version, s.payload)
  }

  /** The envelope pairs a version with what was saved under it exactly when the payload read back is the saver's own,
      and always when the version read back is the one it committed. */
  lemma EnvelopeFaithfulIff(run: seq<Store>, events: seq<Event>, w: nat)
    requires IsRun(run, events) && Initial(run[0]) && run[0].device && NothingRemoved(events)
    requires w in run[|events|].savers && run[|events|].savers[w].place.Saved?
    ensures var s, base := run[|events|], VersionOf(run[0].row);
            var saver := s.savers[w];
            var sent := Envelope(saver);
            && base < sent.version <= base + |s.commits|
            && (sent.payload == s.commits[sent.version - base - 1].payload <==> saver.place.seen.payload == saver.payload)
            && (sent.version == saver.place.committed ==> saver.place.seen.payload == saver.payload)
  {
    CountsAlong(run, events, |events|);
    assert SaverOk(run[|events|], VersionOf(run[0].row), w);
  }

  function RunFrom(s: Store, events: seq<Event>): Option<Store>
    decreases |events|
  {
    if events == [] then Some(s)
    else if Enabled(s, events[0]) then RunFrom(Next(s, events[0]), events[1..])
    else None
  }

  /** Another save between a commit and its read-back does mix them: version 2 is sent with the
      configuration of version 1. */
  lemma MixedEnvelope()
    ensures var start := Store(true, None, map[], [], []);
            var end := RunFrom(start, [Arrive(1, "a"), Statement(1), Statement(1), Arrive(2, "b"), Statement(2),
                                       Statement(1)]);
            && Initial(start) && end.Some? && end.value.row.Some?
            && end.value.row.value.version == 2 && end.value.row.value.payload == "b"
            && 1 in end.value.savers && end.value.savers[1].place.Saved?
            && Envelope(end.value.savers[1]) == Report(2, "a")
  {
  }

  // ---------- a conflict that is not hit ----------

  lemma {:induction false} RowStays(run: seq<Store>, events: seq<Event>, m: nat, n: nat) returns (k: nat)
    requires IsRun(run, events) && m <= n < |run| && run[m].row.Some? && run[n].row.None?
    ensures m <= k < n && Removes(events[k]) && forall j :: k < j <= n ==> run[j].row.None?
    decreases n
  {
    if run[n - 1].row.Some? {
      k := n - 1;
    } else {
      k := RowStays(run, events, m, n - 1);
    }
  }

  lemma {:induction false} AckAlong(run: seq<Store>, events: seq<Event>, n: nat)
    requires IsRun(run, events) && Initial(run[0]) && n <= |events|
    ensures AckOk(run[n])
    decreases n
  {
    if n > 0 {
      AckAlong(run, events, n - 1);
      AckStep(run[n - 1], events[n - 1]);
    }
  }

  lemma AckStep(s: Store, e: Event)
    requires AckOk(s) && Enabled(s, e)
    ensures AckOk(Next(s, e))
  {
  }

  /** When an insert failed for an existing device, the second update misses exactly when the row was removed in
      between and not written again. For a device that is gone it always misses. */
  lemma UnhitIff(run: seq<Store>, events: seq<Event>, w: nat, m: nat, n: nat)
    requires IsRun(run, events) && Initial(run[0]) && m < n < |events|
    requires events[m] == Statement(w) && run[m].savers[w].place == AtInsert && run[m + 1].savers[w].place == AtRetry
    requires events[n] == Statement(w) && run[n].savers[w].place == AtRetry
    ensures run[m].device ==>
              (run[n + 1].savers[w].place == Failed(Unhit) <==>
               exists k :: m < k < n && Removes(events[k]) && forall j :: k < j <= n ==> run[j].row.None?)
    ensures !run[m].device ==> run[n + 1].savers[w].place == Failed(Unhit)
  {
    AckAlong(run, events, n);
    assert run[n + 1].savers[w].place == Failed(Unhit) <==> run[n].row.None?;
    if run[m].device {
      assert run[m].row.Some? && run[m + 1].row.Some?;
      if run[n].row.None? {
        var k := RowStays(run, events, m + 1, n);
      }
    } else {
      DeviceStaysGone(run, events, m, n);
    }
  }

  /** Two savers of a new device: the insert of the first conflicts, the snapshot is deleted, and nothing is saved. */
  lemma ConflictIsNotHit()
    ensures var start := Store(true, None, map[], [], []);
            var raced := [Arrive(1, "a"), Statement(1), Arrive(2, "b"), Statement(2), Statement(2), Statement(1)];
            var end := RunFrom(start, raced + [DeleteConfig, Statement(1)]);
            && Initial(start) && end.Some? && end.value.row == None
            && 1 in end.value.savers && end.value.savers[1].place == Failed(Unhit)
            && 2 in end.value.savers && end.value.savers[2].place == AtRead(1)
  {
    hide RunFrom;
    var s0 := Store(true, None, map[], [], []);
    var s1 := Next(s0, Arrive(1, "a"));
    var s2 := Next(s1, Statement(1));
    var s3 := Next(s2, Arrive(2, "b"));
    var s4 := Next(s3, Statement(2));
    var s5 := Next(s4, Statement(2));
    var s6 := Next(s5, Statement(1));
    var s7 := Next(s6, DeleteConfig);
    var s8 := Next(s7, Statement(1));
    NoMore(s8);
    var es := OneMore(s7, Statement(1), [], s8);
    es := OneMore(s6, DeleteConfig, es, s8);
    es := OneMore(s5, Statement(1), es, s8);
    es := OneMore(s4, Statement(2), es, s8);
    es := OneMore(s3, Statement(2), es, s8);
    es := OneMore(s2, Arrive(2, "b"), es, s8);
    es := OneMore(s1, Statement(1), es, s8);
    es := OneMore(s0, Arrive(1, "a"), es, s8);
    assert es == [Arrive(1, "a"), Statement(1), Arrive(2, "b"), Statement(2), Statement(2), Statement(1)]
                 + [DeleteConfig, Statement(1)];
  }

  lemma NoMore(s: Store)
    ensures RunFrom(s, []) == Some(s)
  {
  }

  lemma OneMore(s: Store, e: Event, rest: seq<Event>, end: Store) returns (longer: seq<Event>)
    requires Enabled(s, e) && RunFrom(Next(s, e), rest) == Some(end)
    ensures longer == [e] + rest && RunFrom(s, longer) == Some(end)
  {
    longer := [e] + rest;
    assert longer[1..] == rest;
  }

  lemma {:induction false} DeviceStaysGone(run: seq<Store>, events: seq<Event>, m: nat, n: nat)
    requires IsRun(run, events) && m <= n < |run| && !run[m].device
    ensures !run[n].device
    decreases n
  {
    if m < n {
      DeviceStaysGone(run, events, m, n - 1);
    }
  }

  // ---------- acknowledgements ----------

  /** Acknowledged does not mean up to date: the row is acknowledged at its current version exactly when there was a
      report since the last save and the last one named that version. */
  lemma AckedAtCurrentVersionIff(run: seq<Store>, events: seq<Event>)
    requires IsRun(run, events) && Initial(run[0]) && run[|events|].row.Some?
    ensures var s := run[|events|];
            var row := s.row.value;
            row.status == Acked && row.reportedVersion == row.version
            <==> s.reports != [] && s.reports[|s.reports| - 1].version == row.version
  {
    AckAlong(run, events, |events|);
  }

  /** A late report does acknowledge a configuration the device has never seen. */
  lemma LateReportAcknowledges()
    ensures var start := Store(true, Some(Row("a", 1, Pending, 0, "")), map[], [], []);
            var end := RunFrom(start, [Arrive(1, "b"), Statement(1), Acknowledge(Report(1, "a"))]);
            && Initial(start) && end.Some? && end.value.row.Some?
            && end.value.row.value == Row("b", 2, Acked, 1, "a")
  {
  }

  // ---------- the repository ----------

  // A save that is not sent stays pending; the device can still fetch it.
  datatype SaveEnd = NotSaved | SavedNotSent | Sent(envelope: Report)

  /** The repository over one device's row. Each statement method is the step of the machine; Upsert composes
      them with nothing in between. */
  class DeviceConfigRepo {
    var device: bool
    var row: Option<Row>
    ghost var store: Store

    ghost predicate Valid() reads this {
      store.row == row && store.device == device && AckOk(store)
    }

    constructor (device: bool)
      ensures Valid() && Initial(store) && this.device == device && row == None
    {
      this.device, row := device, None;
      store := Store(device, None, map[], [], []);
    }

    method GetByDeviceID() returns (found: Option<Row>)
      ensures found == row
    {
      return row;
    }

    method UpdatePending(ghost w: nat, payload: string) returns (n: nat)
      requires Valid() && w in store.savers && store.savers[w].payload == payload
      requires store.savers[w].place.AtUpdate? || store.savers[w].place.AtRetry?
      modifies this`row, this`store
      ensures Valid() && store == Next(old(store), Statement(w))
      ensures n == if old(row).Some? then 1 else 0
    {
      AckStep(store, Statement(w));
      store := Next(store, Statement(w));
      if row.None? {
        return 0;
      }
      var was := row.value;
      row := Some(Row(payload, was.version + 1, Pending, was.reportedVersion, was.reportedPayload));
      return 1;
    }

    method Create(ghost w: nat, payload: string) returns (constraintError: bool)
      requires Valid() && w in store.savers && store.savers[w] == Saver(payload, AtInsert)
      modifies this`row, this`store
      ensures Valid() && store == Next(old(store), Statement(w))
      ensures constraintError == (old(row).Some? || !device)
    {
      AckStep(store, Statement(w));
      store := Next(store, Statement(w));
      if row.Some? || !device {
        return true;
      }
      row := Some(Row(payload, 1, Pending, 0, ""));
      return false;
    }

    method Upsert(ghost w: nat, payload: string) returns (error: Option<Error>)
      requires Valid() && w !in store.savers
      modifies this`row, this`store
      ensures Valid() && w in store.savers && store.savers[w].payload == payload
      ensures error == if old(row).None? && !device then Some(Unhit) else None
      ensures error.None? ==> store.savers[w].place == AtRead(VersionOf(old(row)) + 1)
                              && row.Some? && row.value.version == VersionOf(old(row)) + 1
                              && row.value.payload == payload && row.value.status == Pending
                              && store.commits == old(store.commits) + [Commit(w, payload)]
      ensures error.None? ==>
                (row.value.reportedVersion, row.value.reportedPayload) ==
                if old(row).Some? then (old(row).value.reportedVersion, old(row).value.reportedPayload) else (0, "")
      ensures error.Some? ==> store.savers[w].place == Failed(Unhit) && row == None && store.commits == old(store.commits)
    {
      store := Next(store, Arrive(w, payload));
      var n := UpdatePending(w, payload);
      if n > 0 {
        return None;
      }
      var conflict := Create(w, payload);
      if conflict {
        n := UpdatePending(w, payload);
        if n == 0 {
          return Some(Unhit);
        }
      }
      return None;
    }

    // Saves, reads back, and hands the envelope to the command queue; queued is whether that takes it.
    method Save(ghost w: nat, payload: string, queued: bool) returns (end: SaveEnd)
      requires Valid() && w !in store.savers
      modifies this`row, this`store
      ensures Valid() && w in store.savers
      ensures end.NotSaved? <==> old(row).None? && !device
      ensures !end.NotSaved? ==> store.savers[w].place.Saved? && row.Some? && row.value.payload == payload
                                 && row.value.status == Pending && row.value.version == VersionOf(old(row)) + 1
      ensures !end.NotSaved? ==> (end.Sent? <==> queued)
      ensures end.Sent? ==> end.envelope == Report(VersionOf(old(row)) + 1, payload)
                            && Envelope(store.savers[w]) == end.envelope
    {
      var error := Upsert(w, payload);
      if error.Some? {
        return NotSaved;
      }
      store := Next(store, Statement(w));
      var seen := GetByDeviceID();
      if seen.None? {
        return NotSaved;
      }
      if !queued {
        return SavedNotSent;
      }
      return Sent(Report(seen.value.version, payload));
    }

    method UpdateReported(version: nat, reported: string)
      requires Valid()
      modifies this`row, this`store
      ensures Valid() && store == Next(old(store), Acknowledge(Report(version, reported)))
    {
      AckStep(store, Acknowledge(Report(version, reported)));
      store := Next(store, Acknowledge(Report(version, reported)));
      if row.Some? {
        row := Some(row.value.(reportedVersion := version, reportedPayload := reported, status := Acked));
      }
    }

    method Delete()
      requires Valid()
      modifies this`row, this`store
      ensures Valid() && store == Next(old(store), DeleteConfig) && row == None
    {
      store := Next(store, DeleteConfig);
      row := None;
    }
  }
}
