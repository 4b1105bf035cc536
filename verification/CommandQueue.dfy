/** The downlink queue of one device: commands are logged, pushed to the right end of a Redis list, and taken all at
    once by a poll. Any number of enqueuers and pollers interleave, one Redis command or statement at a time. */
module CommandQueue {
  import opened Options

  const MAX_LEN := 200

  datatype Status = Pending | Sent | Delivered

  // One list element. An element that is not readable JSON has no fields to a poller; its id is that of the
  // enqueuing call all the same.
  datatype Entry = Entry(id: nat, kind: string, payload: string, readable: bool)

  // The next command of an enqueuing call.
  datatype Stage = AtPush(entry: Entry) | AtTrim | AtExpire | Done | Failed

  // pushed, taken and since are histories: all pushes, all elements polled, and how many pushes there were at the
  // last poll or clearing. owing are the calls that pushed and have not trimmed.
  datatype Queue = Queue(
    list: seq<Entry>,
    calls: map<nat, Stage>,
    pollers: map<nat, seq<Entry>>,
    log: map<nat, Status>,
    pushed: seq<Entry>,
    taken: seq<Entry>,
    since: nat,
    owing: set<nat>)

  // Clear stands for the list's expiry and for the device's clean-up.
  datatype Step =
    | Create(entry: Entry)
    | Push(id: nat, ok: bool)
    | Trim(id: nat, ok: bool)
    | Expire(id: nat, ok: bool)
    | Clear
    | Poll(poller: nat)
    | Mark(poller: nat, ok: bool)
    | Ack(id: nat)

  // LTRIM -MAX_LEN -1
  function Trimmed(q: seq<Entry>): (r: seq<Entry>)
    ensures |r| == (if |q| < 200 then |q| else 200) && r == q[|q| - |r|..]
  {
    if |q| <= MAX_LEN then q else q[|q| - MAX_LEN..]
  }

  function IdsOf(entries: seq<Entry>): set<nat> {
    set i | 0 <= i < |entries| && entries[i].readable :: entries[i].id
  }

  function Marked(log: map<nat, Status>, ids: set<nat>): map<nat, Status> {
    map id | id in log :: if id in ids then Sent else log[id]
  }

  predicate Enabled(q: Queue, s: Step) {
    match s
    case Create(e) => e.id !in q.log && e.id !in q.calls
    case Push(id, _) => id in q.calls && q.calls[id].AtPush?
    case Trim(id, _) => id in q.calls && q.calls[id].AtTrim?
    case Expire(id, _) => id in q.calls && q.calls[id].AtExpire?
    case Clear => true
    case Poll(p) => p !in q.pollers
    case Mark(p, _) => p in q.pollers
    case Ack(id) => id in q.log
  }

  function Emptied(q: Queue): Queue {
    q.(list := [], since := |q.pushed|)
  }

  function Next(q: Queue, s: Step): Queue
    requires Enabled(q, s)
  {
    match s
    case Create(e) => q.(log := q.log[e.id := Pending], calls := q.calls[e.id := AtPush(e)])
    case Push(id, ok) =>
      var e := q.calls[id].entry;
      if ok then
        q.(list := q.list + [e], pushed := q.pushed + [e], calls := q.calls[id := AtTrim], owing := q.owing + {id})
      else q.(calls := q.calls[id := Failed])
    case Trim(id, ok) =>
      if ok then q.(list := Trimmed(q.list), calls := q.calls[id := AtExpire], owing := q.owing - {id})
      else q.(calls := q.calls[id := Failed])
    case Expire(id, ok) => q.(calls := q.calls[id := if ok then Done else Failed])
    case Clear => Emptied(q)
    case Poll(p) => Emptied(q).(taken := q.taken + q.list, pollers := q.pollers[p := q.list])
    case Mark(p, ok) =>
      var left := q.(pollers := q.pollers - {p});
      if ok then left.(log := Marked(q.log, IdsOf(q.pollers[p]))) else left
    case Ack(id) => q.(log := q.log[id := Delivered])
  }

  // ---------- subsequences ----------

  predicate Subsequence<T(==)>(a: seq<T>, b: seq<T>)
    decreases |b|
  {
    if a == [] then true
    else if b == [] then false
    else if a[0] == b[0] && Subsequence(a[1..], b[1..]) then true
    else Subsequence(a, b[1..])
  }

  lemma {:induction false} SubsequenceAppend<T>(a: seq<T>, b: seq<T>, a': seq<T>, b': seq<T>)
    requires Subsequence(a, b) && Subsequence(a', b')
    ensures Subsequence(a + a', b + b')
    decreases |b|
  {
    if b == [] {
      assert a + a' == a' && b + b' == b';
    } else {
      assert (b + b')[1..] == b[1..] + b';
      if a != [] && a[0] == b[0] && Subsequence(a[1..], b[1..]) {
        assert (a + a')[1..] == a[1..] + a';
        SubsequenceAppend(a[1..], b[1..], a', b');
      } else {
        SubsequenceAppend(a, b[1..], a', b');
        Widened(a + a', b[1..] + b', b[0]);
        assert [b[0]] + (b[1..] + b') == b + b';
      }
    }
  }

  lemma Widened<T>(a: seq<T>, b: seq<T>, x: T)
    requires Subsequence(a, b)
    ensures Subsequence(a, [x] + b)
  {
    assert ([x] + b)[1..] == b;
  }

  lemma {:induction false} SuffixIsSubsequence<T>(b: seq<T>, k: nat)
    requires k <= |b|
    ensures Subsequence(b[k..], b)
    decreases |b|
  {
    if b == [] {
    } else {
      if k == 0 {
        SuffixIsSubsequence(b[1..], 0);
        assert b[0..] == b && b[1..][0..] == b[1..];
      } else {
        SuffixIsSubsequence(b[1..], k - 1);
        assert b[k..] == b[1..][k - 1..];
        Widened(b[k..], b[1..], b[0]);
        assert [b[0]] + b[1..] == b;
      }
    }
  }

  predicate Distinct(s: seq<Entry>) {
    forall i, j :: 0 <= i < j < |s| ==> s[i].id != s[j].id
  }

  lemma {:induction false} SubsequenceHas<T>(a: seq<T>, b: seq<T>, x: T)
    requires Subsequence(a, b) && x in a
    ensures x in b
    decreases |b|
  {
    if b == [] {
    } else {
      if a[0] == b[0] && Subsequence(a[1..], b[1..]) {
        if x != a[0] {
          assert x in a[1..];
          SubsequenceHas(a[1..], b[1..], x);
        }
      } else {
        SubsequenceHas(a, b[1..], x);
      }
    }
  }

  lemma {:induction false} SubsequenceDistinct(a: seq<Entry>, b: seq<Entry>)
    requires Subsequence(a, b) && Distinct(b)
    ensures Distinct(a)
    decreases |b|
  {
    if a == [] {
    } else {
      if a[0] == b[0] && Subsequence(a[1..], b[1..]) {
        SubsequenceDistinct(a[1..], b[1..]);
        forall j | 0 < j < |a| ensures a[0].id != a[j].id {
          SubsequenceHas(a[1..], b[1..], a[1..][j - 1]);
          var k :| 0 <= k < |b[1..]| && b[1..][k] == a[j];
          assert b[k + 1] == a[j];
        }
        forall i, j | 0 <= i < j < |a| ensures a[i].id != a[j].id {
          if i > 0 {
            assert a[1..][i - 1] == a[i] && a[1..][j - 1] == a[j];
          }
        }
      } else {
        SubsequenceDistinct(a, b[1..]);
      }
    }
  }

  // ---------- what every run keeps ----------

  // The list is the last pushes, and none from before the last poll or clearing.
  predicate IsSuffix(q: Queue) {
    && q.since <= |q.pushed|
    && |q.list| <= |q.pushed| - q.since
    && q.list == q.pushed[|q.pushed| - |q.list|..]
  }

  predicate CallOk(q: Queue, id: nat)
    requires id in q.calls
  {
    && id in q.log
    && (q.calls[id].AtPush? ==> q.calls[id].entry.id == id && id !in q.owing && forall e :: e in q.pushed ==> e.id != id)
  }

  ghost predicate Inv(q: Queue) {
    && IsSuffix(q)
    && |q.list| <= MAX_LEN + |q.owing|
    && Subsequence(q.taken, q.pushed[..q.since])
    && Distinct(q.pushed)
    && (forall id :: id in q.calls ==> CallOk(q, id))
    && (forall e :: e in q.pushed ==> e.id in q.log)
    && q.owing <= q.calls.Keys
  }

  lemma CallStays(q: Queue, s: Step, id: nat)
    requires Enabled(q, s) && id in q.calls && CallOk(q, id) && (s.Push? ==> CallOk(q, s.id))
    ensures id in Next(q, s).calls && CallOk(Next(q, s), id)
  {
    var q' := Next(q, s);
    if q'.calls[id].AtPush? {
      assert q'.calls[id] == q.calls[id];
      forall e | e in q'.pushed ensures e.id != id {
        if e !in q.pushed {
          assert e == q.calls[s.id].entry && s.id != id;
        }
      }
    }
  }

  lemma CallsStay(q: Queue, s: Step)
    requires Inv(q) && Enabled(q, s)
    ensures forall id :: id in Next(q, s).calls ==> CallOk(Next(q, s), id)
  {
    hide Subsequence, Distinct, IsSuffix, CallOk;
    forall id | id in Next(q, s).calls ensures CallOk(Next(q, s), id) {
      if id in q.calls {
        CallStays(q, s, id);
      } else {
        CreatedOk(q, s);
      }
    }
  }

  lemma CreatedOk(q: Queue, s: Step)
    requires Enabled(q, s) && s.Create? && (forall e :: e in q.pushed ==> e.id in q.log) && q.owing <= q.calls.Keys
    ensures CallOk(Next(q, s), s.entry.id)
  {
  }

  lemma ListStays(q: Queue, s: Step)
    requires Enabled(q, s) && IsSuffix(q) && |q.list| <= MAX_LEN + |q.owing|
    requires s.Push? ==> s.id !in q.owing
    ensures IsSuffix(Next(q, s)) && |Next(q, s).list| <= MAX_LEN + |Next(q, s).owing|
  {
    hide IsSuffix, Trimmed;
    match s {
      case Push(id, ok) => PushIsSuffix(q, id, ok);
      case Trim(id, ok) => TrimIsSuffix(q, id, ok);
      case _ => OthersAreSuffix(q, s);
    }
  }

  lemma OthersAreSuffix(q: Queue, s: Step)
    requires Enabled(q, s) && !s.Push? && !s.Trim? && IsSuffix(q)
    ensures IsSuffix(Next(q, s))
  {
  }

  lemma TrimIsSuffix(q: Queue, id: nat, ok: bool)
    requires Enabled(q, Trim(id, ok)) && IsSuffix(q)
    ensures IsSuffix(Next(q, Trim(id, ok)))
  {
    hide Trimmed;
    var n, short := |q.pushed|, Trimmed(q.list);
    SuffixOfSuffix(q.pushed, n - |q.list|, |q.list| - |short|);
  }

  lemma SuffixOfSuffix<T>(s: seq<T>, i: nat, j: nat)
    requires i + j <= |s|
    ensures s[i..][j..] == s[i + j..]
  {
  }

  lemma PushIsSuffix(q: Queue, id: nat, ok: bool)
    requires Enabled(q, Push(id, ok)) && IsSuffix(q)
    ensures IsSuffix(Next(q, Push(id, ok)))
  {
    var q' := Next(q, Push(id, ok));
    if ok {
      assert q'.list == q'.pushed[|q'.pushed| - |q'.list|..];
    }
  }

  lemma PushedStay(q: Queue, s: Step)
    requires Enabled(q, s) && Distinct(q.pushed) && (forall e :: e in q.pushed ==> e.id in q.log)
    requires q.owing <= q.calls.Keys && (s.Push? ==> CallOk(q, s.id))
    ensures var q' := Next(q, s);
            Distinct(q'.pushed) && (forall e :: e in q'.pushed ==> e.id in q'.log) && q'.owing <= q'.calls.Keys
  {
    hide IsSuffix;
    var q' := Next(q, s);
    if s.Push? && s.ok {
      var e := q.calls[s.id].entry;
      forall i, j | 0 <= i < j < |q'.pushed| ensures q'.pushed[i].id != q'.pushed[j].id {
        assert q'.pushed[i] in q.pushed;
      }
    }
  }

  lemma TakenStays(q: Queue, s: Step)
    requires Inv(q) && Enabled(q, s)
    ensures var q' := Next(q, s); q'.since <= |q'.pushed| && Subsequence(q'.taken, q'.pushed[..q'.since])
  {
    hide Subsequence, Distinct, CallOk, Trimmed;
    var q' := Next(q, s);
    if s.Poll? {
      EmptiedTakes(q, q.list);
    } else if s.Clear? {
      EmptiedTakes(q, []);
      assert q.taken + [] == q.taken;
    } else {
      assert q'.pushed[..q'.since] == q.pushed[..q.since];
    }
  }

  lemma EmptiedTakes(q: Queue, some: seq<Entry>)
    requires IsSuffix(q) && Subsequence(q.taken, q.pushed[..q.since]) && (some == q.list || some == [])
    ensures Subsequence(q.taken + some, q.pushed[..|q.pushed|])
  {
    hide Subsequence;
    var early, later := q.pushed[..q.since], q.pushed[q.since..];
    assert q.pushed[..|q.pushed|] == early + later;
    assert some == later[|later| - |some|..];
    SuffixIsSubsequence(later, |later| - |some|);
    SubsequenceAppend(q.taken, early, some, later);
  }

  lemma StepKeeps(q: Queue, s: Step)
    requires Inv(q) && Enabled(q, s)
    ensures Inv(Next(q, s))
  {
    hide Next, Subsequence, Distinct, IsSuffix;
    if s.Push? {
      assert CallOk(q, s.id);
    }
    CallsStay(q, s);
    ListStays(q, s);
    PushedStay(q, s);
    TakenStays(q, s);
  }

  predicate Runs(q: Queue, steps: seq<Step>)
    decreases |steps|
  {
    steps == [] || (Enabled(q, steps[0]) && Runs(Next(q, steps[0]), steps[1..]))
  }

  function After(q: Queue, steps: seq<Step>): Queue
    requires Runs(q, steps)
    decreases |steps|
  {
    if steps == [] then q else After(Next(q, steps[0]), steps[1..])
  }

  function Empty(log: map<nat, Status>): Queue {
    Queue([], map[], map[], log, [], [], 0, {})
  }

  lemma {:induction false} RunKeeps(q: Queue, steps: seq<Step>)
    requires Inv(q) && Runs(q, steps)
    ensures Inv(After(q, steps))
    decreases |steps|
  {
    hide Inv, Next;
    if steps == [] {
    } else {
      StepKeeps(q, steps[0]);
      RunKeeps(Next(q, steps[0]), steps[1..]);
    }
  }

  /** Over every run: the list is exactly the last pushes, none from before the last poll or clearing; it exceeds 200
      only by calls between their push and trim; poll results in their order are a subsequence of the pushes;
      and no command is polled twice or polled and still queued. */
  lemma EveryRun(log: map<nat, Status>, steps: seq<Step>)
    requires Runs(Empty(log), steps)
    ensures var q := After(Empty(log), steps);
            && IsSuffix(q)
            && |q.list| <= 200 + |q.owing|
            && Subsequence(q.taken, q.pushed)
            && Distinct(q.taken + q.list)
  {
    RunKeeps(Empty(log), steps);
    TakenThenQueued(After(Empty(log), steps));
  }

  lemma TakenThenQueued(q: Queue)
    requires IsSuffix(q) && Subsequence(q.taken, q.pushed[..q.since]) && Distinct(q.pushed)
    ensures Subsequence(q.taken, q.pushed) && Distinct(q.taken + q.list)
  {
    hide Subsequence, Distinct;
    var early, later := q.pushed[..q.since], q.pushed[q.since..];
    assert q.pushed == early + later;
    assert q.list == later[|later| - |q.list|..];
    SuffixIsSubsequence(later, |later| - |q.list|);
    SubsequenceAppend(q.taken, early, q.list, later);
    SubsequenceDistinct(q.taken + q.list, q.pushed);
    SuffixIsSubsequence(later, |later|);
    SubsequenceAppend(q.taken, early, later[|later|..], later);
    assert q.taken + later[|later|..] == q.taken;
  }

  // ---------- the status of a command ----------

  function Rank(s: Status): nat {
    match s case Pending => 0 case Sent => 1 case Delivered => 2
  }

  // A command known before and after the step is now less far than it was.
  predicate Regresses(q: Queue, s: Step, id: nat)
    requires Enabled(q, s)
  {
    id in q.log && id in Next(q, s).log && Rank(Next(q, s).log[id]) < Rank(q.log[id])
  }

  /** A status goes backwards exactly when a poll is marked as sent with a command in it that has been delivered. */
  lemma RegressesIff(q: Queue, s: Step, id: nat)
    requires Inv(q) && Enabled(q, s)
    ensures Regresses(q, s, id) <==>
            s.Mark? && s.ok && id in IdsOf(q.pollers[s.poller]) && id in q.log && q.log[id] == Delivered
  {
    hide Subsequence, Distinct, IsSuffix;
  }

  function RunFrom(q: Queue, steps: seq<Step>): Option<Queue>
    decreases |steps|
  {
    if steps == [] then Some(q)
    else if Enabled(q, steps[0]) then RunFrom(Next(q, steps[0]), steps[1..])
    else None
  }

  /** It does happen: the device confirms a command it was pushed directly, and a poll marks it as sent. */
  lemma DeliveredBecomesSent()
    ensures var e := Entry(1, "reboot", "{}", true);
            var acked := RunFrom(Empty(map[]), [Create(e)] + ([Push(1, true)] + ([Poll(7)] + ([Ack(1)] + []))));
            && acked.Some? && acked.value.log == map[1 := Delivered]
            && Enabled(acked.value, Mark(7, true))
            && Next(acked.value, Mark(7, true)).log == map[1 := Sent]
  {
    var e := Entry(1, "reboot", "{}", true);
    assert [] + [e] == [e];
    assert IdsOf([e]) == {1} by {
      assert [e][0] == e;
    }
    var q1 := Next(Empty(map[]), Create(e));
    var q2 := Next(q1, Push(1, true));
    var q3 := Next(q2, Poll(7));
    var q4 := Next(q3, Ack(1));
    assert q3.pollers == map[7 := [e]] && q4.log == map[1 := Delivered];
    OneMore(q3, Ack(1), [], q4);
    OneMore(q2, Poll(7), [Ack(1)] + [], q4);
    OneMore(q1, Push(1, true), [Poll(7)] + ([Ack(1)] + []), q4);
    OneMore(Empty(map[]), Create(e), [Push(1, true)] + ([Poll(7)] + ([Ack(1)] + [])), q4);
  }

  lemma OneMore(q: Queue, s: Step, rest: seq<Step>, end: Queue)
    requires Enabled(q, s) && RunFrom(Next(q, s), rest) == Some(end)
    ensures RunFrom(q, [s] + rest) == Some(end)
  {
    assert ([s] + rest)[1..] == rest;
  }

  // ---------- the service, one call at a time ----------

  // How an enqueuing call ended: its command logged but not queued, queued but the list not trimmed, and so on.
  datatype Enqueued =
    | Queued(id: nat)
    | NotLogged
    | NotPushed(id: nat)
    | NotTrimmed(id: nat)
    | NotExpiring(id: nat)
    | NotPayload(id: nat)

  datatype Polled = Commands(commands: seq<Entry>) | NotTaken | NotMarked

  function Readable(entries: seq<Entry>): seq<Entry> {
    if entries == [] then []
    else Readable(entries[..|entries| - 1])
         + if entries[|entries| - 1].readable then [entries[|entries| - 1]] else []
  }

  lemma ReadableSnoc(front: seq<Entry>, last: Entry)
    ensures Readable(front + [last]) == Readable(front) + if last.readable then [last] else []
  {
    assert (front + [last])[..|front|] == front;
  }

  /** A poll keeps exactly the readable elements, in the order of the list. */
  lemma {:induction false} ReadableOrder(entries: seq<Entry>) returns (at: seq<nat>)
    ensures Selects(at, entries, Readable(entries), (_, e: Entry) => e.readable)
  {
    if entries == [] {
      at := [];
      SelectsNothing<Entry>((_, e: Entry) => e.readable);
    } else {
      hide Readable, Selects;
      var front, last := entries[..|entries| - 1], entries[|entries| - 1];
      assert entries == front + [last];
      at := ReadableOrder(front);
      at := SelectsMore(at, front, Readable(front), (_, e: Entry) => e.readable, last);
      ReadableSnoc(front, last);
    }
  }

  /** Each readable element is kept as often as it is there, and a list of readable elements is kept whole. */
  lemma {:induction false} ReadableCounts(entries: seq<Entry>)
    ensures forall e: Entry :: multiset(Readable(entries))[e] == if e.readable then multiset(entries)[e] else 0
    ensures (forall e :: e in entries ==> e.readable) ==> Readable(entries) == entries
  {
    if entries != [] {
      hide Readable;
      var front, last := entries[..|entries| - 1], entries[|entries| - 1];
      assert entries == front + [last];
      ReadableCounts(front);
      ReadableSnoc(front, last);
      assert multiset(entries) == multiset(front) + multiset{last};
      assert multiset([last]) == multiset{last};
    }
  }

  lemma {:induction false} ReadableIds(entries: seq<Entry>)
    ensures IdsOf(Readable(entries)) == IdsOf(entries)
    ensures forall e :: e in Readable(entries) <==> e in entries && e.readable
  {
    if entries == [] {
    } else {
      var front, last := entries[..|entries| - 1], entries[|entries| - 1];
      assert entries == front + [last];
      ReadableIds(front);
      IdsAppend(front, last);
      IdsAppend(Readable(front), last);
      assert Readable(front) + [] == Readable(front);
    }
  }

  lemma IdsAppend(entries: seq<Entry>, e: Entry)
    ensures IdsOf(entries + [e]) == IdsOf(entries) + if e.readable then {e.id} else {}
  {
    var more := entries + [e];
    forall id | id in IdsOf(entries) + (if e.readable then {e.id} else {}) ensures id in IdsOf(more) {
      if id in IdsOf(entries) {
        var i :| 0 <= i < |entries| && entries[i].readable && entries[i].id == id;
        assert more[i] == entries[i];
      } else {
        assert more[|entries|] == e;
      }
    }
  }

  // The list holds a readable command of this id.
  ghost predicate Offers(entries: seq<Entry>, id: nat) {
    exists e :: e in entries && e.readable && e.id == id
  }

  lemma NothingRead()
    ensures IdsOf([]) == {} && Readable([]) == []
  {
  }

  lemma IdsAre(entries: seq<Entry>)
    ensures forall id :: id in IdsOf(entries) <==> Offers(entries, id)
  {
  }

  /** An enqueuing call that nothing comes between ends with its command at the right end of the list, which keeps its last
      200, and pending in the log, as EnqueueCmd. */
  lemma EnqueueAlone(q: Queue, e: Entry)
    requires Enabled(q, Create(e))
    ensures var created := Next(q, Create(e));
            && Enabled(created, Push(e.id, true))
            && var pushed := Next(created, Push(e.id, true));
               && Enabled(pushed, Trim(e.id, true))
               && var trimmed := Next(pushed, Trim(e.id, true));
                  && trimmed.list == Trimmed(q.list + [e]) && trimmed.log == q.log[e.id := Pending]
                  && trimmed.pushed == q.pushed + [e] && trimmed.taken == q.taken && trimmed.since == q.since
  {
  }

  /** A poll that nothing comes between takes the whole list and marks exactly the readable commands in it, as PollCmd. */
  lemma PollThenMark(q: Queue, p: nat)
    requires Enabled(q, Poll(p))
    ensures var polled := Next(q, Poll(p));
            && polled.list == [] && polled.taken == q.taken + q.list && Enabled(polled, Mark(p, true))
            && var marked := Next(polled, Mark(p, true));
               && marked.list == [] && marked.log.Keys == q.log.Keys
               && forall id :: id in q.log ==> marked.log[id] == if Offers(q.list, id) then Sent else q.log[id]
  {
    IdsAre(q.list);
  }

  class DownlinkService {
    var list: seq<Entry>
    var log: map<nat, Status>
    var nextId: nat

    ghost predicate Valid() reads this {
      forall id :: id in log ==> id < nextId
    }

    constructor ()
      ensures Valid() && list == [] && log == map[]
    {
      list, log, nextId := [], map[], 1;
    }

    // logged, taken, trimmed and expires are the answers of the database and of Redis; readable says whether the payload is
    // JSON. A command that has been queued is pushed to the device's WebSocket and, unless it is a configuration,
    // published over MQTT.
    method EnqueueCmd(kind: string, payload: string, readable: bool, logged: bool, taken: bool, trimmed: bool,
                      expires: bool)
        returns (r: Enqueued, pushed: Option<Entry>, published: Option<Entry>)
      requires Valid()
      modifies this
      ensures Valid() && log.Keys >= old(log).Keys
      ensures r == var id := old(nextId);
                   if !logged then NotLogged
                   else if !taken then NotPushed(id)
                   else if !trimmed then NotTrimmed(id)
                   else if !expires then NotExpiring(id)
                   else if !readable then NotPayload(id)
                   else Queued(id)
      ensures log == if logged then old(log)[old(nextId) := Pending] else old(log)
      ensures var e := Entry(old(nextId), kind, payload, readable);
              && list == (if !logged || !taken then old(list)
                          else if trimmed then Trimmed(old(list) + [e])
                          else old(list) + [e])
              && pushed == (if r.Queued? then Some(e) else None)
              && published == (if r.Queued? && kind != "config" then Some(e) else None)
    {
      pushed, published := None, None;
      if !logged {
        r := NotLogged;
        return;
      }
      var id := nextId;
      nextId, log := nextId + 1, log[id := Pending];
      if !taken {
        r := NotPushed(id);
        return;
      }
      var e := Entry(id, kind, payload, readable);
      list := list + [e];
      if !trimmed {
        r := NotTrimmed(id);
        return;
      }
      list := Trimmed(list);
      if !expires {
        r := NotExpiring(id);
        return;
      }
      if !readable {
        r := NotPayload(id);
        return;
      }
      pushed := Some(e);
      if kind != "config" {
        published := Some(e);
      }
      r := Queued(id);
    }

    /** Takes every element at once, if Redis is reached; marks is whether the database marks them. Commands that were
        taken and could not be marked are returned to nobody. */
    method PollCmd(reached: bool, marks: bool) returns (r: Polled)
      requires Valid()
      modifies this`list, this`log
      ensures Valid() && log.Keys == old(log).Keys
      ensures r.NotTaken? <==> !reached
      ensures r.NotMarked? <==> reached && !marks && exists id :: Offers(old(list), id)
      ensures r.NotTaken? ==> list == old(list) && log == old(log)
      ensures r.NotMarked? ==> list == [] && log == old(log)
      ensures r.Commands? ==>
                && list == [] && r.commands == Readable(old(list))
                && forall id :: id in log ==>
                     log[id] == if Offers(old(list), id) then Sent else old(log)[id]
    {
      hide IdsOf, Readable, Offers;
      if !reached {
        return NotTaken;
      }
      NothingRead();
      var values := list;
      list := [];
      var commands, ids := [], {};
      for i := 0 to |values|
        invariant list == [] && log == old(log)
        invariant commands == Readable(values[..i])
        invariant ids == IdsOf(values[..i])
      {
        assert values[..i + 1] == values[..i] + [values[i]];
        IdsAppend(values[..i], values[i]);
        ReadableSnoc(values[..i], values[i]);
        EmptySum(commands);
        if values[i].readable {
          commands := commands + [values[i]];
          ids := ids + {values[i].id};
        }
      }
      assert values[..|values|] == values;
      IdsAre(values);
      if ids != {} {
        if !marks {
          return NotMarked;
        }
        log := map id | id in log :: if id in ids then Sent else log[id];
      }
      return Commands(commands);
    }

    method AckCmd(id: nat) returns (found: bool)
      requires Valid()
      modifies this`log
      ensures Valid() && found == (id in old(log))
      ensures log == if found then old(log)[id := Delivered] else old(log)
    {
      found := id in log;
      if found {
        log := log[id := Delivered];
      }
    }
  }
}
