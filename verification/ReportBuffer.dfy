/** The report buffer: device reports wait in a Redis list, the newest at the left end. Workers take batches off
    the right end and hand them to a writer; a batch that could not be written goes back to the left end. */
module ReportBuffer {
  import opened Options

  const BATCH := 200
  const MAX_LEN := 20000

  datatype Report = Report(device: string, sensors: string, timestamp: int)

  // What a list element holds: a report, or text that is not one.
  datatype Entry = Good(report: Report) | Undecodable(text: string)

  // ---------- the list ----------

  function Reverse<T>(s: seq<T>): (r: seq<T>)
    ensures |r| == |s|
  {
    seq(|s|, i requires 0 <= i < |s| => s[|s| - 1 - i])
  }

  // LTRIM 0 MAX_LEN-1
  function Trimmed<T>(q: seq<T>): (r: seq<T>)
    ensures |r| == (if |q| < 20000 then |q| else 20000) && r <= q
  {
    if |q| <= MAX_LEN then q else q[..MAX_LEN]
  }

  function Cut<T>(q: seq<T>): seq<T> {
    if |q| <= MAX_LEN then [] else q[MAX_LEN..]
  }

  // RPOP with a count returns the right end, outermost first, and leaves the rest.
  function Popped<T>(q: seq<T>, count: nat): seq<T> {
    if |q| <= count then Reverse(q) else Reverse(q[|q| - count..])
  }

  function Rest<T>(q: seq<T>, count: nat): seq<T> {
    if |q| <= count then [] else q[..|q| - count]
  }

  function Decoded(s: seq<Entry>): (d: seq<Entry>)
    ensures |d| <= |s| && forall e :: e in d ==> e.Good?
  {
    if s == [] then [] else (if s[0].Good? then [s[0]] else []) + Decoded(s[1..])
  }

  function Rejected(s: seq<Entry>): seq<Entry> {
    if s == [] then [] else (if s[0].Good? then [] else [s[0]]) + Rejected(s[1..])
  }

  lemma {:induction false} ReverseMultiset<T>(s: seq<T>)
    ensures multiset(Reverse(s)) == multiset(s)
  {
    if s == [] {
    } else {
      var front, last := s[..|s| - 1], s[|s| - 1];
      assert s == front + [last];
      assert Reverse(s) == [last] + Reverse(front);
      ReverseMultiset(front);
    }
  }

  lemma ReverseAppend<T>(a: seq<T>, b: seq<T>)
    ensures Reverse(a + b) == Reverse(b) + Reverse(a)
  {
  }

  lemma PoppedRejoins<T>(q: seq<T>, count: nat)
    ensures q == Rest(q, count) + Reverse(Popped(q, count))
    ensures |Popped(q, count)| <= count && (|Popped(q, count)| == count || Rest(q, count) == [])
    ensures q == [] ==> Popped(q, count) == []
  {
  }

  lemma {:induction false} PoppedAndRest<T>(q: seq<T>, count: nat)
    ensures multiset(q) == multiset(Popped(q, count)) + multiset(Rest(q, count))
    ensures Reverse(q) == Popped(q, count) + Reverse(Rest(q, count))
  {
    hide Reverse;
    if |q| <= count {
      ReverseMultiset(q);
      ReverseAppend([], q);
      assert [] + q == q;
    } else {
      var rest, taken := q[..|q| - count], q[|q| - count..];
      assert q == rest + taken;
      ReverseMultiset(taken);
      ReverseAppend(rest, taken);
    }
  }

  lemma {:induction false} DecodedAndRejected(s: seq<Entry>)
    ensures multiset(s) == multiset(Decoded(s)) + multiset(Rejected(s))
  {
    if s == [] {
    } else {
      assert s == [s[0]] + s[1..];
      DecodedAndRejected(s[1..]);
    }
  }

  lemma {:induction false} DecodedAppend(a: seq<Entry>, b: seq<Entry>)
    ensures Decoded(a + b) == Decoded(a) + Decoded(b)
  {
    if a == [] {
      assert a + b == b;
    } else {
      assert (a + b)[0] == a[0] && (a + b)[1..] == a[1..] + b;
      DecodedAppend(a[1..], b);
    }
  }

  lemma {:induction false} DecodedAll(s: seq<Entry>)
    ensures Decoded(s) == s <==> forall e :: e in s ==> e.Good?
  {
    if s == [] {
    } else {
      DecodedAll(s[1..]);
      if forall e :: e in s ==> e.Good? {
        assert s == [s[0]] + s[1..];
      }
    }
  }

  lemma {:induction false} DecodedReverse(s: seq<Entry>)
    ensures Decoded(Reverse(s)) == Reverse(Decoded(s))
  {
    if s == [] {
    } else {
      var head, tail := [s[0]], s[1..];
      assert Reverse(s) == Reverse(tail) + head;
      DecodedAppend(Reverse(tail), head);
      DecodedReverse(tail);
      assert Decoded(head) == (if s[0].Good? then head else []) + Decoded(head[1..]);
      assert Reverse(Decoded(s)) == Reverse(Decoded(tail)) + if s[0].Good? then head else [];
    }
  }

  lemma TrimmedAndCut<T>(q: seq<T>)
    ensures multiset(q) == multiset(Trimmed(q)) + multiset(Cut(q))
  {
    if |q| > MAX_LEN {
      assert q == q[..MAX_LEN] + q[MAX_LEN..];
    }
  }

  // ---------- producers and any number of workers ----------

  // Where a worker's drain is: about to pop, popping one by one where Redis does not know the batch command, about to
  // write a batch, or pushing one back (its last element first).
  datatype Phase =
    | Resting
    | Popping
    | Gathering(taken: seq<Entry>)
    | Holding(batch: seq<Entry>)
    | Requeueing(left: seq<Entry>, back: nat)

  // trims counts pushes whose LTRIM is still to come. The multisets are histories.
  datatype Buffer = Buffer(
    queue: seq<Entry>,
    trims: nat,
    workers: seq<Phase>,
    pushed: multiset<Entry>,
    flushed: multiset<Entry>,
    cut: multiset<Entry>,
    rejected: multiset<Entry>,
    lost: multiset<Entry>,
    dropped: multiset<Entry>)

  // The ok of a step says whether Redis, or the writer, did its part.
  datatype Step =
    | Push(entry: Entry)
    | Trim
    | Start(worker: nat)
    | Pop(worker: nat, ok: bool)
    | Fallback(worker: nat)
    | PopOne(worker: nat, ok: bool)
    | Flush(worker: nat, ok: bool)
    | Requeue(worker: nat, ok: bool)

  predicate Enabled(b: Buffer, s: Step) {
    match s
    case Push(_) => true
    case Trim => b.trims > 0
    case Start(w) => w < |b.workers| && b.workers[w].Resting?
    case Pop(w, _) => w < |b.workers| && b.workers[w].Popping?
    case Fallback(w) => w < |b.workers| && b.workers[w].Popping?
    case PopOne(w, _) => w < |b.workers| && b.workers[w].Gathering?
    case Flush(w, _) => w < |b.workers| && b.workers[w].Holding?
    case Requeue(w, _) => w < |b.workers| && b.workers[w].Requeueing?
  }

  function Move(b: Buffer, w: nat, p: Phase): Buffer
    requires w < |b.workers|
  {
    b.(workers := b.workers[w := p])
  }

  function Trimming(b: Buffer): Buffer {
    b.(queue := Trimmed(b.queue), cut := b.cut + multiset(Cut(b.queue)))
  }

  // What a worker goes on with when it has taken these off the list.
  function Taking(b: Buffer, w: nat, results: seq<Entry>): Buffer
    requires w < |b.workers|
  {
    Move(b, w, if results == [] then Resting else if Decoded(results) == [] then Popping else Holding(Decoded(results)))
    .(rejected := b.rejected + multiset(Rejected(results)))
  }

  function PopBatch(b: Buffer, w: nat): Buffer
    requires w < |b.workers|
  {
    Taking(b.(queue := Rest(b.queue, BATCH)), w, Popped(b.queue, BATCH))
  }

  // One RPOP of the fallback: the last one it makes finds the list empty or completes the batch. If one fails, what has
  // been taken before is dropped.
  function PopAnother(b: Buffer, w: nat, ok: bool): Buffer
    requires w < |b.workers| && b.workers[w].Gathering?
  {
    var taken := b.workers[w].taken;
    if !ok then Move(b, w, Resting).(dropped := b.dropped + multiset(taken))
    else if b.queue == [] then Taking(b, w, taken)
    else
      var more := taken + [b.queue[|b.queue| - 1]];
      var popped := b.(queue := b.queue[..|b.queue| - 1]);
      if |more| >= BATCH then Taking(popped, w, more) else Move(popped, w, Gathering(more))
  }

  // One LPUSH of the batch going back; if it fails its report is lost.
  function PushOneBack(b: Buffer, w: nat, ok: bool): Buffer
    requires w < |b.workers| && b.workers[w].Requeueing? && b.workers[w].left != []
  {
    var left, back := b.workers[w].left, b.workers[w].back;
    var e, others := left[|left| - 1], left[..|left| - 1];
    if ok then Move(b, w, Requeueing(others, back + 1)).(queue := [e] + b.queue)
    else Move(b, w, Requeueing(others, back)).(lost := b.lost + multiset{e})
  }

  // The LTRIM after it; if it fails, the list may stay that much longer.
  function EndRequeue(b: Buffer, w: nat, ok: bool): Buffer
    requires w < |b.workers| && b.workers[w].Requeueing?
  {
    if ok then Move(Trimming(b), w, Resting) else Move(b, w, Resting).(trims := b.trims + b.workers[w].back)
  }

  function PushBack(b: Buffer, w: nat, ok: bool): Buffer
    requires w < |b.workers| && b.workers[w].Requeueing?
  {
    if b.workers[w].left == [] then EndRequeue(b, w, ok) else PushOneBack(b, w, ok)
  }

  function Next(b: Buffer, s: Step): Buffer
    requires Enabled(b, s)
  {
    match s
    case Push(e) => b.(queue := [e] + b.queue, trims := b.trims + 1, pushed := b.pushed + multiset{e})
    case Trim => Trimming(b).(trims := b.trims - 1)
    case Start(w) => Move(b, w, Popping)
    case Pop(w, ok) => if ok then PopBatch(b, w) else Move(b, w, Resting)
    case Fallback(w) => Move(b, w, Gathering([]))
    case PopOne(w, ok) => PopAnother(b, w, ok)
    case Flush(w, ok) =>
      var batch := b.workers[w].batch;
      if ok then Move(b, w, Popping).(flushed := b.flushed + multiset(batch)) else Move(b, w, Requeueing(batch, 0))
    case Requeue(w, ok) => PushBack(b, w, ok)
  }

  function Held(p: Phase): multiset<Entry> {
    match p
    case Gathering(taken) => multiset(taken)
    case Holding(batch) => multiset(batch)
    case Requeueing(left, _) => multiset(left)
    case _ => multiset{}
  }

  function Back(p: Phase): nat {
    if p.Requeueing? then p.back else 0
  }

  // How often an entry is held, over all workers.
  function HeldByAll(workers: seq<Phase>, e: Entry): nat {
    if workers == [] then 0 else Held(workers[0])[e] + HeldByAll(workers[1..], e)
  }

  function BackFromAll(workers: seq<Phase>): nat {
    if workers == [] then 0 else Back(workers[0]) + BackFromAll(workers[1..])
  }

  lemma {:induction false} HeldWithout(workers: seq<Phase>, w: nat, p: Phase, e: Entry)
    requires w < |workers|
    ensures HeldByAll(workers[w := p], e) + Held(workers[w])[e] == HeldByAll(workers, e) + Held(p)[e]
  {
    hide Held;
    if w == 0 {
      assert workers[w := p][1..] == workers[1..];
    } else {
      assert workers[w := p][1..] == workers[1..][w - 1 := p];
      HeldWithout(workers[1..], w - 1, p, e);
    }
  }

  lemma {:induction false} BackWithout(workers: seq<Phase>, w: nat, p: Phase)
    requires w < |workers|
    ensures BackFromAll(workers[w := p]) + Back(workers[w]) == BackFromAll(workers) + Back(p)
  {
    hide Back;
    if w == 0 {
      assert workers[w := p][1..] == workers[1..];
    } else {
      assert workers[w := p][1..] == workers[1..][w - 1 := p];
      BackWithout(workers[1..], w - 1, p);
    }
  }

  /** Every entry pushed is in exactly one place: queued, held by a drain, written, cut off by a trim, rejected as
      undecodable, lost by a push back that failed, or dropped with the others of a fallback that failed. */
  predicate Conserved(b: Buffer, e: Entry) {
    b.pushed[e] == multiset(b.queue)[e] + HeldByAll(b.workers, e) + b.flushed[e] + b.cut[e] + b.rejected[e] + b.lost[e]
                   + b.dropped[e]
  }

  // The list outgrows its limit only by pushes whose trim is still to come.
  predicate Bounded(b: Buffer) {
    |b.queue| <= MAX_LEN + b.trims + BackFromAll(b.workers)
  }

  // What a worker has taken off the list, and held before.
  lemma {:induction false} TakingConserves(b: Buffer, w: nat, results: seq<Entry>, e: Entry)
    requires w < |b.workers|
    requires b.pushed[e] + Held(b.workers[w])[e] == multiset(b.queue)[e] + HeldByAll(b.workers, e) + b.flushed[e] + b.cut[e]
                         + b.rejected[e] + b.lost[e] + b.dropped[e] + multiset(results)[e]
    ensures Conserved(Taking(b, w, results), e)
  {
    hide HeldByAll, Decoded, Rejected;
    HeldWithout(b.workers, w, Taking(b, w, results).workers[w], e);
    DecodedAndRejected(results);
    NothingTaken();
  }

  lemma NothingTaken()
    ensures Decoded([]) == [] && Rejected([]) == []
  {
  }

  lemma {:induction false} PopConserves(b: Buffer, w: nat, e: Entry)
    requires w < |b.workers| && b.workers[w].Popping? && Conserved(b, e)
    ensures Conserved(PopBatch(b, w), e)
  {
    hide Popped, Rest, Taking, HeldByAll;
    PoppedAndRest(b.queue, BATCH);
    TakingConserves(b.(queue := Rest(b.queue, BATCH)), w, Popped(b.queue, BATCH), e);
  }

  lemma PopAnotherConserves(b: Buffer, w: nat, ok: bool, e: Entry)
    requires w < |b.workers| && b.workers[w].Gathering? && Conserved(b, e)
    ensures Conserved(PopAnother(b, w, ok), e)
  {
    hide Taking, HeldByAll, Conserved, Held;
    var taken := b.workers[w].taken;
    if !ok {
      DroppedConserves(b, w, e);
    } else if b.queue == [] {
      GatheredConserves(b, w, e);
    } else {
      GatherMoreConserves(b, w, e);
      var x := b.queue[|b.queue| - 1];
      var more := b.(queue := b.queue[..|b.queue| - 1], workers := b.workers[w := Gathering(taken + [x])]);
      GatheredConserves(more, w, e);
      SameTaking(b.(queue := b.queue[..|b.queue| - 1]), w, Gathering(taken + [x]), taken + [x]);
    }
  }

  lemma DroppedConserves(b: Buffer, w: nat, e: Entry)
    requires w < |b.workers| && b.workers[w].Gathering? && Conserved(b, e)
    ensures Conserved(Move(b, w, Resting).(dropped := b.dropped + multiset(b.workers[w].taken)), e)
  {
    hide HeldByAll;
    HeldWithout(b.workers, w, Resting, e);
  }

  lemma {:induction false} GatheredConserves(b: Buffer, w: nat, e: Entry)
    requires w < |b.workers| && b.workers[w].Gathering? && Conserved(b, e)
    ensures Conserved(Taking(b, w, b.workers[w].taken), e)
  {
    hide Taking, HeldByAll;
    TakingConserves(b, w, b.workers[w].taken, e);
  }

  lemma GatherMoreConserves(b: Buffer, w: nat, e: Entry)
    requires w < |b.workers| && b.workers[w].Gathering? && b.queue != [] && Conserved(b, e)
    ensures var more := b.workers[w].taken + [b.queue[|b.queue| - 1]];
            Conserved(b.(queue := b.queue[..|b.queue| - 1], workers := b.workers[w := Gathering(more)]), e)
  {
    hide HeldByAll, Held;
    var taken, x := b.workers[w].taken, b.queue[|b.queue| - 1];
    HeldGathering(taken);
    HeldGathering(taken + [x]);
    LastCounts(b.queue, e);
    OneMoreCounts(taken, x, e);
    HeldWithout(b.workers, w, Gathering(taken + [x]), e);
  }

  lemma HeldGathering(taken: seq<Entry>)
    ensures Held(Gathering(taken)) == multiset(taken)
  {
  }

  // What a worker takes does not depend on its phase.
  lemma SameTaking(b: Buffer, w: nat, p: Phase, results: seq<Entry>)
    requires w < |b.workers|
    ensures Taking(Move(b, w, p), w, results) == Taking(b, w, results)
  {
    hide Decoded, Rejected;
    var q := Taking(b, w, results).workers[w];
    assert b.workers[w := p][w := q] == b.workers[w := q];
  }

  lemma OneMoreCounts(taken: seq<Entry>, x: Entry, e: Entry)
    ensures multiset(taken + [x])[e] == multiset(taken)[e] + multiset{x}[e]
  {
    assert multiset(taken + [x]) == multiset(taken) + multiset{x};
  }

  lemma LPushCounts(q: seq<Entry>, x: Entry, e: Entry)
    ensures multiset([x] + q)[e] == multiset(q)[e] + multiset{x}[e]
  {
    assert multiset([x] + q) == multiset{x} + multiset(q);
  }

  lemma LastCounts(left: seq<Entry>, e: Entry)
    requires left != []
    ensures multiset(left)[e] == multiset(left[..|left| - 1])[e] + multiset{left[|left| - 1]}[e]
  {
    assert left == left[..|left| - 1] + [left[|left| - 1]];
  }

  lemma PushOneBackConserves(b: Buffer, w: nat, ok: bool, e: Entry)
    requires w < |b.workers| && b.workers[w].Requeueing? && b.workers[w].left != [] && Conserved(b, e)
    ensures Conserved(PushOneBack(b, w, ok), e)
  {
    hide HeldByAll, Held;
    var left := b.workers[w].left;
    var b' := PushOneBack(b, w, ok);
    HeldWithout(b.workers, w, b'.workers[w], e);
    assert Held(b.workers[w])[e] == Held(b'.workers[w])[e] + multiset{left[|left| - 1]}[e] by {
      HeldIs(left, b.workers[w].back);
      HeldIs(left[..|left| - 1], b'.workers[w].back);
      LastCounts(left, e);
    }
    LPushCounts(b.queue, left[|left| - 1], e);
  }

  lemma HeldIs(left: seq<Entry>, back: nat)
    ensures Held(Requeueing(left, back)) == multiset(left)
  {
  }

  lemma EndRequeueConserves(b: Buffer, w: nat, ok: bool, e: Entry)
    requires w < |b.workers| && b.workers[w].Requeueing? && b.workers[w].left == [] && Conserved(b, e)
    ensures Conserved(EndRequeue(b, w, ok), e)
  {
    hide Trimmed, Cut, HeldByAll;
    HeldWithout(b.workers, w, Resting, e);
    TrimmedAndCut(b.queue);
  }

  lemma MoveConserves(b: Buffer, w: nat, p: Phase, e: Entry)
    requires w < |b.workers| && Held(p)[e] == Held(b.workers[w])[e] && Conserved(b, e)
    ensures Conserved(Move(b, w, p), e)
  {
    hide HeldByAll, Held;
    HeldWithout(b.workers, w, p, e);
  }

  lemma FlushConserves(b: Buffer, w: nat, ok: bool, e: Entry)
    requires Enabled(b, Flush(w, ok)) && Conserved(b, e)
    ensures Conserved(Next(b, Flush(w, ok)), e)
  {
    hide HeldByAll;
    HeldWithout(b.workers, w, if ok then Popping else Requeueing(b.workers[w].batch, 0), e);
  }

  lemma TrimConserves(b: Buffer, e: Entry)
    requires Conserved(b, e)
    ensures Conserved(Trimming(b), e)
  {
    hide HeldByAll, Trimmed, Cut;
    TrimmedAndCut(b.queue);
  }

  lemma {:induction false} StepConserves(b: Buffer, s: Step, e: Entry)
    requires Enabled(b, s) && Conserved(b, e)
    ensures Conserved(Next(b, s), e)
  {
    hide HeldByAll, PopBatch, PopAnother, PushOneBack, EndRequeue, Trimming;
    match s {
      case Push(x) => LPushCounts(b.queue, x, e);
      case Trim => TrimConserves(b, e);
      case Start(w) => MoveConserves(b, w, Popping, e);
      case Pop(w, ok) =>
        if ok {
          PopConserves(b, w, e);
        } else {
          MoveConserves(b, w, Resting, e);
        }
      case Fallback(w) => MoveConserves(b, w, Gathering([]), e);
      case PopOne(w, ok) => PopAnotherConserves(b, w, ok, e);
      case Flush(w, ok) => FlushConserves(b, w, ok, e);
      case Requeue(w, ok) =>
        if b.workers[w].left == [] {
          EndRequeueConserves(b, w, ok, e);
        } else {
          PushOneBackConserves(b, w, ok, e);
        }
    }
  }

  lemma TakingBounds(b: Buffer, w: nat, results: seq<Entry>)
    requires w < |b.workers|
    ensures var b' := Taking(b, w, results);
            && b'.queue == b.queue && b'.trims == b.trims && |b'.workers| == |b.workers|
            && b'.workers == b.workers[w := b'.workers[w]] && Back(b'.workers[w]) == 0
  {
    hide Decoded, Rejected;
  }

  // A worker that pops gives nothing back.
  lemma PopBounds(b: Buffer, s: Step)
    requires Enabled(b, s) && Bounded(b) && (s.Pop? || s.PopOne?)
    ensures Bounded(Next(b, s))
  {
    hide BackFromAll, Taking, Popped;
    if s.Pop? {
      TakingBounds(b.(queue := Rest(b.queue, BATCH)), s.worker, Popped(b.queue, BATCH));
    } else {
      var taken := b.workers[s.worker].taken;
      TakingBounds(b, s.worker, taken);
      if b.queue != [] {
        TakingBounds(b.(queue := b.queue[..|b.queue| - 1]), s.worker, taken + [b.queue[|b.queue| - 1]]);
      }
    }
    BackWithout(b.workers, s.worker, Next(b, s).workers[s.worker]);
  }

  lemma StepBounds(b: Buffer, s: Step)
    requires Enabled(b, s) && Bounded(b)
    ensures Bounded(Next(b, s))
  {
    hide BackFromAll, PopBatch, PopAnother;
    if s.Pop? || s.PopOne? {
      PopBounds(b, s);
    } else if !s.Push? && !s.Trim? {
      BackWithout(b.workers, s.worker, Next(b, s).workers[s.worker]);
    }
  }

  // What a worker is about to write or to push back.
  function Batched(p: Phase): seq<Entry> {
    match p
    case Holding(batch) => batch
    case Requeueing(left, _) => left
    case _ => []
  }

  // A report is never rejected, and what is not a report is never written, about to be, or lost.
  predicate Sorted(b: Buffer, e: Entry) {
    if e.Good? then b.rejected[e] == 0
    else
      && b.flushed[e] == 0 && b.lost[e] == 0
      && forall w :: 0 <= w < |b.workers| ==> e !in Batched(b.workers[w])
  }

  lemma {:induction false} RejectedAreBad(s: seq<Entry>)
    ensures forall e :: e in Rejected(s) ==> !e.Good?
  {
    if s == [] {
    } else {
      RejectedAreBad(s[1..]);
    }
  }

  lemma TakingSorts(b: Buffer, w: nat, results: seq<Entry>, e: Entry)
    requires w < |b.workers| && Sorted(b, e)
    ensures Sorted(Taking(b, w, results), e)
  {
    hide Decoded, Rejected;
    RejectedAreBad(results);
  }

  lemma {:induction false} StepSorts(b: Buffer, s: Step, e: Entry)
    requires Enabled(b, s) && Sorted(b, e)
    ensures Sorted(Next(b, s), e)
  {
    hide Popped, Rest, Trimmed, Cut, Taking, PopAnother, PushBack;
    match s {
      case Pop(w, ok) => TakingSorts(b.(queue := Rest(b.queue, BATCH)), w, Popped(b.queue, BATCH), e);
      case PopOne(w, ok) => PopAnotherSorts(b, w, ok, e);
      case Requeue(_, _) => RequeueSorts(b, s, e);
      case Flush(_, _) => RequeueSorts(b, s, e);
      case _ =>
    }
  }

  lemma RequeueSorts(b: Buffer, s: Step, e: Entry)
    requires Enabled(b, s) && Sorted(b, e) && (s.Requeue? || s.Flush?)
    ensures Sorted(Next(b, s), e)
  {
    hide Trimmed, Cut, PopBatch, PopAnother, Batched;
    var w, b' := s.worker, Next(b, s);
    BatchedIs(b.workers[w]);
    BatchedIs(b'.workers[w]);
    forall v | !e.Good? && 0 <= v < |b'.workers| ensures e !in Batched(b'.workers[v]) {
      assert e !in Batched(b.workers[v]) && e !in Batched(b.workers[w]);
    }
  }

  lemma BatchedIs(p: Phase)
    ensures Batched(p) == if p.Holding? then p.batch else if p.Requeueing? then p.left else []
  {
  }

  lemma PopAnotherSorts(b: Buffer, w: nat, ok: bool, e: Entry)
    requires w < |b.workers| && b.workers[w].Gathering? && Sorted(b, e)
    ensures Sorted(PopAnother(b, w, ok), e)
  {
    hide Taking;
    var taken := b.workers[w].taken;
    TakingSorts(b, w, taken, e);
    if b.queue != [] {
      TakingSorts(b.(queue := b.queue[..|b.queue| - 1]), w, taken + [b.queue[|b.queue| - 1]], e);
    }
  }

  // ---------- runs ----------

  predicate Runs(b: Buffer, steps: seq<Step>)
    decreases |steps|
  {
    steps == [] || (Enabled(b, steps[0]) && Runs(Next(b, steps[0]), steps[1..]))
  }

  function After(b: Buffer, steps: seq<Step>): Buffer
    requires Runs(b, steps)
    decreases |steps|
  {
    if steps == [] then b else After(Next(b, steps[0]), steps[1..])
  }

  function Empty(workers: nat): Buffer {
    Buffer([], 0, seq(workers, _ => Resting), multiset{}, multiset{}, multiset{}, multiset{}, multiset{}, multiset{})
  }

  lemma {:induction false} NothingHeld(workers: nat, e: Entry)
    ensures HeldByAll(Empty(workers).workers, e) == 0 && BackFromAll(Empty(workers).workers) == 0
  {
    if workers > 0 {
      assert Empty(workers).workers[1..] == Empty(workers - 1).workers;
      NothingHeld(workers - 1, e);
    }
  }

  lemma {:induction false} RunKeeps(b: Buffer, steps: seq<Step>, e: Entry)
    requires Runs(b, steps) && Conserved(b, e) && Sorted(b, e) && Bounded(b)
    ensures Conserved(After(b, steps), e) && Sorted(After(b, steps), e) && Bounded(After(b, steps))
    decreases |steps|
  {
    hide Conserved, Sorted, Bounded, Next;
    if steps == [] {
    } else {
      StepConserves(b, steps[0], e);
      StepSorts(b, steps[0], e);
      StepBounds(b, steps[0]);
      RunKeeps(Next(b, steps[0]), steps[1..], e);
    }
  }

  /** Over every run of any number of producers and workers: nothing pushed is duplicated or forgotten, reports are not
      rejected and rejects are not written, and the list is at most 20000 long apart from pushes not yet trimmed. */
  lemma EveryRun(workers: nat, steps: seq<Step>, e: Entry)
    requires Runs(Empty(workers), steps)
    ensures var b := After(Empty(workers), steps);
            && Conserved(b, e)
            && Sorted(b, e)
            && |b.queue| <= MAX_LEN + b.trims + BackFromAll(b.workers)
  {
    NothingHeld(workers, e);
    RunKeeps(Empty(workers), steps, e);
  }

  // ---------- a drain ends ----------

  // How many more steps a drain can take when nobody else acts.
  function Rank(b: Buffer, w: nat): nat
    requires w < |b.workers|
  {
    match b.workers[w]
    case Resting => 0
    case Popping => 205 + 4 * |b.queue|
    case Gathering(taken) => 204 + 4 * |b.queue| + 3 * |taken|
    case Holding(_) => 206 + 4 * |b.queue|
    case Requeueing(left, _) => |left| + 1
  }

  // Batches are never larger than one pop.
  predicate Fits(b: Buffer, w: nat) {
    && w < |b.workers|
    && (b.workers[w].Holding? ==> |b.workers[w].batch| <= BATCH)
    && (b.workers[w].Gathering? ==> |b.workers[w].taken| < BATCH)
  }

  predicate StepOf(s: Step, w: nat) {
    !s.Push? && !s.Trim? && !s.Start? && s.worker == w
  }

  lemma {:induction false} RankFalls(b: Buffer, s: Step, w: nat)
    requires Enabled(b, s) && StepOf(s, w) && Fits(b, w)
    ensures Fits(Next(b, s), w) && Rank(Next(b, s), w) < Rank(b, w)
  {
    hide Decoded, Rejected, Trimmed, Cut, Popped;
    if s.Pop? && s.ok {
      PopFits(b, w);
    } else if s.PopOne? {
      PopAnotherFits(b, w, s.ok);
    }
  }

  lemma TakingFits(b: Buffer, w: nat, results: seq<Entry>)
    requires w < |b.workers| && |results| <= BATCH
    ensures Fits(Taking(b, w, results), w)
    ensures Rank(Taking(b, w, results), w) <= if results == [] then 0 else 206 + 4 * |b.queue|
  {
    hide Decoded, Rejected;
  }

  lemma PopAnotherFits(b: Buffer, w: nat, ok: bool)
    requires w < |b.workers| && b.workers[w].Gathering? && Fits(b, w)
    ensures Fits(PopAnother(b, w, ok), w) && Rank(PopAnother(b, w, ok), w) < Rank(b, w)
  {
    hide Taking;
    var taken := b.workers[w].taken;
    TakingFits(b, w, taken);
    if b.queue != [] {
      TakingFits(b.(queue := b.queue[..|b.queue| - 1]), w, taken + [b.queue[|b.queue| - 1]]);
    }
  }

  lemma PopFits(b: Buffer, w: nat)
    requires w < |b.workers| && b.workers[w].Popping?
    ensures Fits(PopBatch(b, w), w) && Rank(PopBatch(b, w), w) < Rank(b, w)
  {
    hide Taking, Popped, Rest;
    PoppedRejoins(b.queue, BATCH);
    TakingFits(b.(queue := Rest(b.queue, BATCH)), w, Popped(b.queue, BATCH));
  }

  lemma {:induction false} StepsWithinRank(b: Buffer, w: nat, steps: seq<Step>)
    requires Runs(b, steps) && Fits(b, w) && forall i :: 0 <= i < |steps| ==> StepOf(steps[i], w)
    ensures |steps| <= Rank(b, w)
    decreases |steps|
  {
    hide Rank, Next;
    if steps == [] {
    } else {
      RankFalls(b, steps[0], w);
      StepsWithinRank(Next(b, steps[0]), w, steps[1..]);
    }
  }

  /** Without producers or other workers a drain ends within 205 + 4 * length steps, whatever Redis and the
      writer answer. */
  lemma DrainEnds(b: Buffer, w: nat, steps: seq<Step>)
    requires Runs(b, steps) && w < |b.workers| && b.workers[w].Popping?
    requires forall i :: 0 <= i < |steps| ==> StepOf(steps[i], w)
    ensures |steps| <= 205 + 4 * |b.queue|
  {
    StepsWithinRank(b, w, steps);
  }

  // ---------- failed drains ----------

  // The list after a drain whose first batch cannot be written.
  function FailedDrain(q: seq<Entry>): seq<Entry>
    decreases |q|
  {
    var batch := Decoded(Popped(q, BATCH));
    if q == [] then []
    else if batch == [] then FailedDrain(Rest(q, BATCH))
    else Trimmed(batch + Rest(q, BATCH))
  }

  function RequeueSteps(w: nat, pushes: nat): seq<Step> {
    if pushes == 0 then [Requeue(w, true)] else [Requeue(w, true)] + RequeueSteps(w, pushes - 1)
  }

  lemma {:induction false} RequeueRun(b: Buffer, w: nat)
    requires w < |b.workers| && b.workers[w].Requeueing?
    ensures var steps := RequeueSteps(w, |b.workers[w].left|);
            Runs(b, steps) && After(b, steps).queue == Trimmed(b.workers[w].left + b.queue)
    decreases |b.workers[w].left|
  {
    hide Trimmed, Cut;
    var left := b.workers[w].left;
    var steps := RequeueSteps(w, |left|);
    var b' := Next(b, Requeue(w, true));
    if left == [] {
      assert steps[1..] == [];
      assert left + b.queue == b.queue;
    } else {
      var others := left[..|left| - 1];
      assert steps[1..] == RequeueSteps(w, |others|);
      RequeueRun(b', w);
      assert others + ([left[|left| - 1]] + b.queue) == left + b.queue;
    }
  }

  /** FailedDrain is what the machine does when one worker's first batch is refused and nobody else acts. */
  lemma FailedDrainIsARun(b: Buffer, w: nat)
    requires w < |b.workers| && b.workers[w].Popping? && Decoded(Popped(b.queue, BATCH)) != []
    ensures var refused := [Pop(w, true), Flush(w, false)] + RequeueSteps(w, |Decoded(Popped(b.queue, BATCH))|);
            Runs(b, refused) && After(b, refused).queue == FailedDrain(b.queue)
  {
    hide Trimmed, Popped, Rest, RequeueSteps;
    var batch := Decoded(Popped(b.queue, BATCH));
    var refused := [Pop(w, true), Flush(w, false)] + RequeueSteps(w, |batch|);
    var held := Next(b, Pop(w, true));
    var back := Next(held, Flush(w, false));
    NothingPopped(b.queue);
    RequeueRun(back, w);
    assert refused[1..][1..] == RequeueSteps(w, |batch|);
    assert Runs(held, refused[1..]) && After(held, refused[1..]) == After(back, RequeueSteps(w, |batch|));
    FailedDrainStep(b.queue);
  }

  lemma NothingPopped(q: seq<Entry>)
    ensures Decoded(Popped(q, BATCH)) != [] ==> q != [] && Popped(q, BATCH) != []
  {
  }

  /** A batch that failed is served after everything then queued, and in reverse, if no trim cuts the list. */
  lemma {:induction false} FailedBatchIsServedLast(q: seq<Entry>)
    requires Decoded(Popped(q, BATCH)) != [] && |q| <= MAX_LEN
    ensures Reverse(FailedDrain(q)) == Reverse(Rest(q, BATCH)) + Reverse(Decoded(Popped(q, BATCH)))
  {
    ReverseAppend(Decoded(Popped(q, BATCH)), Rest(q, BATCH));
  }

  lemma TrimmedShort<T>(q: seq<T>)
    requires |q| <= MAX_LEN
    ensures Trimmed(q) == q
  {
  }

  lemma {:induction false} FailedDrainOfOneBatch(q: seq<Entry>)
    requires |q| <= BATCH
    ensures FailedDrain(q) == Reverse(Decoded(q))
  {
    hide Decoded, Reverse, Trimmed;
    DecodedReverse(q);
    var batch := Decoded(Reverse(q));
    if q != [] {
      assert Popped(q, BATCH) == Reverse(q) && Rest(q, BATCH) == [];
      assert FailedDrain([]) == [];
      assert batch + [] == batch;
      TrimmedShort(batch);
    }
  }

  /** Two failed drains of at most one batch put the list back exactly when every entry is a report; entries that are
      not are gone, the others are back in order. */
  lemma {:induction false} TwoFailedDrainsRestoreIff(q: seq<Entry>)
    requires |q| <= BATCH
    ensures FailedDrain(FailedDrain(q)) == Decoded(q)
    ensures FailedDrain(FailedDrain(q)) == q <==> forall e :: e in q ==> e.Good?
  {
    hide Decoded, FailedDrain;
    FailedDrainOfOneBatch(q);
    FailedDrainOfOneBatch(Reverse(Decoded(q)));
    DecodedReverse(Decoded(q));
    DecodedAll(Decoded(q));
    DecodedAll(q);
    assert Reverse(Reverse(Decoded(q))) == Decoded(q);
  }

  // ---------- the buffer object, one drain at a time ----------

  function Answers(n: nat, answers: nat -> bool): (oks: seq<bool>)
    ensures |oks| == n && forall i :: 0 <= i < n ==> oks[i] == answers(i)
  {
    seq(n, i requires 0 <= i < n => answers(i))
  }

  // The reports whose push was taken.
  function Pushed(reports: seq<Entry>, oks: seq<bool>): seq<Entry>
    requires |oks| == |reports|
  {
    if reports == [] then []
    else (if oks[0] then [reports[0]] else []) + Pushed(reports[1..], oks[1..])
  }

  function Requeued(reports: seq<Entry>, answers: nat -> bool, trims: bool, queue: seq<Entry>): seq<Entry> {
    var longer := Pushed(reports, Answers(|reports|, answers)) + queue;
    if trims then Trimmed(longer) else longer
  }

  /** Of a batch going back exactly the reports whose push Redis takes are kept, in their order. */
  lemma {:induction false} PushedInOrder(reports: seq<Entry>, oks: seq<bool>) returns (at: seq<nat>)
    requires |oks| == |reports|
    ensures Selects(at, reports, Pushed(reports, oks), (i: nat, _) => i < |oks| && oks[i])
  {
    if reports == [] {
      at := [];
      SelectsNothing<Entry>((i: nat, _) => i < |oks| && oks[i]);
    } else {
      hide Pushed, Selects;
      var n := |reports| - 1;
      var front := PushedInOrder(reports[..n], oks[..n]);
      SelectsSame(front, reports[..n], Pushed(reports[..n], oks[..n]), (i: nat, _) => i < n && oks[..n][i],
                  (i: nat, _) => i < |oks| && oks[i]);
      at := SelectsMore(front, reports[..n], Pushed(reports[..n], oks[..n]), (i: nat, _) => i < |oks| && oks[i],
                        reports[n]);
      assert reports == reports[..n] + [reports[n]] && oks == oks[..n] + [oks[n]];
      PushedSnoc(reports[..n], oks[..n], reports[n], oks[n]);
    }
  }

  lemma {:induction false} PushedSnoc(reports: seq<Entry>, oks: seq<bool>, report: Entry, ok: bool)
    requires |oks| == |reports|
    ensures Pushed(reports + [report], oks + [ok]) == Pushed(reports, oks) + if ok then [report] else []
  {
    if reports == [] {
      assert [report][1..] == [] && [] + [report] == [report] && [] + [ok] == [ok];
    } else {
      assert (reports + [report])[1..] == reports[1..] + [report] && (oks + [ok])[1..] == oks[1..] + [ok];
      PushedSnoc(reports[1..], oks[1..], report, ok);
    }
  }

  lemma {:induction false} AllPushed(reports: seq<Entry>, oks: seq<bool>)
    requires |oks| == |reports| && forall i :: 0 <= i < |oks| ==> oks[i]
    ensures Pushed(reports, oks) == reports
  {
    if reports == [] {
    } else {
      AllPushed(reports[1..], oks[1..]);
    }
  }

  // With Redis answering, a requeued batch is back in front, as FailedDrain says.
  lemma AllRequeued(reports: seq<Entry>, answers: nat -> bool, queue: seq<Entry>)
    requires forall i :: answers(i)
    ensures Requeued(reports, answers, true, queue) == Trimmed(reports + queue)
  {
    AllPushed(reports, Answers(|reports|, answers));
  }

  datatype PopError = NoError | Nil | Unsupported | Failure

  // How Redis answers one batch pop: whether it knows the command, whether that reaches it, and which single pops do.
  datatype Redis = Redis(batches: bool, reached: bool, pops: nat -> bool) {
    ghost predicate Answers() {
      if batches then reached else forall i :: pops(i)
    }
  }

  datatype DrainEnd = Emptied | PopFailed | WriteFailed(batch: seq<Entry>)

  class DeviceDataBuffer {
    var queue: seq<Entry>
    var written: seq<seq<Entry>>

    constructor ()
      ensures queue == [] && written == []
    {
      queue, written := [], [];
    }

    // RPOP with a count; it may fail, or be unknown to an old Redis.
    method RedisRPopCount(count: nat, known: bool, reached: bool) returns (results: seq<Entry>, err: PopError)
      requires count > 0
      modifies this`queue
      ensures err == if !known then Unsupported else if !reached then Failure else if old(queue) == [] then Nil else NoError
      ensures err.NoError? <==> results != []
      ensures results == if err.NoError? then Popped(old(queue), count) else []
      ensures queue == if err.NoError? then Rest(old(queue), count) else old(queue)
    {
      if !known {
        return [], Unsupported;
      }
      if !reached {
        return [], Failure;
      }
      if queue == [] {
        return [], Nil;
      }
      results, queue := Popped(queue, count), Rest(queue, count);
      return results, NoError;
    }

    method RedisRPop(reached: bool) returns (value: Option<Entry>, err: PopError)
      modifies this`queue
      ensures err == if !reached then Failure else if old(queue) == [] then Nil else NoError
      ensures err.NoError? <==> value.Some?
      ensures value.Some? ==> old(queue) == queue + [value.value]
      ensures value.None? ==> queue == old(queue)
    {
      if !reached {
        return None, Failure;
      }
      if queue == [] {
        return None, Nil;
      }
      value, queue := Some(queue[|queue| - 1]), queue[..|queue| - 1];
      return value, NoError;
    }

    // What any batch pop does: it takes results off the right end. Only a failure returns less than there was to take.
    twostate predicate Took(count: nat, results: seq<Entry>, err: PopError) reads this {
      && old(queue) == queue + Reverse(results)
      && |results| <= count
      && (err.NoError? ==> results != [] && (|results| == count || queue == []))
      && (err.Nil? ==> results == queue == [])
      && !err.Unsupported?
    }

    // Pops one by one; answers(i) is whether Redis answers the pop number i.
    method RpopFallback(count: nat, answers: nat -> bool) returns (results: seq<Entry>, err: PopError)
      requires count > 0
      modifies this`queue
      ensures Took(count, results, err)
      ensures forall i :: 0 <= i < |results| ==> answers(i)
      ensures err.Failure? <==> |results| < count && !answers(|results|)
    {
      results := [];
      var i := 0;
      while i < count
        invariant |results| == i <= count
        invariant old(queue) == queue + Reverse(results)
        invariant forall k :: 0 <= k < i ==> answers(k)
      {
        var value;
        value, err := RedisRPop(answers(i));
        if !err.NoError? {
          if err.Nil? {
            break;
          }
          return results, err;
        }
        assert Reverse(results + [value.value]) == [value.value] + Reverse(results);
        results := results + [value.value];
        i := i + 1;
      }
      if results == [] {
        return [], Nil;
      }
      return results, NoError;
    }

    method RpopCount(count: nat, redis: Redis) returns (results: seq<Entry>, err: PopError)
      requires count > 0
      modifies this`queue
      ensures Took(count, results, err)
      ensures err.Failure? <==> if redis.batches then !redis.reached else |results| < count && !redis.pops(|results|)
      ensures err.Failure? && redis.batches ==> results == []
      ensures err.Failure? ==> !redis.Answers()
    {
      hide Popped, Rest;
      results, err := RedisRPopCount(count, redis.batches, redis.reached);
      if err.Unsupported? {
        results, err := RpopFallback(count, redis.pops);
        return;
      }
      PoppedRejoins(old(queue), count);
    }

    // Puts a batch back at the left end, last report first, and trims. A push Redis does not take loses its report.
    method Requeue(reports: seq<Entry>, answers: nat -> bool, trims: bool)
      modifies this`queue
      ensures queue == Requeued(reports, answers, trims, old(queue))
    {
      ghost var oks := Answers(|reports|, answers);
      var i := |reports|;
      while i > 0
        invariant 0 <= i <= |reports|
        invariant queue == Pushed(reports[i..], oks[i..]) + old(queue)
      {
        i := i - 1;
        assert reports[i..][1..] == reports[i + 1..] && oks[i..][1..] == oks[i + 1..];
        if answers(i) {
          queue := [reports[i]] + queue;
        }
      }
      if trims {
        queue := Trimmed(queue);
      }
    }

    method Decode(results: seq<Entry>) returns (reports: seq<Entry>)
      ensures reports == Decoded(results)
    {
      reports := [];
      for i := 0 to |results|
        invariant reports == Decoded(results[..i])
      {
        assert results[..i + 1] == results[..i] + [results[i]];
        DecodedAppend(results[..i], [results[i]]);
        DecodedOne(results[i]);
        if results[i].Undecodable? {
          continue;
        }
        reports := reports + [results[i]];
      }
      assert results[..|results|] == results;
    }

    // The writer, accepting a batch or refusing it.
    method FlushReports(reports: seq<Entry>, accepts: bool) returns (ok: bool)
      modifies this`written
      ensures ok == accepts && written == if ok then old(written) + [reports] else old(written)
    {
      ok := accepts;
      if ok {
        written := written + [reports];
      }
    }

    /** One drain. The batches written are the reports in arrival order, up to the end, to a failed pop (which drops
        what it had taken), or to a refused batch (which goes back). rest is what the drain left alone. redis(n) and
        accepts(n) are the answers in its round number n; while they are good, it goes on to the end. */
    method Drain(redis: nat -> Redis, accepts: nat -> bool, answers: nat -> bool, trims: bool)
        returns (end: DrainEnd, ghost dropped: seq<Entry>, ghost rest: seq<Entry>)
      modifies this`queue, this`written
      ensures (forall n :: redis(n).Answers()) ==> !end.PopFailed?
      ensures (forall n :: accepts(n)) ==> !end.WriteFailed?
      ensures old(written) <= written
      ensures Decoded(Reverse(old(queue)))
           == Flatten(written[|old(written)|..]) + Decoded(dropped) + (if end.WriteFailed? then end.batch else [])
              + Decoded(Reverse(rest))
      ensures queue == if end.WriteFailed? then Requeued(end.batch, answers, trims, rest) else rest
      ensures end.Emptied? ==> rest == []
      ensures !end.PopFailed? ==> dropped == []
      ensures end.WriteFailed? && written == old(written) && trims && (forall i :: answers(i)) ==>
                queue == FailedDrain(old(queue))
    {
      hide Decoded, Reverse, Flatten, FailedDrain, Popped, Rest, Trimmed, Requeued, Redis.Answers;
      dropped, rest := [], queue;
      ghost var all, start, done := Decoded(Reverse(queue)), |written|, [];
      assert written[start..] == [] && [] + all == all;
      NothingDone();
      var round := 0;
      while true
        invariant 0 <= round && start <= |written| && old(written) == written[..start]
        invariant done == Flatten(written[start..]) && all == done + Decoded(Reverse(queue))
        invariant |written| == start ==> FailedDrain(queue) == FailedDrain(old(queue))
        decreases |queue|
      {
        ghost var before := queue;
        var results, err := RpopCount(BATCH, redis(round));
        TakenFirst(before, queue, results);
        assert all == done + Decoded(results) + Decoded(Reverse(queue));
        rest := queue;
        if !err.NoError? {
          dropped := results;
          end := if err.Nil? then Emptied else PopFailed;
          NothingDone();
          return;
        }
        TookABatch(before, queue, results, BATCH);
        FailedDrainStep(before);
        var reports := Decode(results);
        if reports == [] {
          assert done + [] == done;
          round := round + 1;
          continue;
        }
        var ok := FlushReports(reports, accepts(round));
        if !ok {
          Requeue(reports, answers, trims);
          end := WriteFailed(reports);
          if trims && forall i :: answers(i) {
            AllRequeued(reports, answers, rest);
          }
          NothingDone();
          assert done + [] == done;
          return;
        }
        assert written[start..] == written[start..|written| - 1] + [reports];
        FlattenSnoc(written[start..|written| - 1], reports);
        done := done + reports;
        round := round + 1;
      }
    }
  }

  lemma NothingDone()
    ensures Flatten<Entry>([]) == [] && Decoded([]) == []
  {
  }

  lemma FailedDrainStep(q: seq<Entry>)
    requires q != []
    ensures var batch := Decoded(Popped(q, BATCH));
            FailedDrain(q) == if batch == [] then FailedDrain(Rest(q, BATCH)) else Trimmed(batch + Rest(q, BATCH))
  {
  }

  lemma DecodedOne(e: Entry)
    ensures Decoded([e]) == if e.Good? then [e] else []
  {
    assert [e][1..] == [] && Decoded([]) == [];
  }

  lemma TakenFirst(before: seq<Entry>, queue: seq<Entry>, results: seq<Entry>)
    requires before == queue + Reverse(results)
    ensures Decoded(Reverse(before)) == Decoded(results) + Decoded(Reverse(queue))
  {
    ReverseAppend(queue, Reverse(results));
    assert Reverse(Reverse(results)) == results;
    DecodedAppend(results, Reverse(queue));
  }

  lemma TookABatch(before: seq<Entry>, queue: seq<Entry>, results: seq<Entry>, count: nat)
    requires before == queue + Reverse(results) && results != [] && |results| <= count
    requires |results| == count || queue == []
    ensures results == Popped(before, count) && queue == Rest(before, count)
  {
    assert Reverse(Reverse(results)) == results;
    assert before[|before| - |results|..] == Reverse(results);
  }
}
