/** The two byte streams of a bridged connection. WebSocket messages from the device are cut into MQTT
    packets and written to the broker; bytes from the broker are read back frame by frame.
    The cuts follow the fixed header of MQTT 3.1.1 section 2.2. */
module MqttStream {
  import opened MqttPackets
  import opened MqttPublish
  import opened MqttWire
  import opened Options

  // One WebSocket message. Only binary ones carry MQTT.
  datatype WsMessage = Binary(data: Bytes) | Text

  function Payload(msg: WsMessage): Bytes {
    if msg.Binary? then msg.data else []
  }

  function Payloads(msgs: seq<WsMessage>): Bytes {
    if msgs == [] then [] else Payload(msgs[0]) + Payloads(msgs[1..])
  }

  datatype Cut = Cut(frames: seq<Bytes>, rest: Bytes)

  // What follows once some frames have been taken.
  function After(frames: seq<Bytes>, later: Cut): Cut {
    Cut(frames + later.frames, later.rest)
  }

  lemma AfterAfter(a: seq<Bytes>, b: seq<Bytes>, c: Cut)
    ensures After(a, After(b, c)) == After(a + b, c)
  {
    Associates(a, b, c.frames);
  }

  // All packets that can be taken off the front of buf, and what is left.
  function Split(buf: Bytes): Cut
    decreases |buf|
  {
    var total := TotalLength(buf);
    if total.Some? && total.value <= |buf| then
      After([buf[..total.value]], Split(buf[total.value..]))
    else Cut([], buf)
  }

  // ---------- to the broker ----------

  /** Who is connected. A user has the lower-casing of device IDs and the answer to the question whether a device is its
      own; the question is put at most once for a device, so what it would answer later does not matter. */
  datatype Peer = Device | User(lower: string -> string, owns: string -> bool)

  datatype Fate = Forward | Drop | Panic

  // A device's frame is logged before it is written, a user's frame is checked.
  function FateOf(peer: Peer, level: byte, frame: Bytes): Fate {
    match peer
    case Device => if LoggedAs(frame, level).Panicked? then Panic else Forward
    case User(lower, owns) => if FrameAllowed(lower, owns, level, frame) then Forward else Drop
  }

  // The frames to be written, up to one on which the process panics.
  function Handled(peer: Peer, level: byte, frames: seq<Bytes>): seq<Bytes> {
    if frames == [] then []
    else
      match FateOf(peer, level, frames[0])
      case Forward => [frames[0]] + Handled(peer, level, frames[1..])
      case Drop => Handled(peer, level, frames[1..])
      case Panic => []
  }

  predicate Panicking(peer: Peer, level: byte, frames: seq<Bytes>) {
    exists i :: 0 <= i < |frames| && FateOf(peer, level, frames[i]).Panic?
  }

  // Closed: the broker's connection refused a write. Crashed: the whole process has ended in a panic.
  datatype Session = Open | Closed | Crashed

  // At most n of them.
  function Upto<T>(s: seq<T>, n: nat): seq<T> {
    if |s| <= n then s else s[..n]
  }

  function Forwarded(peer: Peer, level: byte, frames: seq<Bytes>, writes: nat): seq<Bytes> {
    Upto(Handled(peer, level, frames), writes)
  }

  function EndOf(peer: Peer, level: byte, frames: seq<Bytes>, writes: nat): Session {
    if |Handled(peer, level, frames)| > writes then Closed
    else if Panicking(peer, level, frames) then Crashed
    else Open
  }

  lemma HandledFirst(peer: Peer, level: byte, f: Bytes, more: seq<Bytes>)
    ensures Handled(peer, level, [f] + more) ==
            match FateOf(peer, level, f)
            case Forward => [f] + Handled(peer, level, more)
            case Drop => Handled(peer, level, more)
            case Panic => []
    ensures Panicking(peer, level, [f] + more) == (FateOf(peer, level, f).Panic? || Panicking(peer, level, more))
  {
    hide FateOf;
    var all := [f] + more;
    assert all[0] == f && all[1..] == more;
    if i :| 0 <= i < |more| && FateOf(peer, level, more[i]).Panic? {
      assert all[i + 1] == more[i];
    }
  }

  lemma {:induction false} HandledAppend(peer: Peer, level: byte, a: seq<Bytes>, b: seq<Bytes>)
    ensures if Panicking(peer, level, a) then
              Handled(peer, level, a + b) == Handled(peer, level, a) && Panicking(peer, level, a + b)
            else
              && Handled(peer, level, a + b) == Handled(peer, level, a) + Handled(peer, level, b)
              && Panicking(peer, level, a + b) == Panicking(peer, level, b)
  {
    if a == [] {
      EmptySum(b);
    } else {
      hide Handled, Panicking, FateOf;
      var f, more := a[0], a[1..];
      HandledAppend(peer, level, more, b);
      assert a == [f] + more;
      Associates([f], more, b);
      PrependHandled(peer, level, f, more, more + b, b);
    }
  }

  // What is true of the frames behind the first is true with it.
  lemma {:induction false} PrependHandled(peer: Peer, level: byte, f: Bytes, more: seq<Bytes>, all: seq<Bytes>, b: seq<Bytes>)
    requires if Panicking(peer, level, more) then
               Handled(peer, level, all) == Handled(peer, level, more) && Panicking(peer, level, all)
             else
               && Handled(peer, level, all) == Handled(peer, level, more) + Handled(peer, level, b)
               && Panicking(peer, level, all) == Panicking(peer, level, b)
    ensures if Panicking(peer, level, [f] + more) then
              && Handled(peer, level, [f] + all) == Handled(peer, level, [f] + more)
              && Panicking(peer, level, [f] + all)
            else
              && Handled(peer, level, [f] + all) == Handled(peer, level, [f] + more) + Handled(peer, level, b)
              && Panicking(peer, level, [f] + all) == Panicking(peer, level, b)
  {
    hide FateOf, Panicking, Handled;
    HandledFirst(peer, level, f, more);
    HandledFirst(peer, level, f, all);
    Associates([f], Handled(peer, level, more), Handled(peer, level, b));
  }

  // A session that has ended takes no more frames.
  lemma Ended(peer: Peer, level: byte, a: seq<Bytes>, b: seq<Bytes>, writes: nat)
    requires !EndOf(peer, level, a, writes).Open?
    ensures Forwarded(peer, level, a + b, writes) == Forwarded(peer, level, a, writes)
    ensures EndOf(peer, level, a + b, writes) == EndOf(peer, level, a, writes)
  {
    hide Handled, Panicking;
    HandledAppend(peer, level, a, b);
  }

  lemma GoesOn(peer: Peer, level: byte, a: seq<Bytes>, b: seq<Bytes>, writes: nat)
    requires EndOf(peer, level, a, writes).Open?
    ensures var done := |Handled(peer, level, a)|;
            && done <= writes && Forwarded(peer, level, a, writes) == Handled(peer, level, a)
            && Forwarded(peer, level, a + b, writes)
            == Forwarded(peer, level, a, writes) + Forwarded(peer, level, b, writes - done)
            && EndOf(peer, level, a + b, writes) == EndOf(peer, level, b, writes - done)
            && |Handled(peer, level, a + b)| == done + |Handled(peer, level, b)|
  {
    hide Handled, Panicking;
    HandledAppend(peer, level, a, b);
  }

  lemma OneFrame(peer: Peer, level: byte, f: Bytes, writes: nat)
    ensures Handled(peer, level, [f]) == if FateOf(peer, level, f).Forward? then [f] else []
    ensures Forwarded(peer, level, [f], writes) == if FateOf(peer, level, f).Forward? && writes > 0 then [f] else []
    ensures EndOf(peer, level, [f], writes) ==
            if FateOf(peer, level, f).Forward? && writes == 0 then Closed
            else if FateOf(peer, level, f).Panic? then Crashed
            else Open
  {
    hide FateOf;
    HandledFirst(peer, level, f, []);
    assert [f] + [] == [f];
  }

  lemma NoFrames(peer: Peer, level: byte, writes: nat)
    ensures Handled(peer, level, []) == [] && Forwarded(peer, level, [], writes) == []
    ensures EndOf(peer, level, [], writes) == Open
  {
  }

  /** How a session with some writes left goes on: it forwards what the writes allow, in order, is closed by the write that
      fails, and else crashes where the process panics. */
  lemma SessionEnds(peer: Peer, level: byte, frames: seq<Bytes>, writes: nat)
    ensures Forwarded(peer, level, frames, writes) <= Handled(peer, level, frames)
    ensures |Forwarded(peer, level, frames, writes)| ==
            if |Handled(peer, level, frames)| < writes then |Handled(peer, level, frames)| else writes
    ensures EndOf(peer, level, frames, writes).Closed? <==> writes < |Handled(peer, level, frames)|
    ensures EndOf(peer, level, frames, writes).Crashed? <==>
            |Handled(peer, level, frames)| <= writes && Panicking(peer, level, frames)
  {
  }

  /** What a device gets through: every frame before the first PUBLISH that lacks its packet identifier. That one and all
      behind it are lost. */
  lemma {:induction false} DeviceForwards(level: byte, frames: seq<Bytes>) returns (k: nat)
    ensures k <= |frames| && Handled(Device, level, frames) == frames[..k]
    ensures forall i :: 0 <= i < k ==> !LacksID(frames[i])
    ensures k < |frames| ==> LacksID(frames[k])
    ensures Panicking(Device, level, frames) <==> k < |frames|
  {
    hide LoggedAs, LacksID;
    if frames == [] {
      k := 0;
    } else {
      LogPanicsIff(frames[0], level);
      HandledFirst(Device, level, frames[0], frames[1..]);
      Rejoins(frames, 1);
      if LacksID(frames[0]) {
        k := 0;
      } else {
        var n := DeviceForwards(level, frames[1..]);
        k := n + 1;
        assert frames[..k] == [frames[0]] + frames[1..][..n];
      }
    }
  }

  /** What a user gets through: the allowed frames, in their order. Nothing panics. */
  lemma {:induction false} UserForwards(lower: string -> string, owns: string -> bool, level: byte, frames: seq<Bytes>)
    returns (at: seq<nat>)
    ensures Selects(at, frames, Handled(User(lower, owns), level, frames),
                    (_, f: Bytes) => FrameAllowed(lower, owns, level, f))
    ensures !Panicking(User(lower, owns), level, frames)
  {
    hide FrameAllowed;
    var peer, allowed := User(lower, owns), (_, f: Bytes) => FrameAllowed(lower, owns, level, f);
    if frames == [] {
      at := [];
      SelectsNothing<Bytes>(allowed);
    } else {
      hide Handled, Panicking, Selects;
      var front, last := frames[..|frames| - 1], frames[|frames| - 1];
      assert frames == front + [last];
      at := UserForwards(lower, owns, level, front);
      HandledAppend(peer, level, front, [last]);
      UserFrame(lower, owns, level, last);
      at := SelectsMore(at, front, Handled(peer, level, front), allowed, last);
    }
  }

  lemma UserFrame(lower: string -> string, owns: string -> bool, level: byte, f: Bytes)
    ensures Handled(User(lower, owns), level, [f]) == if FrameAllowed(lower, owns, level, f) then [f] else []
    ensures !Panicking(User(lower, owns), level, [f])
  {
    hide FrameAllowed;
    HandledFirst(User(lower, owns), level, f, []);
    assert [f] + [] == [f];
  }

  /** The pump from the device or user to the broker. The broker's connection takes some number of writes and then fails,
      which closes the session; the number is free. The run ends as well when reading from the peer fails. */
  class WsToTcpPump {
    const peer: Peer
    const level: byte
    var acl: map<string, bool>
    var buf: Bytes
    var forwarded: seq<Bytes>
    var writes: nat
    var session: Session

    // The remembered answers are those that were given.
    ghost predicate Remembers() reads this {
      peer.User? ==> forall d :: d in acl ==> acl[d] == peer.owns(d)
    }

    // Nothing complete is ever left waiting between messages.
    ghost predicate Valid() reads this {
      Remembers() && (session.Open? ==> Split(buf) == Cut([], buf))
    }

    constructor (peer: Peer, level: byte, writes: nat)
      ensures Valid() && session.Open? && buf == [] && forwarded == []
      ensures this.peer == peer && this.level == level && this.writes == writes
    {
      this.peer, this.level, this.writes := peer, level, writes;
      session, acl, buf, forwarded := Open, map[], [], [];
    }

    // What has become of some frames: written up to the end of the session, if it has ended.
    twostate predicate Wrote(frames: seq<Bytes>) reads this {
      && forwarded == old(forwarded) + Forwarded(peer, level, frames, old(writes))
      && session == EndOf(peer, level, frames, old(writes))
      && (session.Open? ==> writes == old(writes) - |Handled(peer, level, frames)|)
    }

    // Whether a frame is to be written: a user's is checked, a device's is logged.
    method Look(frame: Bytes) returns (fate: Fate)
      requires Remembers()
      modifies this`acl
      ensures fate == FateOf(peer, level, frame)
      ensures Remembers()
    {
      hide FrameAllowed, LoggedAs;
      if peer.User? {
        var ok;
        ok, acl := UserFrameAllowed(peer.lower, peer.owns, level, frame, acl);
        return if ok then Forward else Drop;
      }
      var logged := LogPublish(frame, level);
      return if logged.Panicked? then Panic else Forward;
    }

    // Cuts every complete packet off the buffer and hands it on.
    method PumpFrames()
      requires Remembers() && session.Open?
      modifies this`acl, this`buf, this`forwarded, this`writes, this`session
      ensures Remembers()
      ensures Wrote(Split(old(buf)).frames)
      ensures session.Open? ==> buf == Split(old(buf)).rest
    {
      hide VarintWithin, Handled, Forwarded, EndOf, FateOf;
      ghost var all, taken: seq<Bytes> := Split(buf), [];
      NoFrames(peer, level, writes);
      while true
        invariant session.Open? && all == After(taken, Split(buf))
        invariant Wrote(taken)
        invariant Remembers()
        decreases |buf|
      {
        var total, ok := MqttPacketTotalLength(buf);
        if !ok || |buf| < total {
          assert taken + [] == taken;
          break;
        }
        var frame := buf[..total];
        buf := buf[total..];
        AfterAfter(taken, [frame], Split(buf));
        GoesOn(peer, level, taken, [frame], old(writes));
        OneFrame(peer, level, frame, writes);
        taken := taken + [frame];
        var fate := Look(frame);
        if fate.Drop? {
          continue;
        }
        if fate.Panic? || writes == 0 {
          session := if fate.Panic? then Crashed else Closed;
          Ended(peer, level, taken, Split(buf).frames, old(writes));
          break;
        }
        writes := writes - 1;
        forwarded := forwarded + [frame];
      }
    }

    method Receive(msg: WsMessage)
      requires Valid() && session.Open?
      modifies this`acl, this`buf, this`forwarded, this`writes, this`session
      ensures Valid()
      ensures var cut := Split(old(buf) + Payload(msg));
              Wrote(cut.frames) && (session.Open? ==> buf == cut.rest)
    {
      if msg.Text? {
        assert buf + Payload(msg) == buf;
        NoFrames(peer, level, writes);
        return;
      }
      buf := buf + msg.data;
      SplitSettles(buf);
      PumpFrames();
    }

    method Run(msgs: seq<WsMessage>)
      requires Valid() && session.Open?
      modifies this`acl, this`buf, this`forwarded, this`writes, this`session
      ensures Valid()
      ensures var cut := Split(old(buf) + Payloads(msgs));
              Wrote(cut.frames) && (session.Open? ==> buf == cut.rest)
    {
      hide Split, Feed, Payloads, Handled, Forwarded, EndOf;
      ghost var cut := Cut([], buf);
      NoFrames(peer, level, writes);
      ChunkingDoesNotMatter(buf, msgs);
      for i := 0 to |msgs|
        invariant Valid() && session.Open? && buf == cut.rest
        invariant Feed(old(buf), msgs) == After(cut.frames, Feed(buf, msgs[i..]))
        invariant Wrote(cut.frames)
      {
        ghost var step := Split(buf + Payload(msgs[i]));
        Receive(msgs[i]);
        FeedStep(Feed(old(buf), msgs), cut.frames, cut.rest, msgs, i);
        GoesOn(peer, level, cut.frames, step.frames, old(writes));
        cut := Cut(cut.frames + step.frames, step.rest);
        if !session.Open? {
          Ended(peer, level, cut.frames, Feed(step.rest, msgs[i + 1..]).frames, old(writes));
          return;
        }
      }
      FeedNothing(cut.frames, buf, msgs);
    }
  }

  // ---------- what cutting means ----------

  /** No byte is lost, invented or reordered. */
  lemma {:induction false} SplitConserves(buf: Bytes)
    ensures Flatten(Split(buf).frames) + Split(buf).rest == buf
    decreases |buf|
  {
    var total := TotalLength(buf);
    if total.Some? && total.value <= |buf| {
      var front, tail := buf[..total.value], buf[total.value..];
      SplitConserves(tail);
      FlattenCons(front, Split(tail).frames, Split(tail).rest);
      Rejoins(buf, total.value);
    }
  }

  lemma FlattenCons(front: Bytes, frames: seq<Bytes>, rest: Bytes)
    ensures Flatten([front] + frames) + rest == front + (Flatten(frames) + rest)
  {
    var all := [front] + frames;
    assert all[0] == front && all[1..] == frames;
    Associates(front, Flatten(frames), rest);
  }

  /** Every frame is a whole packet, and no whole packet is left behind. */
  lemma {:induction false} SplitIsComplete(buf: Bytes)
    ensures forall f :: f in Split(buf).frames ==> IsPacket(f)
    ensures forall n :: 0 <= n <= |Split(buf).rest| ==> !IsPacket(Split(buf).rest[..n])
    decreases |buf|
  {
    var total := TotalLength(buf);
    if total.Some? && total.value <= |buf| {
      PrefixIsPacket(buf);
      SplitIsComplete(buf[total.value..]);
    } else {
      forall n | 0 <= n <= |buf| ensures !IsPacket(buf[..n]) {
        assert buf[..n] + buf[n..] == buf;
        if IsPacket(buf[..n]) {
          TotalLengthExtends(buf[..n], buf[n..]);
        }
      }
    }
  }

  // What is left cannot be cut further.
  lemma {:induction false} SplitSettles(buf: Bytes)
    ensures Split(Split(buf).rest) == Cut([], Split(buf).rest)
    decreases |buf|
  {
    var total := TotalLength(buf);
    if total.Some? && total.value <= |buf| {
      SplitSettles(buf[total.value..]);
    }
  }

  /** Cutting now and again when more has arrived is cutting once. */
  lemma {:induction false} SplitAppend(a: Bytes, b: Bytes)
    ensures Split(a + b) == After(Split(a).frames, Split(Split(a).rest + b))
    decreases |a|
  {
    var total := TotalLength(a);
    if total.Some? && total.value <= |a| {
      TotalLengthExtends(a, b);
      assert (a + b)[..total.value] == a[..total.value];
      assert (a + b)[total.value..] == a[total.value..] + b;
      SplitAppend(a[total.value..], b);
      AfterAfter([a[..total.value]], Split(a[total.value..]).frames, Split(Split(a).rest + b));
    }
  }

  // The run of one pump as a function: the state after each message feeds the next.
  function Feed(buf: Bytes, msgs: seq<WsMessage>): Cut
    decreases |msgs|
  {
    if msgs == [] then Cut([], buf)
    else
      var first := Split(buf + Payload(msgs[0]));
      After(first.frames, Feed(first.rest, msgs[1..]))
  }

  lemma PayloadsFirst(buf: Bytes, msgs: seq<WsMessage>)
    requires msgs != []
    ensures buf + Payloads(msgs) == buf + Payload(msgs[0]) + Payloads(msgs[1..])
  {
    Associates(buf, Payload(msgs[0]), Payloads(msgs[1..]));
  }

  lemma FeedNothing(taken: seq<Bytes>, buf: Bytes, msgs: seq<WsMessage>)
    ensures After(taken, Feed(buf, msgs[|msgs|..])) == Cut(taken, buf)
  {
    assert taken + [] == taken;
  }

  lemma FeedStep(all: Cut, taken: seq<Bytes>, buf: Bytes, msgs: seq<WsMessage>, i: nat)
    requires i < |msgs| && all == After(taken, Feed(buf, msgs[i..]))
    ensures var step := Split(buf + Payload(msgs[i]));
            all == After(taken + step.frames, Feed(step.rest, msgs[i + 1..]))
  {
    var step := Split(buf + Payload(msgs[i]));
    assert msgs[i..][0] == msgs[i] && msgs[i..][1..] == msgs[i + 1..];
    AfterAfter(taken, step.frames, Feed(step.rest, msgs[i + 1..]));
  }

  /** The frames depend only on the bytes, not on how they were packed into messages. */
  lemma {:induction false} ChunkingDoesNotMatter(buf: Bytes, msgs: seq<WsMessage>)
    requires Split(buf) == Cut([], buf)
    ensures Feed(buf, msgs) == Split(buf + Payloads(msgs))
    decreases |msgs|
  {
    if msgs == [] {
      assert buf + Payloads(msgs) == buf;
    } else {
      var have := buf + Payload(msgs[0]);
      SplitSettles(have);
      ChunkingDoesNotMatter(Split(have).rest, msgs[1..]);
      SplitAppend(have, Payloads(msgs[1..]));
      PayloadsFirst(buf, msgs);
    }
  }

  lemma SinglePacket(p: Bytes)
    requires IsPacket(p)
    ensures Split(p) == Cut([p], [])
  {
    assert p[..|p|] == p && p[|p|..] == [];
    assert Split([]) == Cut([], []);
  }

  lemma {:induction false} SplitPackets(packets: seq<Bytes>)
    requires forall p :: p in packets ==> IsPacket(p)
    ensures Split(Flatten(packets)) == Cut(packets, [])
  {
    if packets == [] {
    } else {
      var tail := Flatten(packets[1..]);
      SplitPackets(packets[1..]);
      SplitAppend(packets[0], tail);
      SinglePacket(packets[0]);
      assert [] + tail == tail;
      assert packets == [packets[0]] + packets[1..];
    }
  }

  /** Any split of a list of packets into messages yields those packets, in order, with nothing left over. */
  lemma PacketsSurviveChunking(packets: seq<Bytes>, msgs: seq<WsMessage>)
    requires forall p :: p in packets ==> IsPacket(p)
    requires Payloads(msgs) == Flatten(packets)
    ensures Feed([], msgs) == Cut(packets, [])
  {
    ChunkingDoesNotMatter([], msgs);
    assert [] + Payloads(msgs) == Payloads(msgs);
    SplitPackets(packets);
  }

  // A packet that is no PUBLISH, or one that the standards' encoder has written.
  ghost predicate Standard(p: Bytes, level: byte) {
    && IsPacket(p)
    && (p[0] / 16 == 3 ==> exists q: Publish :: q.Valid(level) && p == EncodePublish(q, level))
  }

  lemma StandardIsLogged(p: Bytes, level: byte)
    requires Standard(p, level)
    ensures IsPacket(p) && !LacksID(p)
  {
    hide LoggedAs, EncodePublish, TrimZeros, VarintWithin;
    LogPanicsIff(p, level);
    if p[0] / 16 == 3 {
      var q: Publish :| q.Valid(level) && p == EncodePublish(q, level);
      PublishRoundTrip(q, level);
    }
  }

  /** A device that keeps to the standards gets all its packets to the broker, however it divides them into messages. */
  lemma StandardSessionGoesThrough(level: byte, packets: seq<Bytes>, msgs: seq<WsMessage>)
    requires forall p :: p in packets ==> Standard(p, level)
    requires Payloads(msgs) == Flatten(packets)
    ensures Handled(Device, level, Feed([], msgs).frames) == packets && !Panicking(Device, level, packets)
  {
    hide Standard, IsPacket, Handled, Panicking, LacksID, Feed, Payloads, Flatten;
    forall p | p in packets ensures IsPacket(p) && !LacksID(p) {
      StandardIsLogged(p, level);
    }
    PacketsSurviveChunking(packets, msgs);
    var k := DeviceForwards(level, packets);
    assert packets[..|packets|] == packets;
  }

  // A packet of the standards whose topics the user may use: a PUBLISH, a SUBSCRIBE, or any other packet.
  ghost predicate StandardOfUser(p: Bytes, lower: string -> string, owns: string -> bool, level: byte) {
    && IsPacket(p)
    && (p[0] / 16 == 3 ==> exists q: Publish :: q.Valid(level) && p == EncodePublish(q, level)
                                                && (q.topic == [] || TopicAllowed(lower, owns, q.topic)))
    && (p[0] / 16 == 8 ==> exists id, props, filters :: IsSubscribe(p, level, id, props, filters)
                             && forall i :: 0 <= i < |Topics(filters)| ==> TopicAllowed(lower, owns, Topics(filters)[i]))
  }

  ghost predicate IsSubscribe(p: Bytes, level: byte, id: nat, props: Bytes, filters: seq<Filter>) {
    && id < 65536 && |props| <= MAX_REMAINING && |SubscribeBody(id, level, props, filters)| <= MAX_REMAINING
    && p == EncodePacket(0x82, SubscribeBody(id, level, props, filters))
  }

  lemma {:induction false} StandardIsAllowed(p: Bytes, lower: string -> string, owns: string -> bool, level: byte)
    requires StandardOfUser(p, lower, owns, level)
    ensures IsPacket(p) && FrameAllowed(lower, owns, level, p)
  {
    hide FrameAllowed, TopicAllowed, EncodePublish, SubscribeBody, EncodePacket, VarintWithin;
    if p[0] / 16 == 3 {
      var q: Publish :| q.Valid(level) && p == EncodePublish(q, level)
                        && (q.topic == [] || TopicAllowed(lower, owns, q.topic));
      PublishAllowedIff(lower, owns, level, q);
    } else if p[0] / 16 == 8 {
      var id, props, filters :| IsSubscribe(p, level, id, props, filters)
                             && forall i :: 0 <= i < |Topics(filters)| ==> TopicAllowed(lower, owns, Topics(filters)[i]);
      SubscribeAllowedIff(lower, owns, level, id, props, filters);
    } else {
      OtherFramesPass(lower, owns, level, p);
    }
  }

  /** A user that keeps to the standards and to its own devices gets all its packets to the broker, in their order, however
      it divides them into messages: PINGREQ, DISCONNECT and the like included. */
  lemma UserSessionGoesThrough(lower: string -> string, owns: string -> bool, level: byte, packets: seq<Bytes>,
                               msgs: seq<WsMessage>)
    requires forall p :: p in packets ==> StandardOfUser(p, lower, owns, level)
    requires Payloads(msgs) == Flatten(packets)
    ensures Handled(User(lower, owns), level, Feed([], msgs).frames) == packets
    ensures !Panicking(User(lower, owns), level, packets)
  {
    hide StandardOfUser, IsPacket, Handled, Panicking, FrameAllowed, Feed, Payloads, Flatten;
    forall p | p in packets ensures IsPacket(p) && FrameAllowed(lower, owns, level, p) {
      StandardIsAllowed(p, lower, owns, level);
    }
    PacketsSurviveChunking(packets, msgs);
    var at := UserForwards(lower, owns, level, packets);
    SelectsAll(at, packets, Handled(User(lower, owns), level, packets),
               (_, f: Bytes) => FrameAllowed(lower, owns, level, f));
  }

  /** One that leaves out a packet identifier ends the process: nothing it sent from there on is forwarded. */
  lemma PublishWithoutIDEndsSession(level: byte, writes: nat)
    ensures var publish, ping := [0x32, 3, 0, 1, 97], [192, 0];
            var frames := Split(publish + ping).frames;
            && frames == [publish, ping]
            && Forwarded(Device, level, frames, writes) == [] && EndOf(Device, level, frames, writes) == Crashed
  {
    hide LacksID, LoggedAs, VarintWithin, TotalLength, IsPacket;
    var publish: Bytes, ping: Bytes := [0x32, 3, 0, 1, 97], [192, 0];
    PublishWithoutIDPanics(level);
    ShortPacket(192);
    FlattenTwo(publish, ping);
    SplitPackets([publish, ping]);
    HandledFirst(Device, level, publish, [ping]);
    assert [publish, ping] == [publish] + [ping];
  }

  /** Once the front of the buffer is unreadable with five bytes present, nothing is ever cut off again. */
  lemma {:induction false} UnreadableFrontBlocks(buf: Bytes, msgs: seq<WsMessage>)
    requires TotalLength(buf).None? && |buf| >= 5
    ensures Feed(buf, msgs) == Cut([], buf + Payloads(msgs))
    decreases |msgs|
  {
    if msgs == [] {
      assert buf + Payloads(msgs) == buf;
    } else {
      var have := buf + Payload(msgs[0]);
      StillUnreadable(buf, Payload(msgs[0]));
      UnreadableFrontBlocks(have, msgs[1..]);
      PayloadsFirst(buf, msgs);
    }
  }

  lemma StillUnreadable(buf: Bytes, more: Bytes)
    requires TotalLength(buf).None? && |buf| >= 5
    ensures TotalLength(buf + more).None? && Split(buf + more) == Cut([], buf + more)
  {
    UnreadableLength(buf);
  }

  // ---------- before the bridge: the CONNECT packet ----------

  datatype Handshake =
    | Handshake(connect: Bytes, dropped: Bytes, later: seq<WsMessage>)
    | Waiting

  // Messages are gathered until a packet is complete; what follows it in the same message is cut off.
  function Gather(acc: Bytes, msgs: seq<WsMessage>): Handshake
    decreases |msgs|
  {
    if msgs == [] then Waiting
    else if msgs[0].Text? then Gather(acc, msgs[1..])
    else
      var have := acc + msgs[0].data;
      var total := TotalLength(have);
      if total.Some? && total.value <= |have| then Handshake(have[..total.value], have[total.value..], msgs[1..])
      else Gather(have, msgs[1..])
  }

  method ReadConnect(msgs: seq<WsMessage>) returns (connectBytes: Bytes, used: nat, ok: bool)
    ensures ok == Gather([], msgs).Handshake?
    ensures ok ==> used <= |msgs| && Gather([], msgs).connect == connectBytes && Gather([], msgs).later == msgs[used..]
  {
    connectBytes, used := [], 0;
    while used < |msgs|
      invariant used <= |msgs|
      invariant Gather([], msgs) == Gather(connectBytes, msgs[used..])
    {
      var msg := msgs[used];
      assert msgs[used..][1..] == msgs[used + 1..];
      used := used + 1;
      if msg.Text? {
        continue;
      }
      connectBytes := connectBytes + msg.data;
      var total, valid := MqttPacketTotalLength(connectBytes);
      if valid && |connectBytes| >= total {
        connectBytes := connectBytes[..total];
        return connectBytes, used, true;
      }
    }
    return connectBytes, used, false;
  }

  lemma {:induction false} GatherConserves(acc: Bytes, msgs: seq<WsMessage>)
    requires Split(acc) == Cut([], acc)
    ensures var h := Gather(acc, msgs);
            match h
            case Waiting => Split(acc + Payloads(msgs)).frames == []
            case Handshake(connect, dropped, later) =>
              && IsPacket(connect)
              && connect + dropped + Payloads(later) == acc + Payloads(msgs)
    decreases |msgs|
  {
    hide VarintWithin, TotalLength, IsPacket, Split;
    if msgs == [] {
      EmptySum(acc);
    } else if msgs[0].Text? {
      GatherConserves(acc, msgs[1..]);
      EmptySum(Payloads(msgs[1..]));
    } else {
      PayloadsFirst(acc, msgs);
      GatherBinary(acc, msgs);
      var have := acc + msgs[0].data;
      if TotalLength(have).None? || |have| < TotalLength(have).value {
        GatherConserves(have, msgs[1..]);
      }
    }
  }

  /** CONNECT is complete with the first message that completes a packet: what is dropped is the rest of that message. */
  lemma {:induction false} GatherStops(acc: Bytes, msgs: seq<WsMessage>) returns (n: nat)
    requires Split(acc) == Cut([], acc) && Gather(acc, msgs).Handshake?
    ensures 1 <= n <= |msgs| && msgs[n - 1].Binary? && Gather(acc, msgs).later == msgs[n..]
    ensures Split(acc + Payloads(msgs[..n - 1])).frames == []
    ensures Gather(acc, msgs).connect + Gather(acc, msgs).dropped == acc + Payloads(msgs[..n])
    decreases |msgs|
  {
    hide VarintWithin, TotalLength, IsPacket, Split, Payloads;
    var have := acc + Payload(msgs[0]);
    if msgs[0].Text? {
      assert have == acc;
    } else {
      GatherBinary(acc, msgs);
    }
    if msgs[0].Binary? && TotalLength(have).Some? && TotalLength(have).value <= |have| {
      n := 1;
      NoPayloads(acc);
      FrontPayload(acc, msgs, 1);
      assert msgs[..0] == [] && have + [] == have;
      Rejoins(have, TotalLength(have).value);
    } else {
      var k := GatherStops(have, msgs[1..]);
      n := k + 1;
      FrontPayload(acc, msgs, k);
      FrontPayload(acc, msgs, n);
      assert msgs[1..][k - 1] == msgs[n - 1] && msgs[1..][k..] == msgs[n..];
    }
  }

  lemma NoPayloads(acc: Bytes)
    ensures Payloads([]) == [] && acc + Payloads([]) == acc
  {
  }

  lemma FrontPayload(acc: Bytes, msgs: seq<WsMessage>, n: nat)
    requires 1 <= n <= |msgs|
    ensures acc + Payloads(msgs[..n]) == acc + Payload(msgs[0]) + Payloads(msgs[1..][..n - 1])
  {
    assert msgs[..n][1..] == msgs[1..][..n - 1] && msgs[..n][0] == msgs[0];
    PayloadsFirst(acc, msgs[..n]);
  }

  // A binary message completes the first packet, or leaves nothing to cut.
  lemma GatherBinary(acc: Bytes, msgs: seq<WsMessage>)
    requires msgs != [] && msgs[0].Binary?
    ensures var have := acc + msgs[0].data;
            var total := TotalLength(have);
            if total.Some? && total.value <= |have| then
              && Gather(acc, msgs) == Handshake(have[..total.value], have[total.value..], msgs[1..])
              && IsPacket(have[..total.value])
              && have[..total.value] + have[total.value..] + Payloads(msgs[1..]) == have + Payloads(msgs[1..])
            else
              Gather(acc, msgs) == Gather(have, msgs[1..]) && Split(have) == Cut([], have)
  {
    hide VarintWithin;
    var have := acc + msgs[0].data;
    var total := TotalLength(have);
    if total.Some? && total.value <= |have| {
      PrefixIsPacket(have);
      Rejoins(have, total.value);
    }
  }

  /** A session is cut into the packets of everything the device sent exactly when its CONNECT packet
      ended on a message boundary; otherwise the bytes behind it in that message are lost. */
  lemma SessionConservesIff(msgs: seq<WsMessage>)
    requires Gather([], msgs).Handshake?
    ensures var h := Gather([], msgs);
            var session := Feed([], h.later);
            var sent := Split(Payloads(msgs));
            (sent == Cut([h.connect] + session.frames, session.rest)) <==> h.dropped == []
  {
    var h := Gather([], msgs);
    var session := Feed([], h.later);
    var sent := Split(Payloads(msgs));
    GatherConserves([], msgs);
    assert [] + Payloads(msgs) == Payloads(msgs);
    ChunkingDoesNotMatter([], h.later);
    assert [] + Payloads(h.later) == Payloads(h.later);
    SplitPackets([h.connect]);
    assert Flatten([h.connect]) == h.connect;
    if h.dropped == [] {
      assert h.connect + h.dropped + Payloads(h.later) == h.connect + Payloads(h.later);
      SplitAppend(h.connect, Payloads(h.later));
      assert Split(h.connect).rest + Payloads(h.later) == Payloads(h.later);
    }
    if sent == Cut([h.connect] + session.frames, session.rest) {
      SplitConserves(Payloads(msgs));
      SplitConserves(Payloads(h.later));
      FlattenAppend([h.connect], session.frames);
      assert |Payloads(msgs)| == |h.connect| + |Payloads(h.later)|;
    }
  }

  /** Such a session: a packet sent together with CONNECT is never forwarded. */
  lemma PacketBehindConnectIsLost()
    ensures var connect, ping := [16, 0], [192, 0];
            var msgs := [Binary(connect + ping)];
            && Split(Payloads(msgs)) == Cut([connect, ping], [])
            && Gather([], msgs) == Handshake(connect, ping, [])
            && Feed([], []) == Cut([], [])
  {
    hide VarintWithin, TotalLength, IsPacket;
    var connect: Bytes, ping: Bytes := [16, 0], [192, 0];
    var all := connect + ping;
    ShortPacket(16);
    ShortPacket(192);
    FlattenTwo(connect, ping);
    SplitPackets([connect, ping]);
    assert [Binary(all)][1..] == [] && all + [] == all;
    GatherBinary([], [Binary(all)]);
    EmptySum(all);
    TotalIs(connect);
    TotalLengthExtends(connect, ping);
    assert all[..2] == connect && all[2..] == ping;
  }

  lemma FlattenTwo(a: Bytes, b: Bytes)
    ensures Flatten([a, b]) == a + b
  {
    assert [a, b][1..] == [b] && [b][1..] == [];
    assert Flatten([b]) == b + [] == b;
  }

  lemma ShortPacket(header: byte)
    requires header >= 16
    ensures IsPacket([header, 0])
  {
  }

  lemma TotalIs(p: Bytes)
    requires IsPacket(p)
    ensures TotalLength(p) == Some(|p|)
  {
  }

  // ---------- from the broker ----------

  // The type byte and i bytes of a length that goes on have been read.
  ghost predicate LengthSoFar(all: Bytes, i: nat, header: Bytes, unread: Bytes, remaining: nat, multiplier: nat) {
    && i < 4 && i + 1 <= |all| && header == all[..i + 1] && unread == all[i + 1..]
    && (forall k :: 1 <= k <= i ==> all[k] >= 128)
    && DecodeVarint(all, 1) == Resume(remaining, multiplier, VarintWithin(all, i + 1, 4 - i))
  }

  lemma TypeByteRead(all: Bytes)
    requires all != []
    ensures LengthSoFar(all, 0, [all[0]], all[1..], 0, 1)
  {
  }

  lemma {:induction false} HeaderCutOff(all: Bytes, i: nat, header: Bytes, remaining: nat, multiplier: nat)
    requires LengthSoFar(all, i, header, [], remaining, multiplier)
    ensures DecodeVarint(all, 1).NoVarint? && !OverlongVarint(all)
  {
    hide VarintWithin, DecodeVarint, OverlongVarint;
    ShortOfLength(all);
  }

  // The next byte ends the length, or is the fourth and does not, or leads on.
  lemma {:induction false} LengthByte(all: Bytes, i: nat, header: Bytes, unread: Bytes, remaining: nat, multiplier: nat)
    requires LengthSoFar(all, i, header, unread, remaining, multiplier) && unread != []
    ensures LengthByteRead(all, i, header + [unread[0]], unread[1..], remaining + unread[0] as nat % 128 * multiplier,
                           multiplier * 128, unread[0] as nat)
  {
    hide VarintWithin, DecodeVarint, OverlongVarint, Resume;
    NextOf(all, i + 1);
    ResumeStep(all, i + 1, 4 - i, remaining, multiplier);
    if unread[0] < 128 {
      Rejoins(all, i + 2);
    } else if i == 3 {
      LengthTooLong(all);
    }
  }

  ghost predicate LengthByteRead(all: Bytes, i: nat, header: Bytes, unread: Bytes, remaining: nat, multiplier: nat,
                                 b: nat) {
    if b < 128 then DecodeVarint(all, 1) == Varint(remaining, |header|) && header + unread == all
    else if i == 3 then DecodeVarint(all, 1).NoVarint? && OverlongVarint(all) && |all| >= 5 && unread == all[5..]
    else LengthSoFar(all, i + 1, header, unread, remaining, multiplier)
  }

  lemma {:induction false} ShortOfLength(all: Bytes)
    requires |all| <= 4 && forall k :: 1 <= k < |all| ==> all[k] >= 128
    ensures DecodeVarint(all, 1).NoVarint? && !OverlongVarint(all)
  {
    VarintFailure(all, 1, 4);
  }

  lemma {:induction false} LengthTooLong(all: Bytes)
    requires |all| >= 5 && forall k :: 1 <= k <= 4 ==> all[k] >= 128
    ensures DecodeVarint(all, 1).NoVarint? && OverlongVarint(all)
  {
    VarintFailure(all, 1, 4);
  }

  /** The reader of the broker's TCP stream. unread is what the stream holds before it ends or fails. */
  class MqttFrameReader {
    var unread: Bytes

    constructor (unread: Bytes)
      ensures this.unread == unread
    {
      this.unread := unread;
    }

    method ReadByte() returns (b: Option<byte>)
      modifies this
      ensures b == if old(unread) == [] then None else Some(old(unread)[0])
      ensures unread == if old(unread) == [] then [] else old(unread)[1..]
    {
      if unread == [] {
        return None;
      }
      b := Some(unread[0]);
      unread := unread[1..];
    }

    method ReadFull(n: nat) returns (body: Option<Bytes>)
      modifies this
      ensures n <= |old(unread)| ==> body == Some(old(unread)[..n]) && unread == old(unread)[n..]
      ensures |old(unread)| < n ==> body == None && unread == []
    {
      if |unread| < n {
        unread := [];
        return None;
      }
      body := Some(unread[..n]);
      unread := unread[n..];
    }

    // The fixed header: packet type byte and remaining length.
    method ReadHeader() returns (header: Bytes, remaining: nat, ok: bool)
      modifies this
      ensures ok == DecodeVarint(old(unread), 1).Varint?
      ensures ok ==> DecodeVarint(old(unread), 1) == Varint(remaining, |header|) && header + unread == old(unread)
      ensures !ok ==> unread == if OverlongVarint(old(unread)) then old(unread)[5..] else []
    {
      hide VarintWithin, DecodeVarint, OverlongVarint, LengthSoFar, Resume;
      ghost var all := unread;
      header, remaining := [], 0;
      var first := ReadByte();
      if first.None? {
        ShortOfLength(all);
        return header, remaining, false;
      }
      header := [first.value];
      var multiplier: nat, i := 1, 0;
      TypeByteRead(all);
      while i < 4
        invariant 0 <= i < 4 && LengthSoFar(all, i, header, unread, remaining, multiplier)
        decreases 4 - i
      {
        ghost var before := unread;
        var next := ReadByte();
        if next.None? {
          HeaderCutOff(all, i, header, remaining, multiplier);
          return header, remaining, false;
        }
        var b := next.value as nat;
        LengthByte(all, i, header, before, remaining, multiplier);
        header := header + [next.value];
        remaining := remaining + b % 128 * multiplier;
        multiplier := multiplier * 128;
        if b < 128 {
          return header, remaining, true;
        }
        if i == 3 {
          return header, remaining, false;
        }
        i := i + 1;
      }
    }

    method ReadFrame() returns (frame: Option<Bytes>)
      modifies this
      ensures frame == FrameAtFront(old(unread))
      ensures frame.Some? ==> frame.value + unread == old(unread)
      ensures frame.None? ==> unread == if OverlongVarint(old(unread)) then old(unread)[5..] else []
    {
      ghost var all := unread;
      var header, remaining, ok := ReadHeader();
      if !ok {
        return None;
      }
      VarintFailure(all, 1, 4);
      var body := ReadFull(remaining);
      if body.None? {
        return None;
      }
      assert header + body.value == all[..|header| + remaining];
      return Some(header + body.value);
    }
  }

  // Five bytes whose length integer has not ended.
  predicate OverlongVarint(data: Bytes) {
    |data| >= 5 && forall i :: 1 <= i < 5 ==> data[i] >= 128
  }

  // The frame the broker-side reader takes: the packet type is not looked at.
  function FrameAtFront(data: Bytes): Option<Bytes> {
    match DecodeVarint(data, 1)
    case NoVarint => None
    case Varint(value, next) => if next + value <= |data| then Some(data[..next + value]) else None
  }

  /** A packet of any type, the reserved one included, is taken whole off the broker's stream whatever follows it, and
      nothing is taken before it is there. */
  lemma {:induction false} BrokerFrameRead(header: byte, body: Bytes, more: Bytes, n: nat)
    requires |body| <= MAX_REMAINING && n <= |EncodePacket(header, body) + more|
    ensures var sent := EncodePacket(header, body) + more;
            FrameAtFront(sent[..n]) ==
            if n < |EncodePacket(header, body)| then None else Some(EncodePacket(header, body))
  {
    hide EncodePacket, EncodeVarint;
    var packet := EncodePacket(header, body);
    var sent := packet + more;
    var next := 1 + |EncodeVarint(|body|)|;
    FramePrefix(header, body);
    if n < |packet| {
      assert sent[..n] == packet[..n];
      ShortVarint(packet, n, |body|, next);
    } else {
      assert sent[..n] == packet + more[..n - |packet|];
      VarintExtends(packet, more[..n - |packet|], 1, 4);
      assert sent[..n][..|packet|] == packet;
    }
  }

  lemma FramePrefix(header: byte, body: Bytes)
    requires |body| <= MAX_REMAINING
    ensures var packet := EncodePacket(header, body);
            var next := 1 + |EncodeVarint(|body|)|;
            DecodeVarint(packet, 1) == Varint(|body|, next) && next + |body| == |packet|
  {
    VarintRoundTrip([header], |body|, body);
  }

  // A cut-off length is not read, or is the same.
  lemma {:induction false} ShortVarint(packet: Bytes, n: nat, value: nat, next: nat)
    requires n <= |packet| && DecodeVarint(packet, 1) == Varint(value, next)
    ensures DecodeVarint(packet[..n], 1) == if n < next then NoVarint else Varint(value, next)
  {
    hide VarintWithin;
    VarintReadsIff(packet, 1, value, next);
    if n < next {
      VarintFailure(packet[..n], 1, 4);
    } else {
      VarintReadsIff(packet[..n], 1, value, next);
      assert packet[..n][1..next] == packet[1..next];
    }
  }

  /** The two cutters take the same first packet off any stream, unless its first byte is below 16 (the reserved packet
      type), a length can be read and that many bytes are there: then only the broker side takes one. */
  lemma {:induction false} CuttersAgreeIff(data: Bytes)
    ensures var cut, length := Split(data).frames, DecodeVarint(data, 1);
            (FrameAtFront(data) == if cut == [] then None else Some(cut[0]))
            <==> !(length.Varint? && length.next + length.value <= |data| && data[0] < 16)
  {
    hide VarintWithin;
    VarintFailure(data, 1, 4);
    var total := TotalLength(data);
    if total.Some? && total.value <= |data| {
      assert Split(data).frames[0] == data[..total.value];
    }
  }
}
