/** PUBLISH packets (section 3.3 of MQTT 3.1.1 and 5.0) as the gateway reads them: for the message log of a device, and
    to check the topics of a user. */
module MqttPublish {
  import opened DeviceTopics
  import opened MqttPackets
  import opened MqttWire
  import opened Options

  // ---------- encoding, from the standards ----------

  datatype Publish = Publish(topic: Str, qos: nat, duplicate: bool, retain: bool, id: nat, props: Bytes, payload: Bytes) {
    predicate Valid(level: byte) {
      qos <= 2 && id < 65536 && |props| <= MAX_REMAINING && |PublishBody(this, level)| <= MAX_REMAINING
    }
  }

  function PublishHeader(p: Publish): byte
    requires p.qos <= 2
  {
    0x30 + (if p.duplicate then 8 else 0) + 2 * p.qos as byte + (if p.retain then 1 else 0)
  }

  // A packet identifier is present with a quality of service above zero.
  function EncodeID(p: Publish): Bytes
    requires p.id < 65536
  {
    if p.qos > 0 then EncodeNumber(p.id) else []
  }

  function PublishBody(p: Publish, level: byte): Bytes
    requires p.id < 65536
  {
    EncodeStr(p.topic) + (EncodeID(p) + (EncodeProperties(level, p.props) + p.payload))
  }

  function EncodePublish(p: Publish, level: byte): Bytes
    requires p.qos <= 2 && p.id < 65536
  {
    EncodePacket(PublishHeader(p), PublishBody(p, level))
  }

  // ---------- reading ----------

  datatype Span = Span(from: nat, to: nat)

  // Where the topic lies in a PUBLISH, if it lies inside.
  function TopicSpan(frame: Bytes): (span: Option<Span>)
    ensures span.Some? ==> span.value.from <= span.value.to <= |frame|
  {
    if |frame| < 2 || frame[0] / 16 != 3 then None
    else
      match DecodeVarint(frame, 1)
      case NoVarint => None
      case Varint(_, pos) =>
        if pos + 2 > |frame| || pos + 2 + Number(frame, pos) > |frame| then None
        else Some(Span(pos + 2, pos + 2 + Number(frame, pos)))
  }

  function QosOf(frame: Bytes): nat
    requires frame != []
  {
    frame[0] as nat / 2 % 4
  }

  function TrimZeros(s: Bytes): Bytes
    decreases |s|
  {
    if s == [] then []
    else if s[0] == 0 then TrimZeros(s[1..])
    else if s[|s| - 1] == 0 then TrimZeros(s[..|s| - 1])
    else s
  }

  // Panicked: the slice taken for the payload begins behind the end of the frame.
  datatype Logged = Ignored | Message(topic: Bytes, qos: nat, retain: bool, payload: Bytes) | Panicked

  function PayloadAt(frame: Bytes, level: byte, pos: nat): nat {
    if level == 5 && pos < |frame| && AfterProperties(frame, pos).Some? then AfterProperties(frame, pos).value else pos
  }

  function LoggedAs(frame: Bytes, level: byte): Logged {
    match TopicSpan(frame)
    case None => Ignored
    case Some(Span(from, to)) =>
      var start := PayloadAt(frame, level, if QosOf(frame) > 0 then to + 2 else to);
      if start > |frame| then Logged.Panicked
      else Message(frame[from..to], QosOf(frame), frame[0] % 2 == 1, TrimZeros(frame[start..]))
  }

  method LogPublish(frame: Bytes, level: byte) returns (r: Logged)
    ensures r == LoggedAs(frame, level)
  {
    hide VarintWithin, DecodeVarint, TrimZeros;
    if |frame| < 2 || frame[0] / 16 != 3 {
      return Ignored;
    }
    var qos := frame[0] as nat / 2 % 4;
    var retained := frame[0] % 2 == 1;
    var _, pos, valid := MqttVarint(frame, 1);
    if !valid {
      return Ignored;
    }
    if pos + 2 > |frame| {
      return Ignored;
    }
    var topicLen := ReadNumber(frame, pos);
    pos := pos + 2;
    if pos + topicLen > |frame| {
      return Ignored;
    }
    var topic := frame[pos..pos + topicLen];
    pos := pos + topicLen;
    if qos > 0 {
      pos := pos + 2;
    }
    if level == 5 && pos < |frame| {
      var next, skipped := MqttSkipProperties(frame, pos);
      if skipped {
        pos := next;
      }
    }
    if pos > |frame| {
      return Logged.Panicked;
    }
    return Message(topic, qos, retained, TrimZeros(frame[pos..]));
  }

  // The topic is there, but not the packet identifier that must follow it.
  predicate LacksID(frame: Bytes) {
    TopicSpan(frame).Some? && QosOf(frame) > 0 && TopicSpan(frame).value.to + 2 > |frame|
  }

  /** Logging a frame panics, at any protocol level, exactly when it is a PUBLISH with a topic, a quality of service above
      zero and no room for a packet identifier. */
  lemma LogPanicsIff(frame: Bytes, level: byte)
    ensures LoggedAs(frame, level).Panicked? <==> LacksID(frame)
    ensures LacksID(frame) <==>
            && |frame| >= 2 && frame[0] / 16 == 3 && frame[0] / 2 % 4 > 0
            && var length := DecodeVarint(frame, 1);
               && length.Varint? && length.next + 2 <= |frame|
               && length.next + 2 + Number(frame, length.next) <= |frame| < length.next + 4 + Number(frame, length.next)
  {
    hide VarintWithin;
  }

  /** Such a frame: a whole packet of quality of service 1 with topic "a". */
  lemma PublishWithoutIDPanics(level: byte)
    ensures var frame := [0x32, 3, 0, 1, 97];
            IsPacket(frame) && LoggedAs(frame, level) == Logged.Panicked
  {
    var frame: Bytes := [0x32, 3, 0, 1, 97];
    assert DecodeVarint(frame, 1) == Varint(3, 2);
    LogPanicsIff(frame, level);
  }

  // A PUBLISH frame that names this topic.
  ghost predicate Names(frame: Bytes, topic: Bytes) {
    && |frame| >= 2 && frame[0] / 16 == 3 && DecodeVarint(frame, 1).Varint?
    && |topic| < 65536 && At(frame, DecodeVarint(frame, 1).next, EncodeStr(topic))
  }

  lemma SpanIff(frame: Bytes, topic: Bytes)
    ensures Names(frame, topic) <==>
            && TopicSpan(frame).Some?
            && frame[TopicSpan(frame).value.from..TopicSpan(frame).value.to] == topic
            && |topic| == TopicSpan(frame).value.to - TopicSpan(frame).value.from
    ensures Names(frame, topic) ==> TopicSpan(frame).value.to == DecodeVarint(frame, 1).next + 2 + |topic|
  {
    hide VarintWithin;
    if Names(frame, topic) {
      AtStr(frame, DecodeVarint(frame, 1).next, topic);
    }
    if TopicSpan(frame).Some? {
      StrAt(frame, DecodeVarint(frame, 1).next, frame[TopicSpan(frame).value.from..TopicSpan(frame).value.to]);
    }
  }

  // Where the payload begins behind topic and identifier: properties are passed over at level 5 if they can be.
  predicate PayloadFrom(frame: Bytes, level: byte, pos: nat, start: nat) {
    var length := DecodeVarint(frame, pos);
    if level == 5 && length.Varint? && length.next + length.value <= |frame| then start == length.next + length.value
    else start == pos
  }

  /** A frame is logged exactly when it is a PUBLISH with its topic inside and, above quality of service zero, two more
      bytes: with that topic, and as payload what lies behind identifier and properties, trimmed. */
  lemma {:induction false} LoggedIff(frame: Bytes, level: byte, m: Logged)
    requires m.Message?
    ensures LoggedAs(frame, level) == m <==>
            && Names(frame, m.topic)
            && m.qos == frame[0] as nat / 2 % 4 && m.retain == (frame[0] % 2 == 1)
            && var pos := DecodeVarint(frame, 1).next + 2 + |m.topic| + if m.qos > 0 then 2 else 0;
               pos <= |frame| && exists start: nat :: start <= |frame| && PayloadFrom(frame, level, pos, start)
                                                 && m.payload == TrimZeros(frame[start..])
  {
    hide VarintWithin, DecodeVarint, TrimZeros, TopicSpan, At, EncodeStr;
    SpanIff(frame, m.topic);
    if TopicSpan(frame).Some? {
      var pos := TopicSpan(frame).value.to + if m.qos > 0 then 2 else 0;
      if pos <= |frame| {
        PayloadIff(frame, level, pos);
      }
    }
  }

  lemma PayloadIff(frame: Bytes, level: byte, pos: nat)
    requires pos <= |frame|
    ensures forall start :: PayloadFrom(frame, level, pos, start) <==> start == PayloadAt(frame, level, pos)
    ensures PayloadAt(frame, level, pos) <= |frame|
  {
    VarintIsInside(frame, pos);
  }

  lemma VarintIsInside(frame: Bytes, pos: nat)
    ensures DecodeVarint(frame, pos).Varint? ==> pos < |frame|
  {
  }

  /** A frame is ignored exactly when it names no topic. */
  lemma IgnoredIff(frame: Bytes, level: byte)
    ensures LoggedAs(frame, level).Ignored? <==> forall topic :: !Names(frame, topic)
  {
    hide VarintWithin, TrimZeros, Names, TopicSpan;
    if TopicSpan(frame).Some? {
      SpanIff(frame, frame[TopicSpan(frame).value.from..TopicSpan(frame).value.to]);
    } else {
      forall topic ensures !Names(frame, topic) {
        SpanIff(frame, topic);
      }
    }
  }

  /** What a trim leaves: the part between the first and the last byte that is not zero. */
  lemma {:induction false} TrimmedPart(s: Bytes) returns (i: nat, j: nat)
    ensures i <= j <= |s| && TrimZeros(s) == s[i..j]
    ensures forall k :: 0 <= k < |s| && !(i <= k < j) ==> s[k] == 0
    ensures i < j ==> s[i] != 0 && s[j - 1] != 0
    decreases |s|
  {
    if s == [] {
      i, j := 0, 0;
    } else if s[0] == 0 {
      i, j := TrimmedPart(s[1..]);
      assert s[1..][i..j] == s[i + 1..j + 1];
      i, j := i + 1, j + 1;
    } else if s[|s| - 1] == 0 {
      i, j := TrimmedPart(s[..|s| - 1]);
      assert s[..|s| - 1][i..j] == s[i..j];
    } else {
      i, j := 0, |s|;
      assert s[0..|s|] == s;
    }
  }

  /** The trim changes nothing exactly when there is no zero byte at either end. */
  lemma {:induction false} TrimKeepsIff(s: Bytes)
    ensures TrimZeros(s) == s <==> s == [] || (s[0] != 0 && s[|s| - 1] != 0)
  {
    var i, j := TrimmedPart(s);
  }

  // ---------- round trip ----------

  lemma HeaderBits(p: Publish)
    requires p.qos <= 2
    ensures PublishHeader(p) / 16 == 3 && PublishHeader(p) as nat / 2 % 4 == p.qos
    ensures PublishHeader(p) % 2 == (if p.retain then 1 else 0)
  {
  }

  lemma TopicRead(p: Publish, level: byte) returns (to: nat)
    requires p.Valid(level)
    ensures var frame := EncodePublish(p, level);
            var rest := EncodeID(p) + (EncodeProperties(level, p.props) + p.payload);
            && |frame| >= 2 && frame[0] == PublishHeader(p)
            && |p.topic| <= to && TopicSpan(frame) == Some(Span(to - |p.topic|, to))
            && frame[to - |p.topic|..to] == p.topic
            && At(frame, to, rest) && |frame| == to + |rest|
  {
    hide EncodeID, EncodeProperties, EncodeVarint, VarintWithin, PublishHeader;
    var body := PublishBody(p, level);
    var frame := EncodePublish(p, level);
    AtBody(PublishHeader(p), body);
    HeaderBits(p);
    var start := 1 + |EncodeVarint(|body|)|;
    AtSplit(frame, start, EncodeStr(p.topic), EncodeID(p) + (EncodeProperties(level, p.props) + p.payload));
    AtStr(frame, start, p.topic);
    to := start + |EncodeStr(p.topic)|;
  }

  lemma PayloadRead(p: Publish, level: byte, frame: Bytes, to: nat)
    requires p.Valid(level) && At(frame, to, EncodeID(p) + (EncodeProperties(level, p.props) + p.payload))
    requires |frame| == to + |EncodeID(p) + (EncodeProperties(level, p.props) + p.payload)|
    ensures var start := PayloadAt(frame, level, to + |EncodeID(p)|);
            start <= |frame| && frame[start..] == p.payload
  {
    hide EncodeID, AfterProperties, VarintWithin, EncodeVarint, PublishBody;
    var pos := to + |EncodeID(p)|;
    AtSplit(frame, to, EncodeID(p), EncodeProperties(level, p.props) + p.payload);
    AtSplit(frame, pos, EncodeProperties(level, p.props), p.payload);
    AtProperties(frame, pos, level, p.props);
    var end := pos + |EncodeProperties(level, p.props)|;
    assert frame[end..] == frame[end..end + |p.payload|];
  }

  /** Every PUBLISH of the standards is logged, never with a panic: topic, quality of service, retain flag, and its payload
      without the zero bytes around it. */
  lemma {:induction false} PublishRoundTrip(p: Publish, level: byte)
    requires p.Valid(level)
    ensures LoggedAs(EncodePublish(p, level), level) == Message(p.topic, p.qos, p.retain, TrimZeros(p.payload))
  {
    hide EncodePublish, TopicSpan, PayloadAt, EncodeProperties, TrimZeros, PublishHeader, At, PublishBody;
    var frame := EncodePublish(p, level);
    var to := TopicRead(p, level);
    HeaderBits(p);
    PayloadRead(p, level, frame, to);
  }

  // ---------- the frames of a user ----------

  function AsText(b: Bytes): string {
    seq(|b|, i requires 0 <= i < |b| => b[i] as int as char)
  }

  // The topics a user's frame names, as far as they can be read.
  function FrameTopics(frame: Bytes, level: byte): seq<Bytes> {
    if |frame| < 2 then []
    else if frame[0] / 16 == 3 then
      var span := TopicSpan(frame);
      if span.Some? && span.value.from < span.value.to then [frame[span.value.from..span.value.to]] else []
    else if frame[0] / 16 == 8 then SubscribeTopics(frame, level)
    else []
  }

  // The topic is iot/device/... with a device of the user.
  predicate TopicAllowed(lower: string -> string, owns: string -> bool, topic: Bytes) {
    var levels := Levels(AsText(topic));
    |levels| >= 3 && levels[0] == "iot" && owns(lower(levels[1]))
  }

  predicate FrameAllowed(lower: string -> string, owns: string -> bool, level: byte, frame: Bytes) {
    forall i :: 0 <= i < |FrameTopics(frame, level)| ==> TopicAllowed(lower, owns, FrameTopics(frame, level)[i])
  }

  /** The check with its memory of devices already looked up. */
  method UserFrameAllowed(lower: string -> string, owns: string -> bool, level: byte, frame: Bytes, acl: map<string, bool>)
      returns (ok: bool, known: map<string, bool>)
    requires forall d :: d in acl ==> acl[d] == owns(d)
    ensures ok == FrameAllowed(lower, owns, level, frame)
    ensures acl.Keys <= known.Keys && forall d :: d in known ==> known[d] == owns(d)
  {
    hide TopicSpan, TopicAllowed, SubscribeTopics;
    if |frame| < 2 {
      return true, acl;
    }
    var topics: seq<Bytes> := [];
    if frame[0] / 16 == 3 {
      var topic, valid := ParsePublishTopic(frame);
      if valid {
        topics := [topic];
      }
    } else if frame[0] / 16 == 8 {
      topics := ParseSubscribeTopics(frame, level);
    } else {
      return true, acl;
    }
    assert topics == FrameTopics(frame, level);
    ok, known := TopicsAllowed(lower, owns, topics, acl);
  }

  method TopicsAllowed(lower: string -> string, owns: string -> bool, topics: seq<Bytes>, acl: map<string, bool>)
      returns (ok: bool, known: map<string, bool>)
    requires forall d :: d in acl ==> acl[d] == owns(d)
    ensures ok == forall i :: 0 <= i < |topics| ==> TopicAllowed(lower, owns, topics[i])
    ensures ok ==> forall i :: 0 <= i < |topics| ==>
                     |Levels(AsText(topics[i]))| >= 2 && lower(Levels(AsText(topics[i]))[1]) in known
    ensures acl.Keys <= known.Keys && forall d :: d in known ==> known[d] == owns(d)
  {
    hide Levels, AsText;
    known := acl;
    for k := 0 to |topics|
      invariant acl.Keys <= known.Keys && forall d :: d in known ==> known[d] == owns(d)
      invariant forall i :: 0 <= i < k ==>
                  |Levels(AsText(topics[i]))| >= 2 && lower(Levels(AsText(topics[i]))[1]) in known
      invariant forall i :: 0 <= i < k ==> TopicAllowed(lower, owns, topics[i])
    {
      var levels := Levels(AsText(topics[k]));
      if |levels| < 3 || levels[0] != "iot" {
        assert !TopicAllowed(lower, owns, topics[k]);
        return false, known;
      }
      var device := lower(levels[1]);
      if device !in known {
        known := known[device := owns(device)];
      }
      if !known[device] {
        assert !TopicAllowed(lower, owns, topics[k]);
        return false, known;
      }
    }
    return true, known;
  }

  method ParsePublishTopic(frame: Bytes) returns (topic: Bytes, ok: bool)
    ensures ok == (TopicSpan(frame).Some? && TopicSpan(frame).value.from < TopicSpan(frame).value.to)
    ensures ok ==> topic == frame[TopicSpan(frame).value.from..TopicSpan(frame).value.to]
  {
    hide VarintWithin;
    if |frame| < 2 || frame[0] / 16 != 3 {
      return [], false;
    }
    var _, pos, valid := MqttVarint(frame, 1);
    if !valid || pos + 2 > |frame| {
      return [], false;
    }
    var topicLen := ReadNumber(frame, pos);
    pos := pos + 2;
    if topicLen == 0 || pos + topicLen > |frame| {
      return [], false;
    }
    return frame[pos..pos + topicLen], true;
  }

  /** A topic is allowed exactly when it is iot, a device of the user in any case, and at least one more level. */
  lemma {:induction false} TopicAllowedIff(lower: string -> string, owns: string -> bool, topic: Bytes)
    ensures TopicAllowed(lower, owns, topic) <==>
            exists device, rest :: && '/' !in device && owns(lower(device))
                                   && AsText(topic) == Join("iot", Join(device, rest))
  {
    hide Join, AsText, FirstSlash;
    if TopicAllowed(lower, owns, topic) {
      var root, tail := Divide(AsText(topic));
      var device, rest := Divide(tail);
      assert Levels(AsText(topic)) == [root] + ([device] + Levels(rest));
    }
    forall device, rest | '/' !in device && owns(lower(device)) && AsText(topic) == Join("iot", Join(device, rest))
      ensures TopicAllowed(lower, owns, topic)
    {
      LevelsOfJoin("iot", Join(device, rest));
      LevelsOfJoin(device, rest);
    }
  }

  /** A user's frame passes exactly when the topic of a PUBLISH, unless empty, and the topics of a SUBSCRIBE are allowed. */
  lemma FrameAllowedIff(lower: string -> string, owns: string -> bool, level: byte, frame: Bytes)
    ensures FrameAllowed(lower, owns, level, frame) <==>
            && (forall topic :: topic != [] && Names(frame, topic) ==> TopicAllowed(lower, owns, topic))
            && (forall topic :: topic in SubscribeTopics(frame, level) ==> TopicAllowed(lower, owns, topic))
  {
    hide TopicAllowed, SubscribeTopics, Names, TopicSpan;
    var topics := FrameTopics(frame, level);
    forall topic ensures topic in topics <==> (topic != [] && Names(frame, topic)) || topic in SubscribeTopics(frame, level)
    {
      SpanIff(frame, topic);
      SubscribeIsTyped(frame, level);
      NamesIsTyped(frame, topic);
    }
  }

  lemma SubscribeIsTyped(frame: Bytes, level: byte)
    ensures SubscribeTopics(frame, level) != [] ==> |frame| >= 2 && frame[0] / 16 == 8
  {
  }

  lemma NamesIsTyped(frame: Bytes, topic: Bytes)
    ensures Names(frame, topic) ==> |frame| >= 2 && frame[0] / 16 == 3
  {
  }

  /** What a user may send besides: every other packet, and a PUBLISH or SUBSCRIBE in which no topic can be read. */
  lemma OtherFramesPass(lower: string -> string, owns: string -> bool, level: byte, frame: Bytes)
    requires |frame| >= 2 ==>
               && (frame[0] / 16 == 3 ==> forall topic :: Names(frame, topic) ==> topic == [])
               && (frame[0] / 16 == 8 ==> SubscribeTopics(frame, level) == [])
    ensures FrameAllowed(lower, owns, level, frame)
  {
    FrameAllowedIff(lower, owns, level, frame);
    if |frame| < 2 || frame[0] / 16 != 8 {
      SubscribeIsTyped(frame, level);
    }
    NamesIsTyped(frame, []);
  }

  /** A user's PUBLISH written by the standard passes exactly when it names no topic or an allowed one. */
  lemma {:induction false} PublishAllowedIff(lower: string -> string, owns: string -> bool, level: byte, p: Publish)
    requires p.Valid(level)
    ensures FrameAllowed(lower, owns, level, EncodePublish(p, level)) <==>
            p.topic == [] || TopicAllowed(lower, owns, p.topic)
  {
    hide EncodePublish, TopicSpan, TopicAllowed, SubscribeTopics, PublishHeader, At;
    var frame := EncodePublish(p, level);
    var to := TopicRead(p, level);
    HeaderBits(p);
    assert FrameTopics(frame, level) == if p.topic == [] then [] else [p.topic];
    if FrameAllowed(lower, owns, level, frame) && p.topic != [] {
      assert TopicAllowed(lower, owns, FrameTopics(frame, level)[0]);
    }
  }

  /** A user's SUBSCRIBE written by the standard passes exactly when all its topics are allowed. */
  lemma {:induction false} SubscribeAllowedIff(
      lower: string -> string, owns: string -> bool, level: byte, id: nat, props: Bytes, filters: seq<Filter>)
    requires id < 65536 && |props| <= MAX_REMAINING && |SubscribeBody(id, level, props, filters)| <= MAX_REMAINING
    ensures FrameAllowed(lower, owns, level, EncodePacket(0x82, SubscribeBody(id, level, props, filters))) <==>
            forall i :: 0 <= i < |Topics(filters)| ==> TopicAllowed(lower, owns, Topics(filters)[i])
  {
    hide TopicSpan, TopicAllowed, SubscribeTopics, SubscribeBody, EncodeVarint;
    SubscribeRoundTrip(id, level, props, filters);
    assert FrameTopics(EncodePacket(0x82, SubscribeBody(id, level, props, filters)), level) == Topics(filters);
  }
}
