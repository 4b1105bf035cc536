/** The two packets the gateway looks inside: SUBSCRIBE (section 3.8 of MQTT 3.1.1 and 5.0) for its topics,
    CONNECT (section 3.1 of both) for the credentials and the keep-alive. */
module MqttPackets {
  import opened Options
  import opened MqttWire

  // A length-prefixed field can hold at most 65535 bytes.
  type Str = s: Bytes | |s| < 65536

  // ---------- encoding, from the standards ----------

  function EncodeNumber(n: nat): (e: Bytes)
    requires n < 65536
    ensures |e| == 2
  {
    [(n / 256) as byte, (n % 256) as byte]
  }

  function EncodeStr(s: Str): (e: Bytes)
    ensures |e| == 2 + |s|
  {
    EncodeNumber(|s|) + s
  }

  function EncodeProperties(level: byte, props: Bytes): Bytes {
    if level == 5 then EncodeVarint(|props|) + props else []
  }

  datatype Filter = Filter(topic: Str, options: byte)

  function EncodeFilters(filters: seq<Filter>): Bytes {
    if filters == [] then []
    else EncodeStr(filters[0].topic) + [filters[0].options] + EncodeFilters(filters[1..])
  }

  function Topics(filters: seq<Filter>): seq<Bytes> {
    if filters == [] then [] else [filters[0].topic] + Topics(filters[1..])
  }

  function SubscribeBody(id: nat, level: byte, props: Bytes, filters: seq<Filter>): Bytes
    requires id < 65536
  {
    EncodeNumber(id) + (EncodeProperties(level, props) + EncodeFilters(filters))
  }

  datatype Will = Will(qos: nat, retain: bool, props: Bytes, topic: Str, message: Str)

  datatype Connect = Connect(
    name: Str, level: byte, clean: bool, keepAlive: nat, props: Bytes,
    clientID: Str, will: Option<Will>, username: Option<Str>, password: Option<Str>)
  {
    predicate Valid() {
      && keepAlive < 65536
      && (will.Some? ==> will.value.qos <= 2)
      && |props| <= MAX_REMAINING
      && |ConnectBody(this)| <= MAX_REMAINING
    }
  }

  function Flags(c: Connect): byte
    requires c.will.Some? ==> c.will.value.qos <= 2
  {
    (if c.username.Some? then 128 else 0)
    + (if c.password.Some? then 64 else 0)
    + (if c.will.Some? then (if c.will.value.retain then 32 else 0) + 8 * c.will.value.qos as byte + 4 else 0)
    + (if c.clean then 2 else 0)
  }

  function EncodeWill(level: byte, will: Option<Will>): (e: Bytes)
    ensures will.None? ==> e == []
  {
    if will.None? then []
    else EncodeProperties(level, will.value.props) + (EncodeStr(will.value.topic) + EncodeStr(will.value.message))
  }

  function EncodeOptional(field: Option<Str>): Bytes {
    if field.None? then [] else EncodeStr(field.value)
  }

  function EncodeLogin(c: Connect): Bytes {
    EncodeOptional(c.username) + EncodeOptional(c.password)
  }

  function ConnectPayload(c: Connect): Bytes {
    EncodeStr(c.clientID) + (EncodeWill(c.level, c.will) + EncodeLogin(c))
  }

  // Level, flags and keep-alive.
  function ConnectFixed(c: Connect): Bytes
    requires c.keepAlive < 65536
    requires c.will.Some? ==> c.will.value.qos <= 2
  {
    [c.level, Flags(c)] + EncodeNumber(c.keepAlive)
  }

  function ConnectBody(c: Connect): Bytes
    requires c.keepAlive < 65536
    requires c.will.Some? ==> c.will.value.qos <= 2
  {
    EncodeStr(c.name) + (ConnectFixed(c) + (EncodeProperties(c.level, c.props) + ConnectPayload(c)))
  }

  // ---------- reading pieces at a position ----------

  function Number(packet: Bytes, pos: nat): nat
    requires pos + 2 <= |packet|
  {
    packet[pos] as nat * 256 + packet[pos + 1] as nat
  }

  function AfterProperties(packet: Bytes, pos: nat): Option<nat> {
    match DecodeVarint(packet, pos)
    case NoVarint => None
    case Varint(length, next) => if next + length <= |packet| then Some(next + length) else None
  }

  // A length-prefixed field is passed over. Only its length has to be there: the result may lie past the end.
  function AfterField(packet: Bytes, pos: nat): Option<nat> {
    if pos + 2 > |packet| then None else Some(pos + 2 + Number(packet, pos))
  }

  // chunk stands at position pos of packet.
  ghost predicate At(packet: Bytes, pos: nat, chunk: Bytes) {
    pos + |chunk| <= |packet| && packet[pos..pos + |chunk|] == chunk
  }

  lemma AtByte(packet: Bytes, pos: nat, chunk: Bytes, i: nat)
    requires At(packet, pos, chunk) && i < |chunk|
    ensures packet[pos + i] == chunk[i]
  {
    assert packet[pos..pos + |chunk|][i] == packet[pos + i];
  }

  lemma AtSplit(packet: Bytes, pos: nat, a: Bytes, b: Bytes)
    requires At(packet, pos, a + b)
    ensures At(packet, pos, a) && At(packet, pos + |a|, b)
  {
    var whole := packet[pos..pos + |a + b|];
    assert packet[pos..pos + |a|] == whole[..|a|] == a;
    assert packet[pos + |a|..pos + |a| + |b|] == whole[|a|..] == b;
  }

  lemma AtNumber(packet: Bytes, pos: nat, n: nat)
    requires n < 65536 && At(packet, pos, EncodeNumber(n))
    ensures Number(packet, pos) == n
  {
    AtByte(packet, pos, EncodeNumber(n), 0);
    AtByte(packet, pos, EncodeNumber(n), 1);
  }

  lemma AtStr(packet: Bytes, pos: nat, s: Str)
    requires At(packet, pos, EncodeStr(s))
    ensures pos + 2 + |s| <= |packet| && Number(packet, pos) == |s| && packet[pos + 2..pos + 2 + |s|] == s
    ensures AfterField(packet, pos) == Some(pos + |EncodeStr(s)|)
  {
    AtSplit(packet, pos, EncodeNumber(|s|), s);
    AtNumber(packet, pos, |s|);
  }

  lemma AtVarint(packet: Bytes, pos: nat, n: nat)
    requires n <= MAX_REMAINING && At(packet, pos, EncodeVarint(n))
    ensures DecodeVarint(packet, pos) == Varint(n, pos + |EncodeVarint(n)|)
  {
    var end := pos + |EncodeVarint(n)|;
    assert packet == packet[..pos] + EncodeVarint(n) + packet[end..];
    VarintRoundTrip(packet[..pos], n, packet[end..]);
  }

  lemma AtProperties(packet: Bytes, pos: nat, level: byte, props: Bytes)
    requires |props| <= MAX_REMAINING && At(packet, pos, EncodeProperties(level, props))
    ensures (if level == 5 then AfterProperties(packet, pos) else Some(pos))
         == Some(pos + |EncodeProperties(level, props)|)
  {
    if level == 5 {
      AtSplit(packet, pos, EncodeVarint(|props|), props);
      AtVarint(packet, pos, |props|);
    }
  }

  lemma AtBody(header: byte, body: Bytes)
    requires |body| <= MAX_REMAINING
    ensures var packet := EncodePacket(header, body);
            var start := 1 + |EncodeVarint(|body|)|;
            && packet[0] == header && |packet| == start + |body|
            && DecodeVarint(packet, 1) == Varint(|body|, start) && At(packet, start, body)
  {
    VarintRoundTrip([header], |body|, body);
  }

  // ---------- SUBSCRIBE ----------

  // The topics from a position on, up to an end too short to hold a length; nothing if an entry is cut off.
  function TopicsAt(frame: Bytes, pos: nat): Option<seq<Bytes>>
    decreases |frame| - pos
  {
    if pos + 2 > |frame| then Some([])
    else
      var end := pos + 2 + Number(frame, pos);
      if end + 1 > |frame| then None
      else Prepend([frame[pos + 2..end]], TopicsAt(frame, end + 1))
  }

  // A reading that continues what has been read so far.
  function Prepend(before: seq<Bytes>, later: Option<seq<Bytes>>): Option<seq<Bytes>> {
    if later.None? then None else Some(before + later.value)
  }

  // An unreadable frame has no topics.
  function SubscribeTopics(frame: Bytes, level: byte): seq<Bytes> {
    if |frame| < 2 || frame[0] / 16 != 8 then []
    else
      var length := DecodeVarint(frame, 1);
      if length.NoVarint? || length.next + 2 > |frame| then []
      else
        var start := if level == 5 then AfterProperties(frame, length.next + 2) else Some(length.next + 2);
        if start.None? then []
        else
          match TopicsAt(frame, start.value)
          case None => []
          case Some(topics) => topics
  }

  method ReadNumber(packet: Bytes, pos: nat) returns (n: nat)
    requires pos + 2 <= |packet|
    ensures n == Number(packet, pos)
  {
    n := packet[pos] as nat * 256 + packet[pos + 1] as nat;
  }

  method ParseSubscribeTopics(frame: Bytes, level: byte) returns (topics: seq<Bytes>)
    ensures topics == SubscribeTopics(frame, level)
  {
    hide VarintWithin, TopicsAt;
    if |frame| < 2 || frame[0] / 16 != 8 {
      return [];
    }
    var _, pos, valid := MqttVarint(frame, 1);
    if !valid {
      return [];
    }
    if pos + 2 > |frame| {
      return [];
    }
    pos := pos + 2;
    if level == 5 {
      var next, skipped := MqttSkipProperties(frame, pos);
      if !skipped {
        return [];
      }
      pos := next;
    }
    topics := ParseTopics(frame, pos);
  }

  method ParseTopics(frame: Bytes, start: nat) returns (topics: seq<Bytes>)
    requires start <= |frame|
    ensures topics == match TopicsAt(frame, start) case None => [] case Some(found) => found
  {
    var pos := start;
    topics := [];
    PrependNothing(TopicsAt(frame, start));
    while pos + 2 <= |frame|
      invariant start <= pos <= |frame|
      invariant TopicsAt(frame, start) == Prepend(topics, TopicsAt(frame, pos))
      decreases |frame| - pos
    {
      var topicLen := ReadNumber(frame, pos);
      pos := pos + 2;
      if pos + topicLen > |frame| {
        return [];
      }
      ghost var later := TopicsAt(frame, pos + topicLen + 1);
      PrependTwice(topics, [frame[pos..pos + topicLen]], later);
      topics := topics + [frame[pos..pos + topicLen]];
      pos := pos + topicLen + 1;
      if pos > |frame| {
        return [];
      }
    }
    assert topics + [] == topics;
  }

  lemma PrependNothing(later: Option<seq<Bytes>>)
    ensures Prepend([], later) == later
  {
    if later.Some? {
      assert [] + later.value == later.value;
    }
  }

  lemma PrependTwice(a: seq<Bytes>, b: seq<Bytes>, later: Option<seq<Bytes>>)
    ensures Prepend(a, Prepend(b, later)) == Prepend(a + b, later)
  {
    if later.Some? {
      assert a + (b + later.value) == a + b + later.value;
    }
  }

  lemma {:induction false} FiltersRoundTrip(frame: Bytes, pos: nat, filters: seq<Filter>)
    requires At(frame, pos, EncodeFilters(filters)) && |frame| <= pos + |EncodeFilters(filters)| + 1
    ensures TopicsAt(frame, pos) == Some(Topics(filters))
    decreases |filters|
  {
    hide EncodeStr;
    if filters == [] {
    } else {
      var f, later := filters[0], EncodeFilters(filters[1..]);
      AtSplit(frame, pos, EncodeStr(f.topic) + [f.options], later);
      AtSplit(frame, pos, EncodeStr(f.topic), [f.options]);
      AtStr(frame, pos, f.topic);
      FiltersRoundTrip(frame, pos + |EncodeStr(f.topic)| + 1, filters[1..]);
    }
  }

  lemma {:induction false} TopicsComeFromFilters(frame: Bytes, pos: nat) returns (filters: seq<Filter>)
    requires pos <= |frame| && TopicsAt(frame, pos).Some?
    ensures At(frame, pos, EncodeFilters(filters)) && |frame| <= pos + |EncodeFilters(filters)| + 1
    ensures Topics(filters) == TopicsAt(frame, pos).value
    decreases |frame| - pos
  {
    hide EncodeStr, EncodeFilters, Topics, At, Number;
    if pos + 2 > |frame| {
      filters := [];
      NoFilters(frame, pos);
    } else {
      var end := pos + 2 + Number(frame, pos);
      var more := TopicsComeFromFilters(frame, end + 1);
      var f := FilterAt(frame, pos);
      filters := [f] + more;
      FiltersCons(f, more);
      AtJoin(frame, pos, EncodeStr(f.topic) + [f.options], EncodeFilters(more));
    }
  }

  lemma NoFilters(frame: Bytes, pos: nat)
    requires pos <= |frame|
    ensures EncodeFilters([]) == [] && Topics([]) == [] && At(frame, pos, [])
  {
  }

  // One length-prefixed topic with its option byte.
  lemma FilterAt(frame: Bytes, pos: nat) returns (f: Filter)
    requires pos + 2 <= |frame| && pos + 2 + Number(frame, pos) < |frame|
    ensures var end := pos + 2 + Number(frame, pos);
            && f.topic == frame[pos + 2..end] && |EncodeStr(f.topic)| == end - pos
            && At(frame, pos, EncodeStr(f.topic) + [f.options])
  {
    var end := pos + 2 + Number(frame, pos);
    f := Filter(frame[pos + 2..end], frame[end]);
    assert EncodeNumber(|f.topic|) == frame[pos..pos + 2];
    AtJoin(frame, pos, EncodeNumber(|f.topic|), f.topic);
    AtJoin(frame, pos, EncodeStr(f.topic), [f.options]);
  }

  lemma FiltersCons(f: Filter, more: seq<Filter>)
    ensures EncodeFilters([f] + more) == EncodeStr(f.topic) + [f.options] + EncodeFilters(more)
    ensures Topics([f] + more) == [f.topic] + Topics(more)
  {
    hide EncodeStr;
    assert ([f] + more)[0] == f && ([f] + more)[1..] == more;
  }

  lemma AtJoin(packet: Bytes, pos: nat, a: Bytes, b: Bytes)
    requires At(packet, pos, a) && At(packet, pos + |a|, b)
    ensures At(packet, pos, a + b)
  {
    var end := pos + |a| + |b|;
    assert packet[pos..end] == packet[pos..pos + |a|] + packet[pos + |a|..end];
  }

  /** The payloads accepted are exactly the encoded filter lists, give or take one trailing byte. */
  lemma TopicsReadIff(frame: Bytes, pos: nat, topics: seq<Bytes>)
    requires pos <= |frame|
    ensures TopicsAt(frame, pos) == Some(topics) <==>
            exists filters :: && At(frame, pos, EncodeFilters(filters))
                              && |frame| <= pos + |EncodeFilters(filters)| + 1
                              && Topics(filters) == topics
  {
    if TopicsAt(frame, pos) == Some(topics) {
      var filters := TopicsComeFromFilters(frame, pos);
    }
    forall filters | && At(frame, pos, EncodeFilters(filters)) && |frame| <= pos + |EncodeFilters(filters)| + 1
                     && Topics(filters) == topics
      ensures TopicsAt(frame, pos) == Some(topics)
    {
      FiltersRoundTrip(frame, pos, filters);
    }
  }

  // Where what follows the properties begins; without properties at the same place.
  predicate BehindProperties(packet: Bytes, level: byte, pos: nat, start: nat) {
    if level != 5 then start == pos
    else
      var length := DecodeVarint(packet, pos);
      length.Varint? && start == length.next + length.value <= |packet|
  }

  // A SUBSCRIBE frame with these filters from position start on, and at most one byte behind them.
  ghost predicate HasFilters(frame: Bytes, level: byte, start: nat, filters: seq<Filter>) {
    && |frame| >= 2 && frame[0] / 16 == 8
    && var length := DecodeVarint(frame, 1);
       && length.Varint? && length.next + 2 <= |frame| && BehindProperties(frame, level, length.next + 2, start)
       && At(frame, start, EncodeFilters(filters)) && |frame| <= start + |EncodeFilters(filters)| + 1
  }

  /** Topics are read from a frame exactly when it is a SUBSCRIBE whose length, identifier and properties can be passed and
      whose payload is a list of filters with those topics. */
  lemma SubscribeReadsIff(frame: Bytes, level: byte, topics: seq<Bytes>)
    requires topics != []
    ensures SubscribeTopics(frame, level) == topics <==>
            exists start, filters :: HasFilters(frame, level, start, filters) && Topics(filters) == topics
  {
    hide EncodeFilters, TopicsAt, Topics, VarintWithin, At;
    if SubscribeTopics(frame, level) == topics {
      var pos := DecodeVarint(frame, 1).next + 2;
      var start := if level == 5 then AfterProperties(frame, pos).value else pos;
      TopicsReadIff(frame, start, topics);
      var filters :| && At(frame, start, EncodeFilters(filters)) && |frame| <= start + |EncodeFilters(filters)| + 1
                     && Topics(filters) == topics;
      assert HasFilters(frame, level, start, filters);
    }
    forall start, filters | HasFilters(frame, level, start, filters) && Topics(filters) == topics
      ensures SubscribeTopics(frame, level) == topics
    {
      FiltersRoundTrip(frame, start, filters);
    }
  }

  /** Any list of topic filters written by the standard, at any protocol level, is read back. */
  lemma SubscribeRoundTrip(id: nat, level: byte, props: Bytes, filters: seq<Filter>)
    requires id < 65536 && |props| <= MAX_REMAINING
    requires |SubscribeBody(id, level, props, filters)| <= MAX_REMAINING
    ensures SubscribeTopics(EncodePacket(0x82, SubscribeBody(id, level, props, filters)), level) == Topics(filters)
  {
    hide EncodeNumber, EncodeProperties, EncodeFilters, EncodeVarint, TopicsAt, Topics, VarintWithin, AfterProperties;
    var body := SubscribeBody(id, level, props, filters);
    var frame := EncodePacket(0x82, body);
    var start := 1 + |EncodeVarint(|body|)|;
    AtBody(0x82, body);
    AtSplit(frame, start, EncodeNumber(id), EncodeProperties(level, props) + EncodeFilters(filters));
    AtSplit(frame, start + 2, EncodeProperties(level, props), EncodeFilters(filters));
    AtProperties(frame, start + 2, level, props);
    FiltersRoundTrip(frame, start + 2 + |EncodeProperties(level, props)|, filters);
  }

  // ---------- CONNECT ----------

  // Panicked: the slice taken for the client ID ran past the capacity of the buffer.
  datatype Outcome =
    | Credentials(clientID: Bytes, username: Bytes, password: Bytes, level: byte, keepAlive: nat)
    | Rejected
    | Panicked

  // The flag bits 0x80, 0x40 and 0x04.
  predicate HasUsername(flags: byte) { flags / 128 == 1 }
  predicate HasPassword(flags: byte) { flags / 64 % 2 == 1 }
  predicate HasWill(flags: byte) { flags / 4 % 2 == 1 }

  // The length of the will properties is taken from one byte.
  function AfterWillProperties(packet: Bytes, pos: nat): Option<nat> {
    if pos >= |packet| then None else Some(pos + 1 + packet[pos] as nat)
  }

  function AfterWill(level: byte, packet: Bytes, pos: nat): Option<nat> {
    var topic := if level == 5 then AfterWillProperties(packet, pos) else Some(pos);
    if topic.None? then None
    else
      var message := AfterField(packet, topic.value);
      if message.None? then None else AfterField(packet, message.value)
  }

  // An optional field: its bytes and the position behind it.
  function Field(present: bool, packet: Bytes, pos: nat): Option<(Bytes, nat)> {
    if !present then Some(([], pos))
    else if pos + 2 > |packet| || pos + 2 + Number(packet, pos) > |packet| then None
    else Some((packet[pos + 2..pos + 2 + Number(packet, pos)], pos + 2 + Number(packet, pos)))
  }

  function AfterClientID(packet: Bytes, pos: nat, clientID: Bytes, flags: byte, level: byte, keepAlive: nat): Outcome {
    var user := if HasWill(flags) then AfterWill(level, packet, pos) else Some(pos);
    if user.None? then Rejected
    else
      var username := Field(HasUsername(flags), packet, user.value);
      if username.None? then Rejected
      else
        var password := Field(HasPassword(flags), packet, username.value.1);
        if password.None? then Rejected
        else Credentials(clientID, username.value.0, password.value.0, level, keepAlive)
  }

  // spare is what lies behind the packet in the same buffer, up to its capacity.
  function FromPayload(packet: Bytes, pos: nat, spare: Bytes, flags: byte, level: byte, keepAlive: nat): Outcome {
    if pos + 2 > |packet| then Rejected
    else
      var end := pos + 2 + Number(packet, pos);
      if end > |packet + spare| then Panicked
      else AfterClientID(packet, end, (packet + spare)[pos + 2..end], flags, level, keepAlive)
  }

  // Where the four fixed bytes after the protocol name begin.
  function FixedPart(packet: Bytes): Option<nat> {
    if |packet| < 2 || packet[0] != 0x10 then None
    else
      match DecodeVarint(packet, 1)
      case NoVarint => None
      case Varint(_, start) =>
        var pos := AfterField(packet, start);
        if pos.None? || pos.value + 4 > |packet| then None else pos
  }

  function PayloadStart(packet: Bytes, pos: nat): Option<nat>
    requires pos + 4 <= |packet|
  {
    if packet[pos] == 5 then AfterProperties(packet, pos + 4) else Some(pos + 4)
  }

  function ConnectCredentials(packet: Bytes, spare: Bytes): Outcome {
    var pos := FixedPart(packet);
    if pos.None? || PayloadStart(packet, pos.value).None? then Rejected
    else
      FromPayload(packet, PayloadStart(packet, pos.value).value, spare,
                  packet[pos.value + 1], packet[pos.value], Number(packet, pos.value + 2))
  }

  method ParseConnectCredentials(packet: Bytes, spare: Bytes) returns (r: Outcome)
    ensures r == ConnectCredentials(packet, spare)
  {
    hide VarintWithin, AfterClientID;
    if |packet| < 2 || packet[0] != 0x10 {
      return Rejected;
    }
    var _, pos, valid := MqttVarint(packet, 1);
    if !valid {
      return Rejected;
    }
    if pos + 2 > |packet| {
      return Rejected;
    }
    var nameLen := ReadNumber(packet, pos);
    pos := pos + 2 + nameLen;
    if pos + 4 > |packet| {
      return Rejected;
    }
    var level := packet[pos];
    var flags := packet[pos + 1];
    var keepAlive := ReadNumber(packet, pos + 2);
    pos := pos + 4;
    if level == 5 {
      var next, skipped := MqttSkipProperties(packet, pos);
      if !skipped {
        return Rejected;
      }
      pos := next;
    }
    if pos + 2 > |packet| {
      return Rejected;
    }
    var cidLen := ReadNumber(packet, pos);
    if pos + 2 + cidLen > |packet| + |spare| {
      return Panicked;
    }
    var clientID := (packet + spare)[pos + 2..pos + 2 + cidLen];
    pos := pos + 2 + cidLen;
    r := ParseWillAndLogin(packet, pos, clientID, flags, level, keepAlive);
  }

  method ParseWillAndLogin(packet: Bytes, start: nat, clientID: Bytes, flags: byte, level: byte, keepAlive: nat)
    returns (r: Outcome)
    ensures r == AfterClientID(packet, start, clientID, flags, level, keepAlive)
  {
    hide AfterWill, Field;
    var pos := start;
    if HasWill(flags) {
      var after, ok := SkipWill(packet, pos, level);
      if !ok {
        return Rejected;
      }
      pos := after;
    }
    var username, afterUser, userOk := ParseField(packet, pos, HasUsername(flags));
    if !userOk {
      return Rejected;
    }
    var password, _, passOk := ParseField(packet, afterUser, HasPassword(flags));
    if !passOk {
      return Rejected;
    }
    return Credentials(clientID, username, password, level, keepAlive);
  }

  method SkipWill(packet: Bytes, start: nat, level: byte) returns (pos: nat, ok: bool)
    ensures AfterWill(level, packet, start) == if ok then Some(pos) else None
  {
    pos := start;
    if level == 5 {
      if pos >= |packet| {
        return pos, false;
      }
      var wpLen := packet[pos] as nat;
      pos := pos + 1 + wpLen;
    }
    if pos + 2 > |packet| {
      return pos, false;
    }
    var wtLen := ReadNumber(packet, pos);
    pos := pos + 2 + wtLen;
    if pos + 2 > |packet| {
      return pos, false;
    }
    var wmLen := ReadNumber(packet, pos);
    return pos + 2 + wmLen, true;
  }

  method ParseField(packet: Bytes, start: nat, present: bool) returns (field: Bytes, pos: nat, ok: bool)
    ensures Field(present, packet, start) == if ok then Some((field, pos)) else None
  {
    field, pos := [], start;
    if present {
      if pos + 2 > |packet| {
        return field, pos, false;
      }
      var n := ReadNumber(packet, pos);
      pos := pos + 2;
      if pos + n > |packet| {
        return field, pos, false;
      }
      field := packet[pos..pos + n];
      pos := pos + n;
    }
    return field, pos, true;
  }

  lemma FlagsRead(c: Connect)
    requires c.will.Some? ==> c.will.value.qos <= 2
    ensures HasUsername(Flags(c)) == c.username.Some?
    ensures HasPassword(Flags(c)) == c.password.Some?
    ensures HasWill(Flags(c)) == c.will.Some?
  {
  }

  /** The will properties are passed over correctly exactly when their length fits in one byte. */
  lemma WillPropertiesSkippedIff(packet: Bytes, pos: nat, props: Bytes)
    requires At(packet, pos, EncodeVarint(|props|) + props)
    ensures AfterWillProperties(packet, pos) == Some(pos + |EncodeVarint(|props|)| + |props|) <==> |props| < 128
  {
    AtByte(packet, pos, EncodeVarint(|props|) + props, 0);
    assert (EncodeVarint(|props|) + props)[0] == EncodeVarint(|props|)[0];
  }

  lemma WillSkipped(packet: Bytes, pos: nat, level: byte, will: Will)
    requires At(packet, pos, EncodeWill(level, Some(will)))
    requires level == 5 ==> |will.props| < 128
    ensures AfterWill(level, packet, pos) == Some(pos + |EncodeWill(level, Some(will))|)
  {
    hide EncodeProperties, EncodeStr, EncodeVarint, AfterWillProperties, Number, AfterField, At, VarintWithin;
    var props, topic, message := EncodeProperties(level, will.props), EncodeStr(will.topic), EncodeStr(will.message);
    AtSplit(packet, pos, props, topic + message);
    AtSplit(packet, pos + |props|, topic, message);
    AtStr(packet, pos + |props|, will.topic);
    AtStr(packet, pos + |props| + |topic|, will.message);
    WillPropertiesRead(packet, pos, level, will.props);
  }

  lemma WillPropertiesRead(packet: Bytes, pos: nat, level: byte, props: Bytes)
    requires At(packet, pos, EncodeProperties(level, props)) && (level == 5 ==> |props| < 128)
    ensures (if level == 5 then AfterWillProperties(packet, pos) else Some(pos))
         == Some(pos + |EncodeProperties(level, props)|)
  {
    if level == 5 {
      WillPropertiesSkippedIff(packet, pos, props);
    }
  }

  lemma FieldRead(packet: Bytes, pos: nat, field: Option<Str>)
    requires At(packet, pos, EncodeOptional(field))
    ensures Field(field.Some?, packet, pos) ==
            Some((if field.None? then [] else field.value, pos + |EncodeOptional(field)|))
  {
    if field.Some? {
      AtStr(packet, pos, field.value);
    }
  }

  function Expected(c: Connect): Outcome {
    Credentials(c.clientID,
                if c.username.None? then [] else c.username.value,
                if c.password.None? then [] else c.password.value,
                c.level, c.keepAlive)
  }

  lemma LoginRead(packet: Bytes, pos: nat, c: Connect)
    requires c.Valid() && At(packet, pos, EncodeWill(c.level, c.will) + EncodeLogin(c))
    requires c.level == 5 && c.will.Some? ==> |c.will.value.props| < 128
    ensures AfterClientID(packet, pos, c.clientID, Flags(c), c.level, c.keepAlive) == Expected(c)
  {
    hide EncodeWill, EncodeOptional, Flags, ConnectBody, AfterWill, Field;
    var will := EncodeWill(c.level, c.will);
    FlagsRead(c);
    AtSplit(packet, pos, will, EncodeLogin(c));
    AtSplit(packet, pos + |will|, EncodeOptional(c.username), EncodeOptional(c.password));
    if c.will.Some? {
      WillSkipped(packet, pos, c.level, c.will.value);
    }
    FieldRead(packet, pos + |will|, c.username);
    FieldRead(packet, pos + |will| + |EncodeOptional(c.username)|, c.password);
  }

  lemma HeaderRead(c: Connect) returns (payload: nat)
    requires c.Valid()
    ensures var packet := EncodePacket(0x10, ConnectBody(c));
            var pos := FixedPart(packet);
            && pos.Some? && packet[pos.value] == c.level && packet[pos.value + 1] == Flags(c)
            && Number(packet, pos.value + 2) == c.keepAlive
            && PayloadStart(packet, pos.value) == Some(payload) && At(packet, payload, ConnectPayload(c))
            && |packet| == payload + |ConnectPayload(c)|
  {
    hide EncodePacket, ConnectBody, EncodeProperties, ConnectPayload, Flags, FixedPart, AfterProperties;
    var packet := EncodePacket(0x10, ConnectBody(c));
    var pos := NamePassed(c);
    AtSplit(packet, pos, ConnectFixed(c), EncodeProperties(c.level, c.props) + ConnectPayload(c));
    FixedRead(packet, pos, c);
    AtSplit(packet, pos + 4, EncodeProperties(c.level, c.props), ConnectPayload(c));
    AtProperties(packet, pos + 4, c.level, c.props);
    payload := pos + 4 + |EncodeProperties(c.level, c.props)|;
  }

  lemma NamePassed(c: Connect) returns (pos: nat)
    requires c.Valid()
    ensures var packet := EncodePacket(0x10, ConnectBody(c));
            var rest := ConnectFixed(c) + (EncodeProperties(c.level, c.props) + ConnectPayload(c));
            FixedPart(packet) == Some(pos) && At(packet, pos, rest) && |packet| == pos + |rest|
  {
    hide EncodeProperties, ConnectPayload, Flags, EncodeVarint, VarintWithin;
    var packet := EncodePacket(0x10, ConnectBody(c));
    AtBody(0x10, ConnectBody(c));
    var start := 1 + |EncodeVarint(|ConnectBody(c)|)|;
    AtSplit(packet, start, EncodeStr(c.name), ConnectFixed(c) + (EncodeProperties(c.level, c.props) + ConnectPayload(c)));
    AtStr(packet, start, c.name);
    pos := start + |EncodeStr(c.name)|;
  }

  lemma FixedRead(packet: Bytes, pos: nat, c: Connect)
    requires c.Valid() && At(packet, pos, ConnectFixed(c))
    ensures packet[pos] == c.level && packet[pos + 1] == Flags(c) && Number(packet, pos + 2) == c.keepAlive
  {
    hide Flags, ConnectBody;
    AtSplit(packet, pos, [c.level, Flags(c)], EncodeNumber(c.keepAlive));
    AtByte(packet, pos, [c.level, Flags(c)], 0);
    AtByte(packet, pos, [c.level, Flags(c)], 1);
    AtNumber(packet, pos + 2, c.keepAlive);
  }

  lemma ClientIDRead(packet: Bytes, pos: nat, spare: Bytes, c: Connect)
    requires At(packet, pos, ConnectPayload(c))
    ensures var end := pos + |EncodeStr(c.clientID)|;
            && At(packet, end, EncodeWill(c.level, c.will) + EncodeLogin(c))
            && forall flags, level, keepAlive :: FromPayload(packet, pos, spare, flags, level, keepAlive)
                  == AfterClientID(packet, end, c.clientID, flags, level, keepAlive)
  {
    hide EncodeWill, EncodeLogin, AfterClientID;
    AtSplit(packet, pos, EncodeStr(c.clientID), EncodeWill(c.level, c.will) + EncodeLogin(c));
    AtStr(packet, pos, c.clientID);
    var end := pos + 2 + |c.clientID|;
    assert (packet + spare)[pos + 2..end] == packet[pos + 2..end];
  }

  /** Every CONNECT packet of the standards, whatever lies behind it in the buffer, gives back its client ID,
      user name, password, level and keep-alive, provided level-5 will properties are under 128 bytes. */
  lemma ConnectRoundTrip(c: Connect, spare: Bytes)
    requires c.Valid()
    requires c.level == 5 && c.will.Some? ==> |c.will.value.props| < 128
    ensures ConnectCredentials(EncodePacket(0x10, ConnectBody(c)), spare) == Expected(c)
  {
    hide ConnectBody, AfterClientID, EncodePacket, FixedPart, PayloadStart, FromPayload, ConnectPayload;
    hide EncodeWill, EncodeLogin;
    var packet := EncodePacket(0x10, ConnectBody(c));
    var pos := HeaderRead(c);
    ClientIDRead(packet, pos, spare, c);
    LoginRead(packet, pos + |EncodeStr(c.clientID)|, c);
  }

  // A User Property of MQTT 5.0 (identifier 0x26, two strings) of 128 bytes.
  function UserProperty(): Bytes {
    [0x26] + EncodeStr([97]) + EncodeStr(seq(122, i => 97))
  }

  function LongWillConnect(): Connect {
    var will := Will(0, false, UserProperty(), [97], []);
    Connect([77, 81, 84, 84], 5, true, 60, [], [100], Some(will), Some([98]), Some([99]))
  }

  /** The bound is tight: a conforming packet with 128 bytes of will properties is refused. */
  lemma LongWillPropertiesMisread(spare: Bytes)
    ensures var c := LongWillConnect();
            c.Valid() && ConnectCredentials(EncodePacket(0x10, ConnectBody(c)), spare) == Rejected
  {
    hide EncodePacket, ConnectBody, ConnectPayload, EncodeWill, EncodeLogin, UserProperty;
    hide FixedPart, PayloadStart, FromPayload, AfterWill;
    var c := LongWillConnect();
    var packet := EncodePacket(0x10, ConnectBody(c));
    var bytes := EncodeWill(5, c.will) + EncodeLogin(c);
    LongWillBytes();
    var pos := HeaderRead(c);
    ClientIDRead(packet, pos, spare, c);
    FlagsRead(c);
    LongWillRunsOut(packet, pos + 3, bytes);
  }

  lemma LongWillProperties()
    ensures |UserProperty()| == 128 && UserProperty()[127] == 97
    ensures EncodeProperties(5, UserProperty()) == [128, 1] + UserProperty()
  {
    assert EncodeVarint(1) == [1];
    assert EncodeVarint(128) == [128, 1];
  }

  lemma LongWillBytes()
    ensures var c := LongWillConnect();
            var bytes := EncodeWill(5, c.will) + EncodeLogin(c);
            && c.Valid() && |ConnectPayload(c)| == 3 + |bytes| && |bytes| == 141 && bytes[0] == 128
            && bytes[129] == 97 && bytes[130] == 0
  {
    hide UserProperty, EncodeProperties, EncodeVarint;
    var c := LongWillConnect();
    LongWillProperties();
    assert EncodeStr([97]) == [0, 1, 97] && EncodeStr([]) == [0, 0] && EncodeStr([98]) == [0, 1, 98];
    assert |EncodeProperties(5, c.props)| <= 2 by {
      NoProperties();
    }
    var will := EncodeWill(5, c.will);
    assert will == [128, 1] + UserProperty() + ([0, 1, 97] + [0, 0]);
    assert will[129] == UserProperty()[127] && will[130] == 0;
  }

  lemma NoProperties()
    ensures |EncodeProperties(5, [])| == 1
  {
  }

  lemma LongWillRunsOut(packet: Bytes, pos: nat, bytes: Bytes)
    requires At(packet, pos, bytes) && |packet| == pos + |bytes| && |bytes| == 141
    requires bytes[0] == 128 && bytes[129] == 97 && bytes[130] == 0
    ensures AfterWill(5, packet, pos).None?
  {
    AtByte(packet, pos, bytes, 0);
    AtByte(packet, pos, bytes, 129);
    AtByte(packet, pos, bytes, 130);
    assert Number(packet, pos + 129) == 97 * 256;
  }

  lemma NumberAt(packet: Bytes, pos: nat)
    requires pos + 2 <= |packet|
    ensures Number(packet, pos) < 65536 && At(packet, pos, EncodeNumber(Number(packet, pos)))
  {
    assert packet[pos..pos + 2] == [packet[pos], packet[pos + 1]];
  }

  // A length-prefixed field, if it is to be there.
  ghost predicate FieldAt(packet: Bytes, pos: nat, present: bool, field: Str) {
    if present then At(packet, pos, EncodeStr(field)) else field == []
  }

  lemma FieldIff(packet: Bytes, pos: nat, present: bool, field: Str)
    ensures FieldAt(packet, pos, present, field) <==>
            Field(present, packet, pos) == Some((field, if present then pos + 2 + |field| else pos))
  {
    if present {
      if pos + 2 <= |packet| && pos + 2 + Number(packet, pos) <= |packet| {
        var text := packet[pos + 2..pos + 2 + Number(packet, pos)];
        StrAt(packet, pos, text);
      }
      if FieldAt(packet, pos, present, field) {
        AtStr(packet, pos, field);
      }
    }
  }

  lemma StrAt(packet: Bytes, pos: nat, s: Bytes)
    requires pos + 2 <= |packet| && pos + 2 + Number(packet, pos) <= |packet|
    requires s == packet[pos + 2..pos + 2 + Number(packet, pos)]
    ensures |s| < 65536 && At(packet, pos, EncodeStr(s))
  {
    NumberAt(packet, pos);
    AtJoin(packet, pos, EncodeNumber(|s|), s);
  }

  // Where the user name begins: behind a will, of which only the lengths have to lie in the packet.
  predicate BehindWill(packet: Bytes, level: byte, present: bool, pos: nat, end: nat) {
    if !present then end == pos
    else
      && (level == 5 ==> pos < |packet|)
      && var topic := if level == 5 then pos + 1 + packet[pos] as nat else pos;
         && topic + 2 <= |packet|
         && var message := topic + 2 + Number(packet, topic);
            message + 2 <= |packet| && end == message + 2 + Number(packet, message)
  }

  // A CONNECT packet, with what lies behind it in its buffer: protocol name, level, flags, keep-alive, properties, client
  // ID, will, user name and password, wherever each begins.
  ghost predicate HasCredentials(packet: Bytes, spare: Bytes, r: Outcome, name: Str, flags: byte, start: nat, login: nat)
    requires r.Credentials?
  {
    && |packet| >= 2 && packet[0] == 0x10 && DecodeVarint(packet, 1).Varint?
    && var fixed := DecodeVarint(packet, 1).next + 2 + |name|;
       && At(packet, fixed - 2 - |name|, EncodeStr(name)) && fixed + 4 <= |packet|
       && packet[fixed] == r.level && packet[fixed + 1] == flags && Number(packet, fixed + 2) == r.keepAlive
       && BehindProperties(packet, r.level, fixed + 4, start) && start + 2 <= |packet|
       && |r.clientID| < 65536 && At(packet + spare, start, EncodeStr(r.clientID))
       && LoginBehind(packet, start + 2 + |r.clientID|, login, r, flags)
  }

  lemma FixedIff(packet: Bytes, pos: nat)
    ensures FixedPart(packet) == Some(pos) <==>
            && |packet| >= 2 && packet[0] == 0x10 && DecodeVarint(packet, 1).Varint? && pos + 4 <= |packet|
            && exists name: Str :: pos == DecodeVarint(packet, 1).next + 2 + |name|
                                   && At(packet, DecodeVarint(packet, 1).next, EncodeStr(name))
  {
    hide EncodeStr;
    if FixedPart(packet) == Some(pos) {
      var start := DecodeVarint(packet, 1).next;
      var name := packet[start + 2..pos];
      StrAt(packet, start, name);
    }
    if && |packet| >= 2 && packet[0] == 0x10 && DecodeVarint(packet, 1).Varint? && pos + 4 <= |packet| {
      forall name: Str | pos == DecodeVarint(packet, 1).next + 2 + |name|
                         && At(packet, DecodeVarint(packet, 1).next, EncodeStr(name))
        ensures FixedPart(packet) == Some(pos)
      {
        AtStr(packet, DecodeVarint(packet, 1).next, name);
      }
    }
  }

  lemma {:induction false} LoginIff(packet: Bytes, pos: nat, r: Outcome, flags: byte)
    requires r.Credentials?
    ensures AfterClientID(packet, pos, r.clientID, flags, r.level, r.keepAlive) == r <==>
            exists login :: LoginBehind(packet, pos, login, r, flags)
  {
    hide LoginAt, BehindWill, AfterWill, Field;
    if AfterClientID(packet, pos, r.clientID, flags, r.level, r.keepAlive) == r {
      var login := if HasWill(flags) then AfterWill(r.level, packet, pos).value else pos;
      WillIff(packet, r.level, HasWill(flags), pos, login);
      LoginFrom(packet, pos, r, flags, login);
      assert LoginBehind(packet, pos, login, r, flags);
    }
    forall login | LoginBehind(packet, pos, login, r, flags)
      ensures AfterClientID(packet, pos, r.clientID, flags, r.level, r.keepAlive) == r
    {
      LoginFrom(packet, pos, r, flags, login);
    }
  }

  lemma WillIff(packet: Bytes, level: byte, present: bool, pos: nat, end: nat)
    ensures BehindWill(packet, level, present, pos, end) <==>
            (if present then AfterWill(level, packet, pos) else Some(pos)) == Some(end)
  {
  }

  ghost predicate LoginAt(packet: Bytes, login: nat, r: Outcome, flags: byte)
    requires r.Credentials?
  {
    && |r.username| < 65536 && FieldAt(packet, login, flags / 128 == 1, r.username)
    && |r.password| < 65536
    && FieldAt(packet, if flags / 128 == 1 then login + 2 + |r.username| else login, flags / 64 % 2 == 1, r.password)
  }

  ghost predicate LoginBehind(packet: Bytes, pos: nat, login: nat, r: Outcome, flags: byte)
    requires r.Credentials?
  {
    BehindWill(packet, r.level, flags / 4 % 2 == 1, pos, login) && LoginAt(packet, login, r, flags)
  }

  lemma LoginFrom(packet: Bytes, pos: nat, r: Outcome, flags: byte, login: nat)
    requires r.Credentials? && BehindWill(packet, r.level, flags / 4 % 2 == 1, pos, login)
    ensures AfterClientID(packet, pos, r.clientID, flags, r.level, r.keepAlive) == r <==> LoginAt(packet, login, r, flags)
  {
    hide FieldAt, At, AfterWill, BehindWill, Field;
    WillIff(packet, r.level, HasWill(flags), pos, login);
    FieldIsShort(packet, login, HasUsername(flags));
    if |r.username| < 65536 {
      FieldIff(packet, login, HasUsername(flags), r.username);
      var next := if HasUsername(flags) then login + 2 + |r.username| else login;
      FieldIsShort(packet, next, HasPassword(flags));
      if |r.password| < 65536 {
        FieldIff(packet, next, HasPassword(flags), r.password);
      }
    }
  }

  lemma FieldIsShort(packet: Bytes, pos: nat, present: bool)
    ensures var field := Field(present, packet, pos);
            field.Some? ==> |field.value.0| < 65536 && field.value.1 == if present then pos + 2 + |field.value.0| else pos
  {
    if pos + 2 <= |packet| {
      NumberAt(packet, pos);
    }
  }

  /** A login is read from a packet exactly when it is a CONNECT with these fields: whatever is not of that form is
      rejected, or panics. */
  lemma ConnectReadsIff(packet: Bytes, spare: Bytes, r: Outcome)
    requires r.Credentials?
    ensures ConnectCredentials(packet, spare) == r <==>
            exists name: Str, flags, start, login :: HasCredentials(packet, spare, r, name, flags, start, login)
  {
    if ConnectCredentials(packet, spare) == r {
      ConnectReads(packet, spare, r);
    }
    forall name: Str, flags, start, login | HasCredentials(packet, spare, r, name, flags, start, login)
      ensures ConnectCredentials(packet, spare) == r
    {
      ConnectIsRead(packet, spare, r, name, flags, start, login);
    }
  }

  lemma ConnectReads(packet: Bytes, spare: Bytes, r: Outcome)
    requires r.Credentials? && ConnectCredentials(packet, spare) == r
    ensures exists name: Str, flags, start, login :: HasCredentials(packet, spare, r, name, flags, start, login)
  {
    hide At, EncodeStr, LoginBehind, AfterClientID, FixedPart, VarintWithin;
    var pos := FixedPart(packet).value;
    FixedIff(packet, pos);
    var name: Str :| pos == DecodeVarint(packet, 1).next + 2 + |name|
                     && At(packet, DecodeVarint(packet, 1).next, EncodeStr(name));
    var start, flags := PayloadStart(packet, pos).value, packet[pos + 1];
    var end := start + 2 + Number(packet, start);
    var clientID := (packet + spare)[start + 2..end];
    assert Number(packet + spare, start) == Number(packet, start);
    StrAt(packet + spare, start, clientID);
    ReadFields(packet, end, clientID, flags, packet[pos], Number(packet, pos + 2));
    LoginIff(packet, end, r, flags);
    var login :| LoginBehind(packet, end, login, r, flags);
    assert HasCredentials(packet, spare, r, name, flags, start, login);
  }

  lemma ReadFields(packet: Bytes, pos: nat, clientID: Bytes, flags: byte, level: byte, keepAlive: nat)
    ensures var r := AfterClientID(packet, pos, clientID, flags, level, keepAlive);
            r.Credentials? ==> r.clientID == clientID && r.level == level && r.keepAlive == keepAlive
  {
  }

  lemma ConnectIsRead(packet: Bytes, spare: Bytes, r: Outcome, name: Str, flags: byte, start: nat, login: nat)
    requires r.Credentials? && HasCredentials(packet, spare, r, name, flags, start, login)
    ensures ConnectCredentials(packet, spare) == r
  {
    hide At, EncodeStr, LoginBehind, AfterClientID, FixedPart, VarintWithin;
    var pos := DecodeVarint(packet, 1).next + 2 + |name|;
    FixedIff(packet, pos);
    AtStr(packet + spare, start, r.clientID);
    assert Number(packet + spare, start) == Number(packet, start);
    LoginIff(packet, start + 2 + |r.clientID|, r, flags);
  }

  // The client ID field announces more bytes than the packet holds.
  predicate ClientIDOverruns(packet: Bytes) {
    var pos := FixedPart(packet);
    && pos.Some? && PayloadStart(packet, pos.value).Some?
    && var start := PayloadStart(packet, pos.value).value;
       start + 2 <= |packet| < start + 2 + Number(packet, start)
  }

  /** The parser is safe, and sees only the packet, exactly when the client ID lies inside the packet. */
  lemma ConnectSafeIff(packet: Bytes)
    ensures (forall spare: Bytes :: ConnectCredentials(packet, spare) != Panicked) <==> !ClientIDOverruns(packet)
    ensures !ClientIDOverruns(packet) ==>
            forall spare: Bytes :: ConnectCredentials(packet, spare) == ConnectCredentials(packet, [])
  {
    if ClientIDOverruns(packet) {
      assert ConnectCredentials(packet, []) == Panicked;
    } else {
      forall spare: Bytes
        ensures ConnectCredentials(packet, spare) == ConnectCredentials(packet, []) != Panicked
      {
        var pos := FixedPart(packet);
        if pos.Some? && PayloadStart(packet, pos.value).Some? {
          var start := PayloadStart(packet, pos.value).value;
          if start + 2 <= |packet| {
            var end := start + 2 + Number(packet, start);
            assert (packet + spare)[start + 2..end] == packet[start + 2..end] == (packet + [])[start + 2..end];
          }
        }
      }
    }
  }

  /** Such a packet: its client ID announces five bytes, and the packet ends. */
  lemma OverrunPanics()
    ensures var packet := [0x10, 12, 0, 4, 77, 81, 84, 84, 4, 2, 0, 60, 0, 5];
            IsPacket(packet) && ClientIDOverruns(packet) && ConnectCredentials(packet, []) == Panicked
  {
    var packet: Bytes := [0x10, 12, 0, 4, 77, 81, 84, 84, 4, 2, 0, 60, 0, 5];
    assert DecodeVarint(packet, 1) == Varint(12, 2);
    assert FixedPart(packet) == Some(8);
    assert |packet + []| == 14;
  }
}
