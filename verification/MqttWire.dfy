/** The MQTT variable byte integer and fixed header, read the way the gateway reads them.
    The encoder is the one of MQTT 3.1.1 section 2.2.3 and MQTT 5.0 section 1.5.5. */
module MqttWire {
  import opened Options

  newtype byte = b: int | 0 <= b < 256
  type Bytes = seq<byte>

  // The largest value four variable-length bytes can carry.
  const MAX_REMAINING := 268435455

  datatype Varint = Varint(value: nat, next: nat) | NoVarint

  // ---------- encoding, from the standard ----------

  function EncodeVarint(n: nat): (e: Bytes)
    ensures 1 <= |e|
  {
    if n < 128 then [n as byte] else [(n % 128 + 128) as byte] + EncodeVarint(n / 128)
  }

  function EncodePacket(header: byte, body: Bytes): Bytes {
    [header] + EncodeVarint(|body|) + body
  }

  // ---------- decoding ----------

  // The integer at position pos of buf, in at most left bytes.
  function VarintWithin(buf: Bytes, pos: nat, left: nat): (v: Varint)
    ensures v.Varint? ==> pos < v.next <= |buf| && v.next <= pos + left
    decreases left
  {
    if left == 0 || pos >= |buf| then NoVarint
    else if buf[pos] < 128 then Varint(buf[pos] as nat, pos + 1)
    else
      match VarintWithin(buf, pos + 1, left - 1)
      case NoVarint => NoVarint
      case Varint(value, next) => Varint(buf[pos] as nat - 128 + 128 * value, next)
  }

  function DecodeVarint(buf: Bytes, start: nat): Varint {
    VarintWithin(buf, start, 4)
  }

  function TotalLength(packet: Bytes): (total: Option<nat>)
    ensures total.Some? ==> 2 <= total.value
  {
    if |packet| < 2 || packet[0] < 16 then None
    else
      match DecodeVarint(packet, 1)
      case NoVarint => None
      case Varint(value, next) => Some(next + value)
  }

  // A buffer that is one whole packet and nothing else.
  predicate IsPacket(p: Bytes) {
    TotalLength(p) == Some(|p|)
  }

  // 128 to the power i.
  function Weight(i: nat): nat {
    if i == 0 then 1 else 128 * Weight(i - 1)
  }

  // What the loop still has to add: the bytes behind it count mul times as much.
  ghost function Resume(value: nat, mul: nat, rest: Varint): Varint {
    match rest
    case NoVarint => NoVarint
    case Varint(v, n) => Varint(value + mul * v, n)
  }

  lemma ResumeStep(buf: Bytes, pos: nat, left: nat, value: nat, mul: nat)
    requires 0 < left && pos < |buf|
    ensures Resume(value, mul, VarintWithin(buf, pos, left)) ==
            if buf[pos] < 128 then Varint(value + buf[pos] as nat % 128 * mul, pos + 1)
            else Resume(value + buf[pos] as nat % 128 * mul, mul * 128, VarintWithin(buf, pos + 1, left - 1))
  {
    hide Weight;
    var d := buf[pos] as nat % 128;
    if buf[pos] >= 128 && VarintWithin(buf, pos + 1, left - 1).Varint? {
      var v := VarintWithin(buf, pos + 1, left - 1).value;
      assert mul * (d + 128 * v) == d * mul + mul * 128 * v;
    }
  }

  method MqttVarint(buf: Bytes, start: nat) returns (value: nat, next: nat, ok: bool)
    ensures ok == DecodeVarint(buf, start).Varint?
    ensures ok ==> DecodeVarint(buf, start) == Varint(value, next)
    ensures !ok ==> value == 0
  {
    var mul: nat, pos: nat := 1, start;
    value := 0;
    for i := 0 to 4
      invariant pos == start + i
      invariant DecodeVarint(buf, start) == Resume(value, mul, VarintWithin(buf, pos, 4 - i))
    {
      if pos >= |buf| {
        return 0, pos, false;
      }
      var b := buf[pos] as nat;
      ResumeStep(buf, pos, 4 - i, value, mul);
      value := value + b % 128 * mul;
      mul := mul * 128;
      pos := pos + 1;
      if b < 128 {
        return value, pos, true;
      }
    }
    return 0, pos, false;
  }

  method MqttPacketTotalLength(packet: Bytes) returns (total: nat, ok: bool)
    ensures ok == TotalLength(packet).Some?
    ensures ok ==> TotalLength(packet) == Some(total)
  {
    if |packet| < 2 || packet[0] / 16 == 0 {
      return 0, false;
    }
    var rl, pos, valid := MqttVarint(packet, 1);
    if !valid {
      return 0, false;
    }
    return pos + rl, true;
  }

  method MqttSkipProperties(buf: Bytes, pos: nat) returns (next: nat, ok: bool)
    ensures ok == (var v := DecodeVarint(buf, pos); v.Varint? && v.next + v.value <= |buf|)
    ensures ok ==> next == DecodeVarint(buf, pos).next + DecodeVarint(buf, pos).value
    ensures !ok ==> next == pos
  {
    var propLen, after, valid := MqttVarint(buf, pos);
    if !valid {
      return pos, false;
    }
    after := after + propLen;
    if after > |buf| {
      return pos, false;
    }
    return after, true;
  }

  // ---------- properties ----------

  lemma {:induction false} EncodedAt(prefix: Bytes, n: nat, suffix: Bytes, left: nat)
    requires 1 <= left && n < Weight(left)
    ensures VarintWithin(prefix + EncodeVarint(n) + suffix, |prefix|, left)
         == Varint(n, |prefix| + |EncodeVarint(n)|)
    decreases left
  {
    var buf := prefix + EncodeVarint(n) + suffix;
    assert buf[|prefix|] == EncodeVarint(n)[0];
    if n >= 128 {
      var head := (n % 128 + 128) as byte;
      assert buf == (prefix + [head]) + EncodeVarint(n / 128) + suffix;
      EncodedAt(prefix + [head], n / 128, suffix, left - 1);
    }
  }

  /** Every value of four bytes or fewer, encoded by the standard anywhere in a buffer, is read back. */
  lemma VarintRoundTrip(prefix: Bytes, n: nat, suffix: Bytes)
    requires n <= MAX_REMAINING
    ensures DecodeVarint(prefix + EncodeVarint(n) + suffix, |prefix|) == Varint(n, |prefix| + |EncodeVarint(n)|)
  {
    assert Weight(4) == 128 * (128 * (128 * 128));
    EncodedAt(prefix, n, suffix, 4);
  }

  lemma {:induction false} VarintBoundWithin(buf: Bytes, pos: nat, left: nat)
    ensures VarintWithin(buf, pos, left).Varint? ==> VarintWithin(buf, pos, left).value < Weight(left)
    decreases left
  {
    if left > 0 && pos < |buf| && buf[pos] >= 128 {
      VarintBoundWithin(buf, pos + 1, left - 1);
    }
    WeightPositive(left);
  }

  lemma WeightPositive(i: nat)
    ensures 1 <= Weight(i) && (i > 0 ==> 128 <= Weight(i))
  {
  }

  /** Nothing above 268435455 is ever decoded, and at most four bytes are taken. */
  lemma VarintBound(buf: Bytes, start: nat)
    requires DecodeVarint(buf, start).Varint?
    ensures DecodeVarint(buf, start).value <= MAX_REMAINING
    ensures start < DecodeVarint(buf, start).next <= start + 4
  {
    VarintBoundWithin(buf, start, 4);
    assert Weight(4) == 128 * (128 * (128 * 128));
  }

  lemma {:induction false} CanonicalWithin(buf: Bytes, pos: nat, left: nat)
    requires VarintWithin(buf, pos, left).Varint?
    ensures var v := VarintWithin(buf, pos, left);
            buf[pos..v.next] == EncodeVarint(v.value) <==> (v.next == pos + 1 || buf[v.next - 1] != 0)
    decreases left
  {
    var v := VarintWithin(buf, pos, left);
    if buf[pos] >= 128 {
      var tail := VarintWithin(buf, pos + 1, left - 1);
      CanonicalWithin(buf, pos + 1, left - 1);
      TerminalByte(buf, pos + 1, left - 1);
      assert v.value == buf[pos] as nat - 128 + 128 * tail.value;
      assert buf[pos..v.next] == [buf[pos]] + buf[pos + 1..tail.next];
      if tail.value == 0 {
        ZeroValue(buf, pos + 1, left - 1);
        assert |EncodeVarint(v.value)| == 1;
      } else {
        assert v.value % 128 + 128 == buf[pos] as nat && v.value / 128 == tail.value;
        var e := [buf[pos]] + EncodeVarint(tail.value);
        assert EncodeVarint(v.value) == e;
        assert e[1..] == EncodeVarint(tail.value) && buf[pos..v.next][1..] == buf[pos + 1..tail.next];
        if tail.next == pos + 2 {
          assert buf[pos + 1] as nat == tail.value;
        }
      }
    }
  }

  lemma {:induction false} TerminalByte(buf: Bytes, pos: nat, left: nat)
    requires VarintWithin(buf, pos, left).Varint?
    ensures buf[VarintWithin(buf, pos, left).next - 1] < 128
    decreases left
  {
    if buf[pos] >= 128 {
      TerminalByte(buf, pos + 1, left - 1);
    }
  }

  lemma {:induction false} ZeroValue(buf: Bytes, pos: nat, left: nat)
    requires VarintWithin(buf, pos, left).Varint? && VarintWithin(buf, pos, left).value == 0
    ensures buf[VarintWithin(buf, pos, left).next - 1] == 0
    decreases left
  {
    if buf[pos] >= 128 {
      ZeroValue(buf, pos + 1, left - 1);
    }
  }

  /** Which accepted encodings are the standard's: exactly those whose last byte is not a padding zero. */
  lemma VarintCanonicity(buf: Bytes, start: nat)
    requires DecodeVarint(buf, start).Varint?
    ensures var v := DecodeVarint(buf, start);
            buf[start..v.next] == EncodeVarint(v.value) <==> (v.next == start + 1 || buf[v.next - 1] != 0)
  {
    CanonicalWithin(buf, start, 4);
  }

  lemma {:induction false} VarintExtends(buf: Bytes, more: Bytes, pos: nat, left: nat)
    requires VarintWithin(buf, pos, left).Varint?
    ensures VarintWithin(buf + more, pos, left) == VarintWithin(buf, pos, left)
    decreases left
  {
    if buf[pos] >= 128 {
      VarintExtends(buf, more, pos + 1, left - 1);
    }
  }

  /** A packet length once known is not changed by bytes that arrive later. */
  lemma TotalLengthExtends(packet: Bytes, more: Bytes)
    requires TotalLength(packet).Some?
    ensures TotalLength(packet + more) == TotalLength(packet)
  {
    VarintExtends(packet, more, 1, 4);
  }

  lemma {:induction false} VarintTrims(buf: Bytes, cut: nat, pos: nat, left: nat)
    requires VarintWithin(buf, pos, left).Varint? && VarintWithin(buf, pos, left).next <= cut <= |buf|
    ensures VarintWithin(buf[..cut], pos, left) == VarintWithin(buf, pos, left)
    decreases left
  {
    if buf[pos] >= 128 {
      VarintTrims(buf, cut, pos + 1, left - 1);
    }
  }

  // The prefix a length announces is itself a whole packet.
  lemma PrefixIsPacket(buf: Bytes)
    requires TotalLength(buf).Some? && TotalLength(buf).value <= |buf|
    ensures IsPacket(buf[..TotalLength(buf).value])
  {
    VarintTrims(buf, TotalLength(buf).value, 1, 4);
  }

  /** A packet built by the standard is a whole packet for the gateway. */
  lemma EncodedIsPacket(header: byte, body: Bytes)
    requires header >= 16 && |body| <= MAX_REMAINING
    ensures IsPacket(EncodePacket(header, body))
  {
    VarintRoundTrip([header], |body|, body);
  }

  /** When no length can be read: too few bytes, a reserved packet type, or an integer that does not end.
      The last two are final: no later byte can repair them. */
  lemma UnreadableLength(packet: Bytes)
    ensures TotalLength(packet).None? <==>
            || |packet| < 2
            || packet[0] < 16
            || (forall i :: 1 <= i < |packet| && i < 5 ==> packet[i] >= 128)
    ensures TotalLength(packet).None? && |packet| >= 5 ==> forall more: Bytes :: TotalLength(packet + more).None?
  {
    if |packet| >= 2 {
      VarintFailure(packet, 1, 4);
    }
    if TotalLength(packet).None? && |packet| >= 5 {
      forall more: Bytes ensures TotalLength(packet + more).None? {
        VarintFailure(packet + more, 1, 4);
        assert packet[0] >= 16 ==> forall i :: 1 <= i < 5 ==> (packet + more)[i] == packet[i] >= 128;
      }
    }
  }

  lemma {:induction false} VarintFailure(buf: Bytes, pos: nat, left: nat)
    ensures VarintWithin(buf, pos, left).NoVarint? <==>
            forall i :: pos <= i < |buf| && i < pos + left ==> buf[i] >= 128
    decreases left
  {
    if left > 0 && pos < |buf| && buf[pos] >= 128 {
      VarintFailure(buf, pos + 1, left - 1);
    }
  }

  // The value of some length bytes: seven bits each, the lowest first.
  function Digits(bytes: Bytes): nat {
    if bytes == [] then 0 else bytes[0] as nat % 128 + 128 * Digits(bytes[1..])
  }

  // A length integer, padded or not: up to left bytes, all but the last with the top bit set.
  predicate IsVarint(buf: Bytes, pos: nat, next: nat, left: nat) {
    && pos < next <= |buf| && next <= pos + left && buf[next - 1] < 128
    && forall k :: pos <= k < next - 1 ==> buf[k] >= 128
  }

  lemma {:induction false} VarintReadsWithin(buf: Bytes, pos: nat, left: nat, v: nat, next: nat)
    ensures VarintWithin(buf, pos, left) == Varint(v, next) <==>
            IsVarint(buf, pos, next, left) && v == Digits(buf[pos..next])
    decreases left
  {
    if left > 0 && pos < |buf| {
      if buf[pos] < 128 {
        assert buf[pos..pos + 1] == [buf[pos]] && Digits([buf[pos]][1..]) == 0;
      } else {
        if IsVarint(buf, pos, next, left) {
          VarintReadsWithin(buf, pos + 1, left - 1, Digits(buf[pos + 1..next]), next);
          assert buf[pos..next][1..] == buf[pos + 1..next];
        }
        if VarintWithin(buf, pos, left) == Varint(v, next) {
          var tail := VarintWithin(buf, pos + 1, left - 1);
          VarintReadsWithin(buf, pos + 1, left - 1, tail.value, next);
          assert buf[pos..next][1..] == buf[pos + 1..next];
        }
      }
    }
  }

  /** What is read as a length anywhere, padded or not: at most four bytes, the last the first without the top bit, and their
      value in base 128. */
  lemma VarintReadsIff(buf: Bytes, start: nat, v: nat, next: nat)
    ensures DecodeVarint(buf, start) == Varint(v, next) <==>
            IsVarint(buf, start, next, 4) && v == Digits(buf[start..next])
  {
    VarintReadsWithin(buf, start, 4, v, next);
  }
}
