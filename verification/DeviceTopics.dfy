/** Which topic filters of a SUBSCRIBE are a device's own: its configuration and command channels. */
module DeviceTopics {

  function FirstSlash(s: string): (i: nat)
    requires '/' in s
    ensures i < |s| && s[i] == '/' && '/' !in s[..i]
  {
    if s[0] == '/' then 0 else 1 + FirstSlash(s[1..])
  }

  // The levels of a topic.
  function Levels(topic: string): (levels: seq<string>)
    ensures |levels| >= 1
    decreases |topic|
  {
    if '/' !in topic then [topic]
    else [topic[..FirstSlash(topic)]] + Levels(topic[FirstSlash(topic) + 1..])
  }

  const CHANNELS := ["config", "cmd", "#"]

  // lower is the lower-casing of device IDs.
  predicate IsOwnSubscribeTopic(lower: string -> string, topic: string, deviceID: string) {
    && |Levels(topic)| >= 3
    && lower(Levels(topic)[1]) == deviceID
    && Levels(topic)[2] in CHANNELS
  }

  // A first level and what follows its slash.
  function Join(level: string, rest: string): string {
    level + ['/'] + rest
  }

  lemma {:induction false} FirstSlashOfJoin(level: string, rest: string)
    requires '/' !in level
    ensures '/' in Join(level, rest) && FirstSlash(Join(level, rest)) == |level|
  {
    var topic := Join(level, rest);
    assert topic[|level|] == '/';
    if level == [] {
    } else {
      assert topic[0] == level[0] && topic[1..] == Join(level[1..], rest);
      FirstSlashOfJoin(level[1..], rest);
    }
  }

  lemma LevelsOfJoin(level: string, rest: string)
    requires '/' !in level
    ensures Levels(Join(level, rest)) == [level] + Levels(rest)
  {
    FirstSlashOfJoin(level, rest);
    assert Join(level, rest)[..|level|] == level && Join(level, rest)[|level| + 1..] == rest;
  }

  lemma Divide(topic: string) returns (level: string, rest: string)
    requires '/' in topic
    ensures '/' !in level && topic == Join(level, rest) && Levels(topic) == [level] + Levels(rest)
  {
    var i := FirstSlash(topic);
    level, rest := topic[..i], topic[i + 1..];
  }

  // The last level looked at, and the levels after it with their slash.
  ghost predicate Begins(tail: string, channel: string, more: string) {
    '/' !in channel && (more == [] || more[0] == '/') && tail == channel + more
  }

  lemma FirstLevel(tail: string, channel: string, more: string)
    requires Begins(tail, channel, more)
    ensures Levels(tail)[0] == channel
  {
    if more == [] {
      assert tail == channel;
    } else {
      assert tail == Join(channel, more[1..]);
      LevelsOfJoin(channel, more[1..]);
    }
  }

  lemma FirstLevelBegins(tail: string) returns (more: string)
    ensures Begins(tail, Levels(tail)[0], more)
  {
    if '/' in tail {
      var i := FirstSlash(tail);
      more := tail[i..];
      assert tail == tail[..i] + tail[i..];
    } else {
      more := [];
      assert tail == tail + [];
    }
  }

  // Any root, the device, a channel, and more levels or none.
  ghost predicate Reads(topic: string, root: string, device: string, channel: string, more: string) {
    && '/' !in root && '/' !in device
    && exists tail :: Begins(tail, channel, more) && topic == Join(root, Join(device, tail))
  }

  lemma ReadsLevels(topic: string, root: string, device: string, channel: string, more: string)
    requires Reads(topic, root, device, channel, more)
    ensures |Levels(topic)| >= 3 && Levels(topic)[1] == device && Levels(topic)[2] == channel
  {
    hide Levels, Join, Begins;
    var tail :| Begins(tail, channel, more) && topic == Join(root, Join(device, tail));
    LevelsOfJoin(root, Join(device, tail));
    LevelsOfJoin(device, tail);
    FirstLevel(tail, channel, more);
  }

  lemma LevelsRead(topic: string) returns (root: string, more: string)
    requires |Levels(topic)| >= 3
    ensures Reads(topic, root, Levels(topic)[1], Levels(topic)[2], more)
  {
    hide Join, Begins;
    var rest, device, tail;
    root, rest := Divide(topic);
    device, tail := Divide(rest);
    more := FirstLevelBegins(tail);
    assert Levels(topic)[1] == device && Levels(topic)[2] == Levels(tail)[0];
  }

  /** The topics taken as a device's own: any root, the device's ID in any case, a known channel, and more levels
      or none. */
  lemma OwnTopicIff(lower: string -> string, topic: string, deviceID: string)
    ensures IsOwnSubscribeTopic(lower, topic, deviceID) <==>
            exists root, device, channel, more ::
              && Reads(topic, root, device, channel, more) && lower(device) == deviceID
              && (channel == "config" || channel == "cmd" || channel == "#")
  {
    hide Levels, Reads;
    if IsOwnSubscribeTopic(lower, topic, deviceID) {
      var root, more := LevelsRead(topic);
    }
    forall root, device, channel, more | Reads(topic, root, device, channel, more)
      ensures |Levels(topic)| >= 3 && Levels(topic)[1] == device && Levels(topic)[2] == channel
    {
      ReadsLevels(topic, root, device, channel, more);
    }
  }
}
