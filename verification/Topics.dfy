/**
 Printing and parsing of the MQTT topics.  Topic levels are separated by "/", and the
 filter "/devices/#" matches "/devices" and everything below it (section 4.7 of MQTT
 Version 3.1.1).
 */
module Topics {
  const SEPARATOR := '/'

  function TrimPrefix(s: string, prefix: string): string {
    if prefix <= s then s[|prefix|..] else s
  }

  /** The first element of splitting `s` at the separators. */
  function Head(s: string): (h: string)
    ensures h <= s && SEPARATOR !in h
    ensures |h| < |s| ==> s[|h|] == SEPARATOR
  {
    if s == "" || s[0] == SEPARATOR then "" else [s[0]] + Head(s[1..])
  }

  /** What `SendCommand` publishes to. */
  function CommandTopic(device: string, subfolder: string): string {
    "/devices/" + device + "/commands/" + subfolder
  }

  predicate MatchesDevices(topic: string) {
    topic == "/devices" || "/devices/" <= topic
  }

  datatype Dispatch = Ignored | Handled(device: string, topic: string)

  /** The callback of `listenMQTTEvents`; `side` is "commands" on the devices' side and
      "events" in mission-control. */
  function Parse(side: string, topic: string): Dispatch {
    var t := TrimPrefix(topic, "/devices/");
    var device := Head(t);
    var rest := TrimPrefix(t, device + "/");
    if side <= rest then Handled(device, TrimPrefix(rest, side + "/")) else Ignored
  }

  lemma {:induction false} HeadOfConcat(s: string, rest: string)
    requires SEPARATOR in s || (rest != "" && rest[0] == SEPARATOR)
    ensures Head(s + rest) == Head(s)
  {
    if s == "" {
      assert s + rest == rest;
    } else if s[0] != SEPARATOR {
      assert (s + rest)[1..] == s[1..] + rest;
      HeadOfConcat(s[1..], rest);
    }
  }

  lemma HeadOfAll(s: string)
    ensures Head(s) == s <==> SEPARATOR !in s
  {
  }

  lemma Regroup(a: string, b: string, c: string)
    ensures (a + b) + c == a + (b + c)
  {
  }

  lemma TrimOff(prefix: string, rest: string)
    ensures TrimPrefix(prefix + rest, prefix) == rest
  {
  }

  lemma LevelsMatch(t: string)
    requires Head(t) == "devices"
    ensures MatchesDevices("/" + t)
  {
    assert t[..7] == "devices";
    if |t| == 7 {
      assert t == "devices";
    } else {
      assert ("/" + t)[..9] == "/" + t[..7] + [t[7]];
    }
  }

  lemma BelowMatches(topic: string)
    requires "/devices/" <= topic
    ensures Head(topic[1..]) == "devices"
  {
    HeadOfAll("devices");
    HeadOfConcat("devices", "/" + topic[9..]);
    assert topic[1..] == "devices" + ("/" + topic[9..]);
  }

  /** The filter matches by levels: the first is empty and the second is "devices". */
  lemma MatchesByLevels(topic: string)
    ensures MatchesDevices(topic) <==> topic != "" && topic[0] == SEPARATOR && Head(topic[1..]) == "devices"
  {
    HeadOfAll("devices");
    if "/devices/" <= topic {
      BelowMatches(topic);
    }
    if topic != "" && topic[0] == SEPARATOR && Head(topic[1..]) == "devices" {
      LevelsMatch(topic[1..]);
      assert topic == "/" + topic[1..];
    }
  }

  lemma TopicBelowDevices(device: string, subfolder: string)
    ensures TrimPrefix(CommandTopic(device, subfolder), "/devices/") == device + ("/commands/" + subfolder)
    ensures MatchesDevices(CommandTopic(device, subfolder))
  {
  }

  lemma PlainDevice(device: string, subfolder: string)
    requires SEPARATOR !in device
    ensures Head(device + ("/commands/" + subfolder)) == device
    ensures TrimPrefix(device + ("/commands/" + subfolder), device + "/") == "commands/" + subfolder
  {
    HeadOfConcat(device, "/commands/" + subfolder);
    HeadOfAll(device);
    assert "/commands/" + subfolder == "/" + ("commands/" + subfolder);
    Regroup(device, "/", "commands/" + subfolder);
    TrimOff(device + "/", "commands/" + subfolder);
  }

  /** A command comes back as the device and the subfolder it was printed from, and is delivered at
      all, if and only if the device id has no separator. */
  lemma CommandRoundTrip(device: string, subfolder: string)
    ensures MatchesDevices(CommandTopic(device, subfolder))
    ensures Parse("commands", CommandTopic(device, subfolder)) == Handled(device, subfolder)
            <==> SEPARATOR !in device
  {
    TopicBelowDevices(device, subfolder);
    if SEPARATOR !in device {
      PlainDevice(device, subfolder);
      assert "commands/" + subfolder == "commands" + ("/" + subfolder);
    }
  }

  /** What follows the first separator. */
  function Below(s: string): string
    requires SEPARATOR in s
  {
    HeadOfAll(s);
    s[|Head(s)| + 1..]
  }

  lemma EventsPrefix(s: string, subfolder: string)
    ensures "events" <= s + ("/commands/" + subfolder) <==> "events" <= s
  {
    var all := s + ("/commands/" + subfolder);
    assert all[|s|] == SEPARATOR;
    assert forall i | 0 <= i < 6 :: "events"[i] != SEPARATOR;
  }

  lemma AtFirstSeparator(s: string)
    requires SEPARATOR in s
    ensures s == (Head(s) + "/") + Below(s)
  {
    HeadOfAll(s);
  }

  /** What mission-control makes of its own command when the id has a separator. */
  lemma CommandTakenApart(device: string, subfolder: string)
    requires SEPARATOR in device
    ensures var tail := "/commands/" + subfolder;
            && TrimPrefix(CommandTopic(device, subfolder), "/devices/") == device + tail
            && Head(device + tail) == Head(device)
            && TrimPrefix(device + tail, Head(device) + "/") == Below(device) + tail
  {
    var tail := "/commands/" + subfolder;
    TopicBelowDevices(device, subfolder);
    HeadOfConcat(device, tail);
    AtFirstSeparator(device);
    Regroup(Head(device) + "/", Below(device), tail);
    TrimOff(Head(device) + "/", Below(device) + tail);
  }

  /** Mission-control, which is subscribed to the commands it sends, takes one for an event if and
      only if the device id has a separator with "events" right behind the first one. */
  lemma CommandTakenForEvent(device: string, subfolder: string)
    ensures Parse("events", CommandTopic(device, subfolder)).Handled?
            <==> SEPARATOR in device && "events" <= Below(device)
  {
    if SEPARATOR in device {
      CommandTakenApart(device, subfolder);
      EventsPrefix(Below(device), subfolder);
    } else {
      TopicBelowDevices(device, subfolder);
      PlainDevice(device, subfolder);
      assert ("commands/" + subfolder)[0] != "events"[0];
    }
  }

  /** The topic of an event that a device publishes. */
  function EventTopic(device: string, topic: string): string {
    "/devices/" + device + "/events/" + topic
  }

  lemma EventBelowDevices(device: string, topic: string)
    ensures TrimPrefix(EventTopic(device, topic), "/devices/") == device + ("/events/" + topic)
    ensures MatchesDevices(EventTopic(device, topic))
  {
    assert EventTopic(device, topic) == "/devices/" + (device + ("/events/" + topic));
  }

  lemma PlainEvent(device: string, topic: string)
    requires SEPARATOR !in device
    ensures Head(device + ("/events/" + topic)) == device
    ensures TrimPrefix(device + ("/events/" + topic), device + "/") == "events/" + topic
  {
    HeadOfConcat(device, "/events/" + topic);
    HeadOfAll(device);
    assert "/events/" + topic == "/" + ("events/" + topic);
    Regroup(device, "/", "events/" + topic);
    TrimOff(device + "/", "events/" + topic);
  }

  /** An event comes to mission-control as the device and the topic it was published under if and only if the device
      id has no separator; the devices' side then does not take it for a command. */
  lemma EventRoundTrip(device: string, topic: string)
    ensures MatchesDevices(EventTopic(device, topic))
    ensures Parse("events", EventTopic(device, topic)) == Handled(device, topic) <==> SEPARATOR !in device
    ensures SEPARATOR !in device ==> Parse("commands", EventTopic(device, topic)) == Ignored
  {
    EventBelowDevices(device, topic);
    if SEPARATOR !in device {
      PlainEvent(device, topic);
      assert "events/" + topic == "events" + ("/" + topic);
      assert ("events/" + topic)[0] != "commands"[0];
    }
  }
}
