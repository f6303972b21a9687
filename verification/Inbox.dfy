/** From a message on the broker to the handlers it starts in mission-control. */
module Inbox {
  import opened Registry
  import opened Topics

  /** A message: its topic, and what the handlers find in its body. */
  datatype Packet = Packet(topic: string, key: string, plan: seq<PlanEntry>, reported: string)

  /** `now` and `later` are the clock when the message comes and when the state handler runs; the scan of
      the plan and state handlers is still open. */
  function Handle(device: string, topic: string, p: Packet, now: int, later: int, push: Push, sent: bool): seq<Event> {
    [DeviceSeen(device, now)]
    + if topic == "trust" then [TrustMessage(device, p.key, push, sent)]
      else if topic == "mission-plan" then [PlanMessage(device, p.plan, "")]
      else if topic == "mission-state" then [StateMessage(device, p.reported, "", later)]
      else []
  }

  function Arrive(p: Packet, now: int, later: int, push: Push, sent: bool): seq<Event> {
    match Parse("events", p.topic)
    case Ignored => []
    case Handled(device, topic) => Handle(device, topic, p, now, later, push, sent)
  }

  predicate HasHandler(topic: string) {
    topic in {"trust", "mission-plan", "mission-state"}
  }

  lemma EventArrives(device: string, p: Packet, topic: string, now: int, later: int, push: Push, sent: bool)
    requires p.topic == "/devices/" + device + "/events/" + topic && SEPARATOR !in device
    ensures Arrive(p, now, later, push, sent) == Handle(device, topic, p, now, later, push, sent)
  {
    assert p.topic == EventTopic(device, topic);
    EventRoundTrip(device, topic);
  }

  /** What a device without a separator in its id publishes marks it as seen and starts the handler for exactly
      what was published; any other topic only marks the device as seen. */
  lemma EventIsHandled(device: string, p: Packet, topic: string, now: int, later: int, push: Push, sent: bool)
    requires p.topic == "/devices/" + device + "/events/" + topic && SEPARATOR !in device
    ensures Arrive(p, now, later, push, sent) ==
            if topic == "trust" then [DeviceSeen(device, now), TrustMessage(device, p.key, push, sent)]
            else if topic == "mission-plan" then [DeviceSeen(device, now), PlanMessage(device, p.plan, "")]
            else if topic == "mission-state" then
              [DeviceSeen(device, now), StateMessage(device, p.reported, "", later)]
            else [DeviceSeen(device, now)]
  {
    EventArrives(device, p, topic, now, later, push, sent);
  }

  lemma NoHandlerBelow(topic: string)
    requires SEPARATOR in topic
    ensures !HasHandler(topic)
  {
    assert SEPARATOR !in "trust" && SEPARATOR !in "mission-plan" && SEPARATOR !in "mission-state";
  }

  lemma TailStays(below: string, subfolder: string)
    ensures SEPARATOR in TrimPrefix(below + ("/commands/" + subfolder), "events/")
  {
    var rest := below + ("/commands/" + subfolder);
    var topic := TrimPrefix(rest, "events/");
    assert rest[|below| + 9] == SEPARATOR;
    if "events/" <= rest {
      assert topic[|below| + 2] == SEPARATOR;
    }
  }

  /** Of the commands mission-control sends, and is itself subscribed to, none starts a handler; one to an id with a
      separator and "events" right behind the first one marks the device in front of it as seen, and no other marks
      any device. */
  lemma CommandOnlyMarks(device: string, subfolder: string, p: Packet, now: int, later: int, push: Push, sent: bool)
    requires p.topic == "/devices/" + device + "/commands/" + subfolder
    ensures Arrive(p, now, later, push, sent) ==
            if SEPARATOR in device && "events" <= Below(device) then [DeviceSeen(Head(device), now)] else []
  {
    assert p.topic == CommandTopic(device, subfolder);
    CommandTakenForEvent(device, subfolder);
    if SEPARATOR in device && "events" <= Below(device) {
      CommandParsed(device, subfolder);
      TailStays(Below(device), subfolder);
      NoHandlerBelow(TrimPrefix(Below(device) + ("/commands/" + subfolder), "events/"));
    }
  }

  lemma CommandParsed(device: string, subfolder: string)
    requires SEPARATOR in device && "events" <= Below(device)
    ensures Parse("events", CommandTopic(device, subfolder)) ==
            Handled(Head(device), TrimPrefix(Below(device) + ("/commands/" + subfolder), "events/"))
  {
    CommandTakenApart(device, subfolder);
    EventsPrefix(Below(device), subfolder);
    assert "events" + "/" == "events/";
  }
}
