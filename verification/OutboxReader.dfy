/**
 From the text of an outbox to the devices a reader holds: what is printed for a
 message, and the reading of it that takes the name between the fixed parts.
 */
module OutboxReader {
  import opened Options
  import opened Registry
  import opened Steps
  import opened Outboxes
  import opened LogReplay
  import opened OutboxText

  /** What is printed with a message: when, under which id and, for a task, its body as it was received. */
  datatype Print = Print(stamp: string, id: string, body: string)

  const BEFORE := "{ \"name\": \""
  const AFTER := "\" }"
  const ADDED := "drone-added"
  const REMOVED := "drone-removed"
  const CREATED := "task-created"

  function Printed(msg: Message, p: Print): Line {
    match msg
    case DroneAdded(device) => Line(p.stamp, p.id, ADDED, BEFORE + device + AFTER)
    case DroneRemoved(device) => Line(p.stamp, p.id, REMOVED, BEFORE + device + AFTER)
    case TaskCreated(_) => Line(p.stamp, p.id, CREATED, p.body)
  }

  function AllPrinted(log: seq<Message>, ps: seq<Print>): seq<Line>
    requires |log| == |ps|
  {
    seq(|log|, i requires 0 <= i < |log| => Printed(log[i], ps[i]))
  }

  /** The name in a message about a drone. */
  function NameIn(message: string): string {
    if |BEFORE| + |AFTER| <= |message| then message[|BEFORE|..|message| - |AFTER|] else ""
  }

  function ReadLine(held: set<string>, l: Line): set<string> {
    if l.kind == ADDED then held + {NameIn(l.message)}
    else if l.kind == REMOVED then held - {NameIn(l.message)}
    else held
  }

  function ReadLines(lines: seq<Line>): set<string> {
    if lines == [] then {} else ReadLine(ReadLines(lines[..|lines| - 1]), lines[|lines| - 1])
  }

  function ReadText(text: string): Option<set<string>> {
    match Decode(text)
    case None => None
    case Some(lines) => Some(ReadLines(lines))
  }

  /** The line printed for each message. */
  lemma PrintedIs(device: string, task: Task, p: Print)
    ensures Encode(Printed(DroneAdded(device), p)) ==
            p.stamp + " " + p.id + " " + "drone-added" + " " + ("{ \"name\": \"" + device + "\" }") + "\n"
    ensures Encode(Printed(DroneRemoved(device), p)) ==
            p.stamp + " " + p.id + " " + "drone-removed" + " " + ("{ \"name\": \"" + device + "\" }") + "\n"
    ensures Encode(Printed(TaskCreated(task), p)) == p.stamp + " " + p.id + " " + "task-created" + " " + p.body + "\n"
  {
  }

  lemma KindsDiffer()
    ensures ADDED != REMOVED && ADDED != CREATED && REMOVED != CREATED
  {
    assert ADDED[0] != CREATED[0] && REMOVED[0] != CREATED[0] && ADDED[6] != REMOVED[6];
  }

  lemma NameBack(device: string)
    ensures NameIn(BEFORE + device + AFTER) == device
  {
    assert (BEFORE + device + AFTER)[|BEFORE|..|BEFORE| + |device|] == device;
  }

  lemma ReadPrinted(held: set<string>, msg: Message, p: Print)
    ensures ReadLine(held, Printed(msg, p)) == Apply(held, msg)
  {
    KindsDiffer();
    match msg {
      case DroneAdded(device) => NameBack(device);
      case DroneRemoved(device) => NameBack(device);
      case TaskCreated(_) =>
    }
  }

  lemma {:induction false} ReadIsReplay(log: seq<Message>, ps: seq<Print>)
    requires |log| == |ps|
    ensures ReadLines(AllPrinted(log, ps)) == Replay(log)
  {
    if log != [] {
      var n := |log| - 1;
      ReadIsReplay(log[..n], ps[..n]);
      assert AllPrinted(log, ps)[..n] == AllPrinted(log[..n], ps[..n]);
      ReadPrinted(Replay(log[..n]), log[n], ps[n]);
    }
  }

  ghost predicate GoodPrint(p: Print) {
    && (exists day, time :: p.stamp == day + " " + time && ' ' !in day && ' ' !in time)
    && '\n' !in p.stamp && ' ' !in p.id && '\n' !in p.id
  }

  lemma PrintedIsWellFormed(msg: Message, p: Print)
    requires GoodPrint(p)
    ensures WellFormed(Printed(msg, p))
  {
    assert ' ' !in ADDED && ' ' !in REMOVED && ' ' !in CREATED;
    assert '\n' !in ADDED && '\n' !in REMOVED && '\n' !in CREATED;
  }

  /** The parts that are printed as they came have no newline. */
  predicate OneLine(msg: Message, p: Print) {
    match msg
    case DroneAdded(device) => '\n' !in device
    case DroneRemoved(device) => '\n' !in device
    case TaskCreated(_) => '\n' !in p.body
  }

  lemma OneLineMeans(msg: Message, p: Print)
    ensures OneLine(msg, p) <==> '\n' !in Printed(msg, p).message
  {
    assert '\n' !in BEFORE && '\n' !in AFTER;
  }

  /** The printed text decodes to the lines printed if and only if no device and no body has a newline in it; and
      then reading the text gives the devices of the replay. */
  lemma TextIsReplay(log: seq<Message>, ps: seq<Print>)
    requires |log| == |ps| && forall p | p in ps :: GoodPrint(p)
    ensures Decode(Text(AllPrinted(log, ps))) == Some(AllPrinted(log, ps))
            <==> forall i | 0 <= i < |log| :: OneLine(log[i], ps[i])
    ensures (forall i | 0 <= i < |log| :: OneLine(log[i], ps[i])) ==>
              ReadText(Text(AllPrinted(log, ps))) == Some(Replay(log))
  {
    var lines := AllPrinted(log, ps);
    forall i | 0 <= i < |log|
      ensures WellFormed(lines[i]) && (OneLine(log[i], ps[i]) <==> '\n' !in lines[i].message)
    {
      assert ps[i] in ps;
      PrintedIsWellFormed(log[i], ps[i]);
      OneLineMeans(log[i], ps[i]);
    }
    assert (forall i | 0 <= i < |log| :: OneLine(log[i], ps[i])) <==> (forall l | l in lines :: '\n' !in l.message) by {
      if forall l | l in lines :: '\n' !in l.message {
        forall i | 0 <= i < |log| ensures OneLine(log[i], ps[i]) {
          assert lines[i] in lines;
        }
      }
    }
    TextRoundTrip(lines);
    ReadIsReplay(log, ps);
  }

  /** In every run, whoever reads the text of a live mission's outbox holds exactly its trusted devices if and only if
      none is left over from an earlier mission and no handler stopped half way with one that is still there. */
  lemma ReaderIsInSync(states: seq<State>, events: seq<Event>, k: nat, slug: string, ps: seq<Print>)
    requires Run(states, events) && k < |states| && slug in states[k].missions
    requires |ps| == |Outbox(states[k], slug)| && forall p | p in ps :: GoodPrint(p)
    requires forall i | 0 <= i < |ps| :: OneLine(Outbox(states[k], slug)[i], ps[i])
    ensures ReadText(Text(AllPrinted(Outbox(states[k], slug), ps))) == Some(TrustedDevices(DronesOf(states[k], slug))) <==>
            forall device :: !RevivedSince(states, events, k, slug, device) && !HalfWaySince(states, events, k, slug, device)
  {
    TextIsReplay(Outbox(states[k], slug), ps);
    InSyncIs(states, events, k, slug);
  }
}
