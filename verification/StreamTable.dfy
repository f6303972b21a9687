/**
 The video test server: a table of running streams driven by start and stop commands,
 and the way a command takes from the multiplexer to this table.
 */
module StreamTable {
  import opened Topics

  datatype Command = Command(command: string, address: string, source: string, device: string)

  datatype Act = Launch(device: string) | Kill(device: string)

  /** A child process. */
  class Process {
    const address: string
    ghost const device: string  // that it was launched for
    var alive: bool

    constructor (address: string, ghost device: string)
      ensures this.address == address && this.device == device && alive
    {
      this.address, this.device, alive := address, device, true;
    }

    method Kill()
      modifies this
      ensures !alive
    {
      alive := false;
    }
  }

  // ---------------------------------------------------------------- what commands mean

  predicate Concerns(c: Command, device: string) {
    c.device == device && (c.command == "start" || c.command == "stop")
  }

  /** The last start or stop command for the device is a start. */
  function Started(cs: seq<Command>, device: string): bool {
    if cs == [] then false
    else if Concerns(cs[|cs| - 1], device) then cs[|cs| - 1].command == "start"
    else Started(cs[..|cs| - 1], device)
  }

  /** The address of the first start since the last stop. */
  function Address(cs: seq<Command>, device: string): string
    requires Started(cs, device)
  {
    var front, last := cs[..|cs| - 1], cs[|cs| - 1];
    if Concerns(last, device) && !Started(front, device) then last.address else Address(front, device)
  }

  lemma NextStarted(cs: seq<Command>, c: Command, device: string)
    ensures Started(cs + [c], device) == if Concerns(c, device) then c.command == "start" else Started(cs, device)
    ensures Started(cs + [c], device) ==>
              Address(cs + [c], device) ==
              if Concerns(c, device) && !Started(cs, device) then c.address else Address(cs, device)
  {
  }

  /** What a command makes the server do, after the commands `before`. */
  function ActOn(before: seq<Command>, c: Command): seq<Act> {
    if c.command == "start" && !Started(before, c.device) then [Launch(c.device)]
    else if c.command == "stop" && Started(before, c.device) then [Kill(c.device)]
    else []
  }

  function Acts(cs: seq<Command>): seq<Act> {
    if cs == [] then [] else Acts(cs[..|cs| - 1]) + ActOn(cs[..|cs| - 1], cs[|cs| - 1])
  }

  // ---------------------------------------------------------------- what the log says

  function Running(log: seq<Act>, device: string): bool {
    if log == [] then false
    else if log[|log| - 1].device == device then log[|log| - 1].Launch?
    else Running(log[..|log| - 1], device)
  }

  /** For each device launches and kills take turns, a launch first. */
  ghost predicate Alternates(log: seq<Act>) {
    forall i | 0 <= i < |log| :: log[i].Launch? <==> !Running(log[..i], log[i].device)
  }

  function Launches(log: seq<Act>): nat {
    if log == [] then 0 else Launches(log[..|log| - 1]) + if log[|log| - 1].Launch? then 1 else 0
  }

  lemma LogAppend(log: seq<Act>, a: Act)
    ensures forall device :: Running(log + [a], device) == if a.device == device then a.Launch? else Running(log, device)
    ensures Launches(log + [a]) == Launches(log) + if a.Launch? then 1 else 0
    ensures Alternates(log) && (a.Launch? <==> !Running(log, a.device)) ==> Alternates(log + [a])
  {
    var more := log + [a];
    assert more[..|log|] == log;
    if Alternates(log) && (a.Launch? <==> !Running(log, a.device)) {
      forall i | 0 <= i < |more| ensures more[i].Launch? <==> !Running(more[..i], more[i].device) {
        assert more[..i] == log[..i];
        assert i == |log| ==> log[..i] == log;
      }
    }
  }

  // ---------------------------------------------------------------- the loop

  /** A device has a stream exactly when its last command was a start; the stream runs on the
      address it was first started with; every other process launched is dead. */
  ghost predicate Served(cs: seq<Command>, streams: map<string, Process>, launched: set<Process>)
    reads launched
  {
    && (forall device :: device in streams <==> Started(cs, device))
    && (forall device | device in streams ::
          streams[device] in launched && streams[device].device == device
          && streams[device].address == Address(cs, device))
    && (forall p | p in launched :: p.alive <==> p.device in streams && streams[p.device] == p)
  }

  /** Launches and kills alternate, and those left running are the streams; `launched` has one process
      for each launch. */
  ghost predicate Logged(log: seq<Act>, streams: map<string, Process>, launched: set<Process>) {
    && Alternates(log)
    && (forall device :: Running(log, device) <==> device in streams)
    && 2 * Launches(log) == |log| + |streams| && Launches(log) == |launched|
  }

  method Start(c: Command, streams: map<string, Process>, log: seq<Act>, ghost cs: seq<Command>, ghost launched: set<Process>)
    returns (streams': map<string, Process>, log': seq<Act>, ghost launched': set<Process>)
    requires c.command == "start" && Served(cs, streams, launched) && Logged(log, streams, launched)
    ensures Served(cs + [c], streams', launched') && Logged(log', streams', launched') && log' == log + ActOn(cs, c)
    ensures launched <= launched' && forall p | p in launched' && p !in launched :: fresh(p)
  {
    streams', log', launched' := streams, log, launched;
    if c.device !in streams {
      var cmd := new Process(c.address, c.device);
      LogAppend(log, Launch(c.device));
      log' := log + [Launch(c.device)];
      streams' := streams[c.device := cmd];
      launched' := launched + {cmd};
    }
    ServedNext(c, cs, streams', launched');
  }

  method Stop(c: Command, streams: map<string, Process>, log: seq<Act>, ghost cs: seq<Command>, ghost launched: set<Process>)
    returns (streams': map<string, Process>, log': seq<Act>)
    requires c.command == "stop" && Served(cs, streams, launched) && Logged(log, streams, launched)
    modifies launched
    ensures Served(cs + [c], streams', launched) && Logged(log', streams', launched) && log' == log + ActOn(cs, c)
  {
    streams', log' := streams, log;
    if c.device in streams {
      streams[c.device].Kill();
      LogAppend(log, Kill(c.device));
      log' := log + [Kill(c.device)];
      streams' := streams - {c.device};
    }
    ServedNext(c, cs, streams', launched);
  }

  lemma ServedNext(c: Command, cs: seq<Command>, streams: map<string, Process>, launched: set<Process>)
    requires forall device :: device in streams <==>
               if Concerns(c, device) then c.command == "start" else Started(cs, device)
    requires forall device | device in streams ::
               && streams[device] in launched && streams[device].device == device
               && streams[device].address ==
                  if Started(cs, device) then Address(cs, device) else c.address
    requires forall p | p in launched :: p.alive <==> p.device in streams && streams[p.device] == p
    ensures Served(cs + [c], streams, launched)
  {
  }

  lemma OtherCommand(c: Command, cs: seq<Command>, streams: map<string, Process>, launched: set<Process>)
    requires c.command != "start" && c.command != "stop" && Served(cs, streams, launched)
    ensures Served(cs + [c], streams, launched)
  {
  }

  /** One turn of the loop over the commands. */
  method Handle(c: Command, streams: map<string, Process>, log: seq<Act>, ghost cs: seq<Command>, ghost launched: set<Process>)
    returns (streams': map<string, Process>, log': seq<Act>, ghost launched': set<Process>)
    requires Served(cs, streams, launched) && Logged(log, streams, launched)
    modifies launched
    ensures Served(cs + [c], streams', launched') && Logged(log', streams', launched') && log' == log + ActOn(cs, c)
    ensures launched <= launched' && forall p | p in launched' && p !in launched :: fresh(p)
  {
    streams', log', launched' := streams, log, launched;
    if c.command == "start" {
      streams', log', launched' := Start(c, streams, log, cs, launched);
    } else if c.command == "stop" {
      streams', log' := Stop(c, streams, log, cs, launched);
    } else {
      OtherCommand(c, cs, streams, launched);
    }
  }

  lemma UpTo(commands: seq<Command>, i: nat)
    requires i < |commands|
    ensures commands[..i + 1] == commands[..i] + [commands[i]]
    ensures Acts(commands[..i + 1]) == Acts(commands[..i]) + ActOn(commands[..i], commands[i])
  {
    assert commands[..i + 1][..i] == commands[..i];
  }

  method Run(commands: seq<Command>)
    returns (streams: map<string, Process>, log: seq<Act>, ghost launched: set<Process>)
    ensures Served(commands, streams, launched) && Logged(log, streams, launched) && log == Acts(commands)
  {
    streams, log, launched := map[], [], {};
    for i := 0 to |commands|
      invariant forall p | p in launched :: fresh(p)
      invariant Served(commands[..i], streams, launched) && Logged(log, streams, launched) && log == Acts(commands[..i])
    {
      UpTo(commands, i);
      streams, log, launched := Handle(commands[i], streams, log, commands[..i], launched);
    }
    assert commands[..|commands|] == commands;
  }

  // ---------------------------------------------------------------- from the multiplexer to the table

  /** A command as issued: for a device, in a subfolder. */
  datatype Issued = Issued(device: string, subfolder: string, command: string, address: string)

  /** What the event handler passes on: commands for "videostream", under the device of the topic. */
  function PassedOn(i: Issued): seq<Command> {
    var d := Parse("commands", CommandTopic(i.device, i.subfolder));
    if d.Handled? && d.topic == "videostream" then [Command(i.command, i.address, "", d.device)] else []
  }

  function Received(issued: seq<Issued>): seq<Command> {
    if issued == [] then [] else Received(issued[..|issued| - 1]) + PassedOn(issued[|issued| - 1])
  }

  lemma PassedOnIs(i: Issued)
    requires SEPARATOR !in i.device
    ensures PassedOn(i) == if i.subfolder == "videostream" then [Command(i.command, i.address, "", i.device)] else []
  {
    CommandRoundTrip(i.device, i.subfolder);
  }

  ghost predicate IsVideo(i: Issued) {
    i.subfolder == "videostream" && (i.command == "start" || i.command == "stop")
  }

  /** The last start or stop issued for the device as a video command is a start. */
  ghost function Wanted(issued: seq<Issued>, device: string): bool {
    if issued == [] then false
    else
      var last := issued[|issued| - 1];
      if last.device == device && IsVideo(last) then last.command == "start"
      else Wanted(issued[..|issued| - 1], device)
  }

  /** What is passed on when every topic is taken apart as it was put together. */
  ghost function Forwarded(issued: seq<Issued>): seq<Command> {
    if issued == [] then []
    else
      var last := issued[|issued| - 1];
      Forwarded(issued[..|issued| - 1])
      + if last.subfolder == "videostream" then [Command(last.command, last.address, "", last.device)] else []
  }

  lemma {:induction false} ReceivedIsForwarded(issued: seq<Issued>)
    requires forall i | i in issued :: SEPARATOR !in i.device
    ensures Received(issued) == Forwarded(issued)
  {
    if issued != [] {
      ReceivedIsForwarded(issued[..|issued| - 1]);
      PassedOnIs(issued[|issued| - 1]);
    }
  }

  lemma {:induction false} StartedIsWanted(issued: seq<Issued>, device: string)
    ensures Started(Forwarded(issued), device) <==> Wanted(issued, device)
  {
    if issued != [] {
      var front, last := issued[..|issued| - 1], issued[|issued| - 1];
      StartedIsWanted(front, device);
      NextStarted(Forwarded(front), Command(last.command, last.address, "", last.device), device);
      assert Forwarded(front) + [] == Forwarded(front);
    }
  }

  lemma LastCommandWins(issued: seq<Issued>, device: string)
    requires forall i | i in issued :: SEPARATOR !in i.device
    ensures Started(Received(issued), device) <==> Wanted(issued, device)
  {
    ReceivedIsForwarded(issued);
    StartedIsWanted(issued, device);
  }

  /** End to end: when no device id has a separator, the table has a stream for exactly the devices
      whose last issued video command is a start. */
  method RunIssued(issued: seq<Issued>)
    returns (streams: map<string, Process>, log: seq<Act>, ghost launched: set<Process>)
    requires forall i | i in issued :: SEPARATOR !in i.device
    ensures forall device :: device in streams <==> Wanted(issued, device)
    ensures Served(Received(issued), streams, launched) && Logged(log, streams, launched)
    ensures log == Acts(Received(issued))
  {
    streams, log, launched := Run(Received(issued));
    forall device ensures device in streams <==> Wanted(issued, device) {
      LastCommandWins(issued, device);
    }
  }
}
