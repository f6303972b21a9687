/**
 One video device: the source that runs `startffmpegV2` beside the fan-out it feeds.
 The source sends a start command, makes up to 15 attempts to read the stream, looks
 at `end` after each read, and cleans up on its way out.

 A move is one operation of the source, or one of the fan-out or a viewer.  What the
 outside answers (a command, a launch, a read) is part of the move.
 */
module VideoSource {
  import M = Multicast

  const ATTEMPTS := 15

  datatype Source =
    | Starting
    | Retrying(attempt: nat)                  // at the head of the retry loop
    | Reading(attempt: nat)
    | Polling(attempt: nat, frame: M.Frame)   // has read a frame, looks at `end` next
    | Sending(attempt: nat, frame: M.Frame)   // offers the frame to the fan-out
    | Deleting | Stopping | Closing           // the clean-up
    | Gone

  datatype Act = StartCommand(ok: bool) | DeleteEntry | StopCommand | CloseStream

  datatype Device = Device(
    mux: M.Mux,
    source: Source,
    acts: seq<Act>,       // commands, the table of devices, the channel's end
    read: seq<M.Frame>,   // from all attempts
    launches: nat,
    kills: nat)

  const INITIAL := Device(M.INITIAL, Starting, [], [], 0, 0)

  datatype Move =
    | Around(a: M.Action)
    | Start(ok: bool)
    | Launch(ok: bool)
    | GiveUp
    | Read(frame: M.Frame)
    | ReadFails
    | Poll
    | Send
    | Delete
    | Stop
    | Close

  /** Of the fan-out's actions these two are the source's. */
  predicate IsAround(a: M.Action) {
    !a.Accept? && !a.CloseInput?
  }

  predicate Due(d: Device, m: Move) {
    match m
    case Around(a) => IsAround(a) && M.Due(d.mux, a)
    case Start(_) => d.source.Starting?
    case Launch(_) => d.source.Retrying? && d.source.attempt < ATTEMPTS
    case GiveUp => d.source.Retrying? && d.source.attempt >= ATTEMPTS
    case Read(_) => d.source.Reading?
    case ReadFails => d.source.Reading?
    case Poll => d.source.Polling?
    case Send => d.source.Sending?
    case Delete => d.source.Deleting?
    case Stop => d.source.Stopping?
    case Close => d.source.Closing?
  }

  /** The channel has no buffer: a frame can be sent when the fan-out waits for one, and not when the
      channel is closed. */
  predicate Ready(d: Device, m: Move) {
    match m
    case Around(a) => M.Ready(d.mux, a)
    case Send => d.mux.phase.Waiting? && !d.mux.inClosed
    case Close => !d.mux.inClosed
    case _ => true
  }

  function Done(d: Device, next: Source, act: Act): Device {
    d.(source := next, acts := d.acts + [act])
  }

  function Step(d: Device, m: Move): Device
    requires Due(d, m) && Ready(d, m)
  {
    match m
    case Around(a) => d.(mux := M.Step(d.mux, a))
    case Start(ok) => Done(d, if ok then Retrying(0) else Closing, StartCommand(ok))
    case Launch(ok) =>
      d.(source := if ok then Reading(d.source.attempt) else Retrying(d.source.attempt + 1), launches := d.launches + 1)
    case GiveUp => d.(source := Deleting)
    case Read(frame) => d.(source := Polling(d.source.attempt, frame), read := d.read + [frame])
    case ReadFails => d.(source := Retrying(d.source.attempt + 1))
    case Poll =>
      if d.mux.endClosed then d.(source := Deleting, kills := d.kills + 1)
      else d.(source := Sending(d.source.attempt, d.source.frame))
    case Send => d.(source := Reading(d.source.attempt), mux := M.Step(d.mux, M.Accept(d.source.frame)))
    case Delete => Done(d, Stopping, DeleteEntry)
    case Stop => Done(d, Closing, StopCommand)
    case Close => Done(d, Gone, CloseStream).(mux := M.Step(d.mux, M.CloseInput))
  }

  ghost predicate Run(states: seq<Device>, moves: seq<Move>) {
    && |states| == |moves| + 1
    && states[0] == INITIAL
    && forall i | 0 <= i < |moves| :: Follows(states, moves, i)
  }

  /** The `i`-th move leads from the `i`-th state to the next. */
  ghost predicate Follows(states: seq<Device>, moves: seq<Move>, i: nat)
    requires i < |moves| && |states| == |moves| + 1
  {
    Due(states[i], moves[i]) && Ready(states[i], moves[i]) && states[i + 1] == Step(states[i], moves[i])
  }

  lemma RunGoesOn(states: seq<Device>, moves: seq<Move>, m: Move)
    requires Run(states, moves) && Due(states[|moves|], m) && Ready(states[|moves|], m)
    ensures Run(states + [Step(states[|moves|], m)], moves + [m])
  {
    var states', more := states + [Step(states[|moves|], m)], moves + [m];
    forall i | 0 <= i < |more| ensures Follows(states', more, i) {
      assert i < |moves| ==> Follows(states, moves, i);
    }
  }

  // ---------------------------------------------------------------- invariants

  const STARTED: seq<Act> := [StartCommand(true), DeleteEntry, StopCommand, CloseStream]
  const REFUSED: seq<Act> := [StartCommand(false), CloseStream]

  /** How far along its acts the source is. */
  ghost predicate ActsSafe(d: Device) {
    match d.source
    case Starting => d.acts == []
    case Stopping => d.acts == STARTED[..2]
    case Closing => d.acts == STARTED[..3] || d.acts == REFUSED[..1]
    case Gone => d.acts == STARTED || d.acts == REFUSED
    case _ => d.acts == STARTED[..1]
  }

  /** The fan-out has received all frames read but the last one, while it is on its way or when it was
      thrown away. */
  ghost predicate FramesSafe(d: Device) {
    match d.source
    case Polling(_, frame) => d.read == M.Accepted(d.mux) + [frame] && d.kills == 0
    case Sending(_, frame) => d.read == M.Accepted(d.mux) + [frame] && d.kills == 0
    case _ =>
      M.Accepted(d.mux) <= d.read && |d.read| == |M.Accepted(d.mux)| + d.kills && d.kills <= 1
      && (d.kills == 1 ==> d.mux.endClosed)
      && (d.source.Starting? || d.source.Retrying? || d.source.Reading? ==> d.kills == 0)
  }

  ghost predicate AttemptsSafe(d: Device)
    requires ActsSafe(d)
  {
    match d.source
    case Retrying(attempt) => d.launches == attempt <= ATTEMPTS
    case Reading(attempt) => attempt < ATTEMPTS && d.launches == attempt + 1
    case Polling(attempt, _) => attempt < ATTEMPTS && d.launches == attempt + 1
    case Sending(attempt, _) => attempt < ATTEMPTS && d.launches == attempt + 1
    case Starting => d.launches == 0
    case _ => d.launches <= ATTEMPTS && (d.acts[0] == StartCommand(true) && d.kills == 0 ==> d.launches == ATTEMPTS)
              && (d.acts[0] == StartCommand(false) ==> d.launches == 0)
  }

  ghost predicate Safe(d: Device) {
    M.Safe(d.mux) && ActsSafe(d) && FramesSafe(d) && AttemptsSafe(d) && (d.mux.inClosed <==> d.source.Gone?)
  }

  /** What the fan-out and the viewers do not change. */
  lemma AroundKeeps(m: M.Mux, a: M.Action)
    requires M.Due(m, a) && M.Ready(m, a) && IsAround(a)
    ensures M.Accepted(M.Step(m, a)) == M.Accepted(m) && M.Step(m, a).inClosed == m.inClosed
    ensures m.endClosed ==> M.Step(m, a).endClosed
  {
  }

  lemma MuxStep(d: Device, m: Move)
    requires Safe(d) && Due(d, m) && Ready(d, m)
    ensures M.Safe(Step(d, m).mux)
  {
    match m {
      case Around(a) => M.SafeStep(d.mux, a);
      case Send => M.SafeStep(d.mux, M.Accept(d.source.frame));
      case Close => M.SafeStep(d.mux, M.CloseInput);
      case _ =>
    }
  }

  lemma SafeStep(d: Device, m: Move)
    requires Safe(d) && Due(d, m) && Ready(d, m)
    ensures Safe(Step(d, m))
  {
    MuxStep(d, m);
    if m.Around? {
      AroundKeeps(d.mux, m.a);
    }
  }

  lemma {:induction false} SafeRun(states: seq<Device>, moves: seq<Move>, k: nat)
    requires Run(states, moves) && k < |states|
    ensures Safe(states[k])
  {
    if k > 0 {
      assert Follows(states, moves, k - 1);
      SafeRun(states, moves, k - 1);
      SafeStep(states[k - 1], moves[k - 1]);
    }
  }

  // ---------------------------------------------------------------- in every run

  /** In every run: the channel is closed by the last act of the source and by nothing else; after a start command
      that succeeded, the entry is deleted and one stop command sent before that, each once and in this order;
      there are at most 15 attempts. */
  lemma CleansUpInOrder(states: seq<Device>, moves: seq<Move>, k: nat)
    requires Run(states, moves) && k < |states|
    ensures states[k].acts <= [StartCommand(true), DeleteEntry, StopCommand, CloseStream]
            || states[k].acts <= [StartCommand(false), CloseStream]
    ensures states[k].mux.inClosed <==> CloseStream in states[k].acts
    ensures states[k].mux.inClosed <==> states[k].source.Gone?
    ensures states[k].launches <= 15
  {
    SafeRun(states, moves, k);
    var d := states[k];
    assert d.acts <= STARTED || d.acts <= REFUSED by {
      assert STARTED[..1] <= STARTED && STARTED[..2] <= STARTED && STARTED[..3] <= STARTED && REFUSED[..1] <= REFUSED;
    }
  }

  /** In every run a source whose start command succeeded gives up only after 15 launches, unless it kills the process. */
  lemma TriesFifteenTimes(states: seq<Device>, moves: seq<Move>, k: nat)
    requires Run(states, moves) && k < |states|
    requires states[k].source.Deleting? || states[k].source.Stopping? || states[k].source.Closing? || states[k].source.Gone?
    ensures states[k].acts != []
    ensures states[k].acts[0] == StartCommand(true) && states[k].kills == 0 ==> states[k].launches == 15
    ensures states[k].acts[0] == StartCommand(false) ==> states[k].launches == 0
  {
    SafeRun(states, moves, k);
  }

  /** In every run the frames that the fan-out receives are those read, in order; only the last one read may be
      missing, when it is on its way or was read after `end` was closed. */
  lemma ReceivesWhatIsRead(states: seq<Device>, moves: seq<Move>, k: nat)
    requires Run(states, moves) && k < |states|
    ensures var d, accepted := states[k], M.Accepted(states[k].mux);
            && accepted <= d.read && |d.read| <= |accepted| + 1
            && (accepted != d.read <==> d.source.Polling? || d.source.Sending? || d.kills == 1)
            && (d.kills >= 1 ==> d.mux.endClosed)
  {
    SafeRun(states, moves, k);
  }

  /** Since `first`, when `end` was closed already, the fan-out has received at most the frame on its way then. */
  ghost predicate AtMostOneMore(first: Device, d: Device) {
    && d.mux.endClosed
    && if d.source.Sending? then d.source == first.source && M.Accepted(d.mux) == M.Accepted(first.mux)
       else M.Accepted(d.mux) == M.Accepted(first.mux)
            || (first.source.Sending? && M.Accepted(d.mux) == M.Accepted(first.mux) + [first.source.frame])
  }

  lemma OneMoreStep(first: Device, d: Device, m: Move)
    requires AtMostOneMore(first, d) && Due(d, m) && Ready(d, m)
    ensures AtMostOneMore(first, Step(d, m))
  {
    if m.Around? {
      AroundKeeps(d.mux, m.a);
    }
  }

  /** In every run, once `end` is closed the fan-out receives at most one more frame: the one being sent. */
  lemma {:induction false} OneFrameAfterEnd(states: seq<Device>, moves: seq<Move>, i: nat, k: nat)
    requires Run(states, moves) && i <= k < |states| && states[i].mux.endClosed
    ensures AtMostOneMore(states[i], states[k])
    decreases k
  {
    if i < k {
      assert Follows(states, moves, k - 1);
      OneFrameAfterEnd(states, moves, i, k - 1);
      OneMoreStep(states[i], states[k - 1], moves[k - 1]);
    }
  }

  /** The frames that are under way between a read and the listeners when `end` is closed. */
  function UnderWay(d: Device): seq<M.Frame> {
    (if d.mux.phase.Holding? then [d.mux.phase.frame] else [])
    + (if d.source.Sending? then [d.source.frame] else [])
  }

  /** In every run, once `end` is closed at most two more frames are offered to listeners: one that the fan-out has
      received and one that is being sent. */
  lemma TwoFramesAfterEnd(states: seq<Device>, moves: seq<Move>, i: nat, k: nat)
    requires Run(states, moves) && i <= k < |states| && states[i].mux.endClosed
    ensures states[k].mux.published <= states[i].mux.published + UnderWay(states[i])
    ensures |UnderWay(states[i])| <= 2
  {
    OneFrameAfterEnd(states, moves, i, k);
    assert states[k].mux.published <= M.Accepted(states[k].mux);
    assert M.Accepted(states[i].mux) <= states[i].mux.published + UnderWay(states[i]);
    if states[i].source.Sending? {
      assert states[i].mux.published + UnderWay(states[i]) == M.Accepted(states[i].mux) + [states[i].source.frame];
    }
  }

  /** An upper bound of the moves the source has left when `end` is closed. */
  function Rank(s: Source): int {
    match s
    case Starting => 4 * ATTEMPTS + 5
    case Retrying(attempt) => 4 * (ATTEMPTS - attempt) + 4
    case Reading(attempt) => 4 * (ATTEMPTS - attempt) + 2
    case Polling(attempt, _) => 4 * (ATTEMPTS - attempt) + 1
    case Sending(attempt, _) => 4 * (ATTEMPTS - attempt) + 3
    case Deleting => 3
    case Stopping => 2
    case Closing => 1
    case Gone => 0
  }

  /** The moves of the source among those from `i` to `k`. */
  ghost function SourceMoves(moves: seq<Move>, i: nat, k: nat): nat
    requires i <= k <= |moves|
    decreases k
  {
    if i == k then 0 else SourceMoves(moves, i, k - 1) + if moves[k - 1].Around? then 0 else 1
  }

  lemma RankStep(d: Device, m: Move)
    requires Safe(d) && d.mux.endClosed && Due(d, m) && Ready(d, m)
    ensures Step(d, m).mux.endClosed
    ensures Rank(Step(d, m).source) <= Rank(d.source) - if m.Around? then 0 else 1
  {
    if m.Around? {
      AroundKeeps(d.mux, m.a);
    }
  }

  lemma RankRange(d: Device)
    requires ActsSafe(d) && AttemptsSafe(d)
    ensures 0 <= Rank(d.source) <= 65
  {
  }

  /** In every run, whatever the process and the commands answer: once `end` is closed the source has at most 65
      moves left. */
  lemma {:induction false} SourceStops(states: seq<Device>, moves: seq<Move>, i: nat, k: nat)
    requires Run(states, moves) && i <= k < |states| && states[i].mux.endClosed
    ensures states[k].mux.endClosed
    ensures 0 <= Rank(states[k].source) <= Rank(states[i].source) - SourceMoves(moves, i, k)
    ensures SourceMoves(moves, i, k) <= 65
    decreases k
  {
    SafeRun(states, moves, i);
    RankRange(states[i]);
    if i < k {
      assert Follows(states, moves, k - 1);
      SourceStops(states, moves, i, k - 1);
      SafeRun(states, moves, k - 1);
      RankStep(states[k - 1], moves[k - 1]);
      SafeRun(states, moves, k);
      RankRange(states[k]);
    }
  }

  // ---------------------------------------------------------------- nobody has to help

  /** A move of the source or of the fan-out: no viewer has to do anything for it. */
  predicate IsOwn(m: Move) {
    m.Around? ==> M.OfFanOut(m.a)
  }

  predicate Finished(d: Device) {
    d.source.Gone? && d.mux.phase.Finished?
  }

  /** What the outside answers in an attempt: whether the process starts, and what it reads. */
  datatype Answer = Unstartable | Dies | Gives(frame: M.Frame)

  function NextOfSource(d: Device, startOk: bool, answers: nat -> Answer): Move
    requires !d.source.Gone?
  {
    match d.source
    case Starting => Start(startOk)
    case Retrying(attempt) => if attempt < ATTEMPTS then Launch(!answers(attempt).Unstartable?) else GiveUp
    case Reading(attempt) => if answers(attempt).Gives? then Read(answers(attempt).frame) else ReadFails
    case Polling(_, _) => Poll
    case Sending(_, _) => Send
    case Deleting => Delete
    case Stopping => Stop
    case Closing => Close
  }

  /** Whatever the outside answers, in a safe state some move of the source or the fan-out can be made, until
      both have finished. */
  lemma NextOwn(d: Device, startOk: bool, answers: nat -> Answer) returns (m: Move)
    requires Safe(d) && !Finished(d)
    ensures IsOwn(m) && Due(d, m) && Ready(d, m)
    ensures !m.Around? ==> !d.source.Gone? && m == NextOfSource(d, startOk, answers)
    ensures m.Around? ==> !d.mux.phase.Waiting? || d.source.Gone?
  {
    if d.mux.phase.Holding? {
      m := Around(M.Publish);
    } else if d.mux.phase.Sending? || d.mux.phase.Closing? {
      var todo := d.mux.phase.todo;
      if todo == {} {
        m := Around(if d.mux.phase.Sending? then M.EndFrame else M.Finish);
      } else {
        var id :| id in todo;
        m := Around(if d.mux.phase.Sending? then M.Offer(id) else M.CloseViewer(id));
      }
      M.DueIsReady(d.mux, m.a);
    } else if d.source.Gone? {
      m := Around(M.EndInput);
    } else {
      m := NextOfSource(d, startOk, answers);
    }
  }

  function PhaseRank(p: M.Phase): nat {
    match p
    case Holding(_) => 4
    case Sending(_, _) => 3
    case Waiting => 2
    case Closing(_) => 1
    case Finished => 0
  }

  function Todo(p: M.Phase): nat {
    match p
    case Sending(_, todo) => |todo|
    case Closing(todo) => |todo|
    case _ => 0
  }

  /** From `d`, making `moves` one after the other, each due and ready, the device gets to `last`. */
  ghost predicate Path(d: Device, moves: seq<Move>, last: Device)
    decreases |moves|
  {
    if moves == [] then d == last
    else Due(d, moves[0]) && Ready(d, moves[0]) && Path(Step(d, moves[0]), moves[1..], last)
  }

  /** What a move of the fan-out changes and what not. */
  lemma FanOutStep(m: M.Mux, a: M.Action)
    requires M.Due(m, a) && M.Ready(m, a) && IsOwn(Around(a)) && IsAround(a)
    ensures var m' := M.Step(m, a);
            && m'.endClosed == m.endClosed && m'.listeners == m.listeners
            && (PhaseRank(m'.phase) < PhaseRank(m.phase)
                || (PhaseRank(m'.phase) == PhaseRank(m.phase) && Todo(m'.phase) < Todo(m.phase)))
            && m'.ending == if a.EndInput? then m.listeners else m.ending
  {
    if a.Offer? || a.CloseViewer? {
      M.OneLess(m.phase.todo, a.id);
    }
  }

  /** `d'` is closer to the end than `d`. */
  ghost predicate Closer(d': Device, d: Device) {
    || 0 <= Rank(d'.source) < Rank(d.source)
    || (d'.source == d.source
        && (PhaseRank(d'.mux.phase) < PhaseRank(d.mux.phase)
            || (PhaseRank(d'.mux.phase) == PhaseRank(d.mux.phase) && Todo(d'.mux.phase) < Todo(d.mux.phase))))
  }

  lemma FanOutIsCloser(d: Device, a: M.Action)
    requires Safe(d) && Due(d, Around(a)) && Ready(d, Around(a)) && M.OfFanOut(a)
    ensures var d' := Step(d, Around(a));
            && d'.mux.endClosed == d.mux.endClosed && d'.mux.listeners == d.mux.listeners && Closer(d', d)
            && (d'.mux.phase.Finished? ==> d'.mux.ending == d.mux.listeners)
  {
    FanOutStep(d.mux, a);
  }

  lemma SourceIsCloser(d: Device, m: Move)
    requires Safe(d) && d.mux.endClosed && Due(d, m) && Ready(d, m) && !m.Around? && !d.mux.phase.Finished?
    ensures var d' := Step(d, m);
            d'.mux.endClosed && d'.mux.listeners == d.mux.listeners && Closer(d', d) && !d'.mux.phase.Finished?
  {
    SafeStep(d, m);
    RankStep(d, m);
    RankRange(Step(d, m));
  }

  lemma OwnStep(d: Device, startOk: bool, answers: nat -> Answer) returns (m: Move)
    requires Safe(d) && d.mux.endClosed && !Finished(d)
    ensures Due(d, m) && Ready(d, m) && IsOwn(m) && !d.mux.phase.Finished?
    ensures var d' := Step(d, m);
            && Safe(d') && d'.mux.endClosed && d'.mux.listeners == d.mux.listeners && Closer(d', d)
            && (d'.mux.phase.Finished? ==> d'.mux.ending == d.mux.listeners)
  {
    m := NextOwn(d, startOk, answers);
    SafeStep(d, m);
    if m.Around? {
      FanOutIsCloser(d, m.a);
    } else {
      SourceIsCloser(d, m);
    }
  }

  /** Once `end` is closed, whatever the outside answers, source and fan-out finish by their own moves, and then
      the channel of everybody registered is closed. */
  lemma {:induction false} StreamEnds(d: Device, startOk: bool, answers: nat -> Answer)
    returns (moves: seq<Move>, last: Device)
    requires Safe(d) && d.mux.endClosed
    ensures Path(d, moves, last) && (forall m | m in moves :: IsOwn(m))
    ensures Safe(last) && Finished(last) && last.mux.listeners == d.mux.listeners
    ensures if d.mux.phase.Finished? then last == d else last.mux.ending == d.mux.listeners
    decreases Rank(d.source), PhaseRank(d.mux.phase), Todo(d.mux.phase)
  {
    RankRange(d);
    if Finished(d) {
      return [], d;
    }
    var m := OwnStep(d, startOk, answers);
    var rest;
    rest, last := StreamEnds(Step(d, m), startOk, answers);
    moves := [m] + rest;
    assert moves[1..] == rest;
  }

  /** In every reachable state with `end` closed and the fan-out not finished: source and fan-out can finish by
      their own moves, and then everybody registered has had the channel closed. */
  lemma EverybodyIsClosed(states: seq<Device>, moves: seq<Move>, k: nat, startOk: bool, answers: nat -> Answer)
    returns (more: seq<Move>, last: Device)
    requires Run(states, moves) && k < |states| && states[k].mux.endClosed && !states[k].mux.phase.Finished?
    ensures Path(states[k], more, last) && (forall m | m in more :: IsOwn(m)) && Finished(last)
    ensures last.acts == STARTED || last.acts == REFUSED
    ensures forall id | id in states[k].mux.listeners :: id in last.mux.viewers && last.mux.viewers[id].closed
  {
    SafeRun(states, moves, k);
    more, last := StreamEnds(states[k], startOk, answers);
    forall id | id in states[k].mux.listeners ensures id in last.mux.viewers && last.mux.viewers[id].closed {
      assert id in last.mux.viewers && M.ViewerSafe(last.mux, id);
    }
  }

  /** In every state in which the fan-out has finished, exactly those registered when the input ended have had
      their channels closed; and the input has ended. */
  lemma ClosedWhenFinished(states: seq<Device>, moves: seq<Move>, k: nat, id: string)
    requires Run(states, moves) && k < |states| && states[k].mux.phase.Finished? && id in states[k].mux.viewers
    ensures states[k].source.Gone?
    ensures states[k].mux.viewers[id].closed <==> id in states[k].mux.ending
  {
    SafeRun(states, moves, k);
    assert M.ViewerSafe(states[k].mux, id);
  }

  // ---------------------------------------------------------------- two frames are possible

  lemma GoOn(states: seq<Device>, moves: seq<Move>, m: Move) returns (states': seq<Device>, moves': seq<Move>)
    requires Run(states, moves) && Due(states[|moves|], m) && Ready(states[|moves|], m)
    ensures Run(states', moves') && states <= states' && moves' == moves + [m]
    ensures states'[|moves'|] == Step(states[|moves|], m)
  {
    RunGoesOn(states, moves, m);
    states', moves' := states + [Step(states[|moves|], m)], moves + [m];
  }

  /** One viewer; the fan-out holds `f`, which it has not offered yet. */
  lemma OneHeld(v: string, f: M.Frame) returns (states: seq<Device>, moves: seq<Move>)
    ensures Run(states, moves)
    ensures var d := states[|moves|];
            && d.source == Reading(0) && d.mux.phase == M.Holding(f) && d.mux.listeners == {v}
            && d.mux.published == [] && !d.mux.endClosed && !d.mux.inClosed
  {
    states, moves := GoOn([INITIAL], [], Around(M.Subscribe(v)));
    states, moves := GoOn(states, moves, Start(true));
    states, moves := GoOn(states, moves, Launch(true));
    states, moves := GoOn(states, moves, Read(f));
    states, moves := GoOn(states, moves, Poll);
    states, moves := GoOn(states, moves, Send);
  }

  /** The last viewer leaves then, and both frames are still published. */
  lemma TwoFramesPossible(v: string, f: M.Frame, g: M.Frame)
    returns (states: seq<Device>, moves: seq<Move>, i: nat)
    ensures Run(states, moves) && i < |moves|
    ensures states[i].mux.endClosed && states[i].mux.published == [] && states[|moves|].mux.published == [f, g]
  {
    states, moves := OneHeld(v, f);
    states, moves := GoOn(states, moves, Read(g));
    states, moves := GoOn(states, moves, Poll);
    states, moves := GoOn(states, moves, Around(M.Unsubscribe(v)));
    i := |moves|;
    assert states[i].mux.listeners == {};
    states, moves := GoOn(states, moves, Around(M.Publish));
    states, moves := GoOn(states, moves, Around(M.EndFrame));
    states, moves := GoOn(states, moves, Send);
    states, moves := GoOn(states, moves, Around(M.Publish));
    assert [] + [f] + [g] == [f, g];
  }

  // ---------------------------------------------------------------- the loops of the source

  /** An attempt: the process cannot be started, or it yields these frames and then dies. */
  datatype Attempt = Refuses | Output(frames: seq<M.Frame>)

  function FramesOf(attempt: Attempt): seq<M.Frame> {
    if attempt.Output? then attempt.frames else []
  }

  /** The frames of all attempts. */
  function AllFrames(attempts: seq<Attempt>): seq<M.Frame> {
    if attempts == [] then [] else AllFrames(attempts[..|attempts| - 1]) + FramesOf(attempts[|attempts| - 1])
  }

  lemma {:induction false} FewerFrames(attempts: seq<Attempt>, i: nat)
    requires i <= |attempts|
    ensures AllFrames(attempts[..i]) <= AllFrames(attempts)
  {
    if i < |attempts| {
      FewerFrames(attempts[..|attempts| - 1], i);
      assert attempts[..|attempts| - 1][..i] == attempts[..i];
    } else {
      assert attempts[..i] == attempts;
    }
  }

  lemma NextFrames(attempts: seq<Attempt>, i: nat)
    requires i < |attempts|
    ensures AllFrames(attempts[..i]) + FramesOf(attempts[i]) == AllFrames(attempts[..i + 1]) <= AllFrames(attempts)
  {
    assert attempts[..i + 1][..i] == attempts[..i];
    FewerFrames(attempts, i + 1);
  }

  /** A turn of the fan-out or of a viewer: what would wait or panic does not happen. */
  function AfterTurn(d: Device, a: M.Action): Device {
    if Due(d, Around(a)) && Ready(d, Around(a)) then Step(d, Around(a)) else d
  }

  function AfterTurns(d: Device, turns: seq<M.Action>): Device {
    if turns == [] then d else AfterTurn(AfterTurns(d, turns[..|turns| - 1]), turns[|turns| - 1])
  }

  lemma NextTurn(d: Device, turns: seq<M.Action>, i: nat)
    requires i < |turns|
    ensures AfterTurns(d, turns[..i + 1]) == AfterTurn(AfterTurns(d, turns[..i]), turns[i])
  {
    assert turns[..i + 1][..i] == turns[..i];
  }

  class Ffmpeg {
    var device: Device
    ghost var states: seq<Device>
    ghost var moves: seq<Move>

    /** The run that the device has gone through. */
    ghost predicate Valid()
      reads this
    {
      Run(states, moves) && states[|moves|] == device && Safe(device)
    }

    constructor ()
      ensures Valid() && device == INITIAL && moves == []
    {
      device, states, moves := INITIAL, [INITIAL], [];
    }

    method Do(m: Move)
      requires Valid() && Due(device, m) && Ready(device, m)
      modifies this
      ensures Valid() && device == Step(old(device), m)
    {
      SafeStep(device, m);
      RunGoesOn(states, moves, m);
      device := Step(device, m);
      states, moves := states + [device], moves + [m];
    }

    /** What the source does not see of the others, and what it does. */
    twostate predicate OthersRan()
      reads this
    {
      && device == old(device).(mux := device.mux)
      && M.Accepted(device.mux) == M.Accepted(old(device.mux)) && device.mux.inClosed == old(device.mux.inClosed)
      && (old(device.mux.endClosed) ==> device.mux.endClosed)
    }

    method Turn(a: M.Action)
      requires Valid()
      modifies this
      ensures Valid() && OthersRan() && device == AfterTurn(old(device), a)
      ensures !device.mux.inClosed ==> NoFurther(old(device.mux.phase), device.mux.phase)
    {
      if Due(device, Around(a)) && Ready(device, Around(a)) {
        TurnKeeps(device, a);
        Do(Around(a));
      }
    }

    /** The fan-out and the viewers run: of `turns`, exactly what is possible happens, in this order. */
    method Others(turns: seq<M.Action>)
      requires Valid()
      modifies this
      ensures Valid() && OthersRan() && device == AfterTurns(old(device), turns)
      ensures !device.mux.inClosed ==> NoFurther(old(device.mux.phase), device.mux.phase)
    {
      for i := 0 to |turns|
        invariant Valid() && OthersRan() && device == AfterTurns(old(device), turns[..i])
        invariant !device.mux.inClosed ==> NoFurther(old(device.mux.phase), device.mux.phase)
      {
        NextTurn(old(device), turns, i);
        Turn(turns[i]);
      }
      assert turns[..|turns|] == turns;
    }

    /** One step of the fan-out that has a frame. */
    method Forward()
      requires Valid() && (device.mux.phase.Holding? || device.mux.phase.Sending?)
      modifies this
      ensures Valid() && OthersRan()
      ensures NoFurther(old(device.mux.phase), device.mux.phase)
      ensures old(device.mux.phase.Sending?) && device.mux.phase.Sending? ==>
                Todo(device.mux.phase) < Todo(old(device.mux.phase))
      ensures old(device.mux.phase.Holding?) ==> device.mux.phase.Sending?
    {
      var a := M.Publish;
      if device.mux.phase.Sending? {
        var todo := device.mux.phase.todo;
        a := M.EndFrame;
        if todo != {} {
          var id :| id in todo;
          a := M.Offer(id);
        }
      }
      M.DueIsReady(device.mux, a);
      AroundKeeps(device.mux, a);
      FanOutStep(device.mux, a);
      Do(Around(a));
    }

    /** The send waits until the fan-out takes a frame again; meanwhile the others take their turns. */
    method SendFrame(others: nat -> seq<M.Action>)
      requires Valid() && device.source.Sending?
      modifies this
      ensures Valid() && device.source == Reading(old(device.source.attempt))
      ensures Same(old(device), device)
      ensures M.Accepted(device.mux) == M.Accepted(old(device.mux)) + [old(device.source.frame)]
    {
      var n := 0;
      while !device.mux.phase.Waiting?
        invariant Valid() && OthersRan()
        decreases PhaseRank(device.mux.phase), Todo(device.mux.phase)
      {
        Forward();
        Others(others(n));
        n := n + 1;
      }
      Do(Send);
    }

    /** Reads until the process dies or `end` is found closed; then the process is killed. */
    method ReadAll(frames: seq<M.Frame>, others: (nat, nat) -> seq<M.Action>) returns (ended: bool)
      requires Valid() && device.source.Reading?
      modifies this
      ensures Valid() && device.acts == old(device.acts) && device.launches == old(device.launches)
      ensures ended <==> device.source.Deleting?
      ensures !ended ==> device.source == Retrying(old(device.source.attempt) + 1) && device.kills == 0
      ensures ended ==> device.kills == 1 && device.mux.endClosed
      ensures old(device.read) <= device.read <= old(device.read) + frames
      ensures !ended ==> device.read == old(device.read) + frames
    {
      for k := 0 to |frames|
        invariant Valid() && device.source == old(device.source)
        invariant device.acts == old(device.acts) && device.launches == old(device.launches)
        invariant device.read == old(device.read) + frames[..k]
      {
        Others(others(k, 0));
        Do(Read(frames[k]));
        ReadOn(old(device.read), frames, k);
        Others(others(k, 1));
        if device.mux.endClosed {
          Do(Poll);
          return true;
        }
        Do(Poll);
        SendFrame((j: nat) => others(k, j + 2));
      }
      assert frames[..|frames|] == frames;
      Do(ReadFails);
      return false;
    }

    /** One turn of the retry loop: starts the process and reads it to its end. */
    method Try(attempt: Attempt, others: (nat, nat) -> seq<M.Action>) returns (ended: bool)
      requires Valid() && device.source.Retrying? && device.source.attempt < ATTEMPTS
      modifies this
      ensures Valid() && device.acts == old(device.acts)
      ensures ended <==> device.source.Deleting?
      ensures !ended ==> device.source == Retrying(old(device.source.attempt) + 1) && device.kills == 0
      ensures ended ==> device.kills == 1
      ensures old(device.read) <= device.read <= old(device.read) + FramesOf(attempt)
      ensures !ended ==> device.read == old(device.read) + FramesOf(attempt)
    {
      if attempt.Refuses? {
        Do(Launch(false));
        assert device.read == old(device.read) + [];
        return false;
      }
      Do(Launch(true));
      ended := ReadAll(attempt.frames, others);
    }

    /** The attempt `i`, after all frames of those before it. */
    method TryNext(i: nat, attempts: seq<Attempt>, others: (nat, nat) -> seq<M.Action>) returns (ended: bool)
      requires i < |attempts| <= ATTEMPTS
      requires Valid() && device.source == Retrying(i) && device.read == AllFrames(attempts[..i])
      modifies this
      ensures Valid() && device.acts == old(device.acts)
      ensures if ended then device.source.Deleting? && device.kills == 1 else device.source == Retrying(i + 1)
      ensures if ended then device.read <= AllFrames(attempts) else device.read == AllFrames(attempts[..i + 1])
    {
      NextFrames(attempts, i);
      ended := Try(attempts[i], others);
    }

    method RetryLoop(attempts: seq<Attempt>, others: (nat, nat, nat) -> seq<M.Action>)
      requires |attempts| == 15
      requires Valid() && device.source == Retrying(0) && device.read == []
      modifies this
      ensures Valid() && device.acts == old(device.acts) && device.source.Deleting?
      ensures device.read <= AllFrames(attempts)
      ensures device.kills == 0 ==> device.read == AllFrames(attempts)
    {
      for i := 0 to |attempts|
        invariant Valid() && device.acts == old(device.acts) && device.source == Retrying(i)
        invariant device.read == AllFrames(attempts[..i])
      {
        var ended := TryNext(i, attempts, (k: nat, j: nat) => others(i, k, j));
        if ended {
          return;
        }
      }
      assert attempts[..|attempts|] == attempts;
      Do(GiveUp);
    }

    /** The deferred clean-up, up to the close. */
    method CleanUp(others: nat -> seq<M.Action>)
      requires Valid() && device.source.Deleting?
      modifies this
      ensures Valid() && device.source.Closing? && device.acts == STARTED[..3]
      ensures device.read == old(device.read) && device.kills == old(device.kills)
      ensures M.Accepted(device.mux) == M.Accepted(old(device.mux))
    {
      Do(Delete);
      Others(others(0));
      Do(Stop);
    }

    /** The source from its start to its end, whatever is answered and whatever the others do meanwhile. */
    method StartFfmpeg(started: bool, attempts: seq<Attempt>, others: (nat, nat, nat) -> seq<M.Action>)
      requires Valid() && device == INITIAL && |attempts| == 15
      modifies this
      ensures Valid() && device.source.Gone? && device.mux.inClosed
      ensures device.acts == if started then [StartCommand(true), DeleteEntry, StopCommand, CloseStream]
                             else [StartCommand(false), CloseStream]
      ensures started && device.kills == 0 ==> device.launches == 15
      ensures device.read <= AllFrames(attempts)
      ensures started && device.kills == 0 ==> M.Accepted(device.mux) == AllFrames(attempts)
    {
      Others(others(0, 0, 0));
      Do(Start(started));
      if started {
        RetryLoop(attempts, others);
        CleanUp((k: nat) => others(15, 0, k));
      }
      Others(others(15, 1, 0));
      Do(Close);
    }
  }

  /** All but the fan-out's state and the source is the same. */
  ghost predicate Same(d: Device, d': Device) {
    d'.acts == d.acts && d'.launches == d.launches && d'.read == d.read && d'.kills == d.kills
  }

  /** The fan-out is at least as close to taking the next frame. */
  predicate NoFurther(before: M.Phase, after: M.Phase) {
    || PhaseRank(after) < PhaseRank(before)
    || (PhaseRank(after) == PhaseRank(before) && Todo(after) <= Todo(before))
  }

  lemma PhaseKept(m: M.Mux, a: M.Action)
    requires M.Due(m, a) && M.Ready(m, a) && IsAround(a)
    ensures NoFurther(m.phase, M.Step(m, a).phase)
  {
    if a.Offer? || a.CloseViewer? {
      M.OneLess(m.phase.todo, a.id);
    }
  }

  lemma TurnKeeps(d: Device, a: M.Action)
    requires Due(d, Around(a)) && Ready(d, Around(a))
    ensures var d' := Step(d, Around(a));
            && d' == d.(mux := d'.mux) && NoFurther(d.mux.phase, d'.mux.phase)
            && M.Accepted(d'.mux) == M.Accepted(d.mux) && d'.mux.inClosed == d.mux.inClosed
            && (d.mux.endClosed ==> d'.mux.endClosed)
  {
    AroundKeeps(d.mux, a);
    PhaseKept(d.mux, a);
  }

  lemma ReadOn(before: seq<M.Frame>, frames: seq<M.Frame>, k: nat)
    requires k < |frames|
    ensures before + frames[..k] + [frames[k]] == before + frames[..k + 1]
    ensures before <= before + frames[..k + 1] <= before + frames
  {
    assert frames[..k + 1] == frames[..k] + [frames[k]];
  }
}
