/**
 The video fan-out as a state machine.  One producer hands frames to `multicast`,
 which offers each frame to every registered viewer while it holds the read lock;
 viewers register, leave and take frames in between, in any order.

 A step of the machine is one channel operation or one critical section.  `Due` says
 that control has reached the operation, `Ready` that it neither blocks nor panics
 (Go Programming Language Specification, sections "Send statements" and "Close").
 */
module Multicast {
  import opened Subsequences

  const CAPACITY := 10  // of a viewer's channel
  const LAG := 5        // with more frames than this unread, a viewer is skipped

  type Frame = nat

  datatype Viewer = Viewer(
    queue: seq<Frame>,     // in the channel
    closed: bool,          // the channel
    received: seq<Frame>,  // taken by the viewer
    offered: seq<Frame>,   // reached by the loop over the listeners
    dropped: nat,
    since: nat,            // frames published before it registered
    until: int)            // frames published before it left, -1 while registered

  datatype Phase =
    | Waiting                                    // for a frame
    | Holding(frame: Frame)                      // has received it and takes the read lock next
    | Sending(frame: Frame, todo: set<string>)   // holds the read lock
    | Closing(todo: set<string>)                 // holds the read lock
    | Finished

  datatype Mux = Mux(
    listeners: set<string>,
    viewers: map<string, Viewer>,  // every channel there has been
    phase: Phase,
    inClosed: bool,
    published: seq<Frame>,
    ending: set<string>,           // the listeners when the input ended
    endClosed: bool)               // the channel `end`

  const INITIAL := Mux({}, map[], Waiting, false, [], {}, false)

  datatype Action =
    | Subscribe(id: string)
    | Unsubscribe(id: string)
    | Receive(id: string)
    | CloseInput
    | Accept(frame: Frame)
    | Publish
    | Offer(id: string)
    | EndFrame
    | EndInput
    | CloseViewer(id: string)
    | Finish

  predicate Unlocked(m: Mux) {
    m.phase.Waiting? || m.phase.Holding? || m.phase.Finished?
  }

  /** Control has reached the operation.  A viewer registers once, under an id of its own. */
  predicate Due(m: Mux, a: Action) {
    match a
    case Subscribe(id) => Unlocked(m) && id !in m.viewers
    case Unsubscribe(id) => Unlocked(m) && id in m.listeners
    case Receive(id) => id in m.viewers && m.viewers[id].queue != []
    case CloseInput => !m.inClosed
    case Accept(_) => m.phase.Waiting? && !m.inClosed
    case Publish => m.phase.Holding?
    case Offer(id) => m.phase.Sending? && id in m.phase.todo
    case EndFrame => m.phase.Sending? && m.phase.todo == {}
    case EndInput => m.phase.Waiting? && m.inClosed
    case CloseViewer(id) => m.phase.Closing? && id in m.phase.todo
    case Finish => m.phase.Closing? && m.phase.todo == {}
  }

  predicate Lags(v: Viewer) {
    |v.queue| > LAG
  }

  /** The frames received, published or about to be. */
  function Accepted(m: Mux): seq<Frame> {
    m.published + if m.phase.Holding? then [m.phase.frame] else []
  }

  /** The channel operation neither blocks nor panics. */
  predicate Ready(m: Mux, a: Action) {
    match a
    case Unsubscribe(id) => m.listeners == {id} ==> !m.endClosed
    case Offer(id) =>
      id in m.viewers && (Lags(m.viewers[id]) || (!m.viewers[id].closed && |m.viewers[id].queue| < CAPACITY))
    case CloseViewer(id) => id in m.viewers && !m.viewers[id].closed
    case _ => true
  }

  function Offered(v: Viewer, frame: Frame): Viewer {
    var reached := v.(offered := v.offered + [frame]);
    if Lags(v) then reached.(dropped := v.dropped + 1) else reached.(queue := v.queue + [frame])
  }

  function Taken(v: Viewer): Viewer {
    if v.queue == [] then v else v.(queue := v.queue[1..], received := v.received + [v.queue[0]])
  }

  function With(m: Mux, id: string, v: Viewer): Mux {
    m.(viewers := m.viewers[id := v])
  }

  function Step(m: Mux, a: Action): Mux
    requires Due(m, a) && Ready(m, a)
  {
    match a
    case Subscribe(id) =>
      With(m.(listeners := m.listeners + {id}), id, Viewer([], false, [], [], 0, |m.published|, -1))
    case Unsubscribe(id) =>
      var left := m.(listeners := m.listeners - {id},
                     viewers := if id in m.viewers then m.viewers[id := m.viewers[id].(until := |m.published|)]
                                else m.viewers);
      if left.listeners == {} then left.(endClosed := true) else left
    case Receive(id) => With(m, id, Taken(m.viewers[id]))
    case CloseInput => m.(inClosed := true)
    case Accept(frame) => m.(phase := Holding(frame))
    case Publish => m.(phase := Sending(m.phase.frame, m.listeners), published := m.published + [m.phase.frame])
    case Offer(id) =>
      With(m, id, Offered(m.viewers[id], m.phase.frame)).(phase := Sending(m.phase.frame, m.phase.todo - {id}))
    case EndFrame => m.(phase := Waiting)
    case EndInput => m.(phase := Closing(m.listeners), ending := m.listeners)
    case CloseViewer(id) =>
      With(m, id, m.viewers[id].(closed := true)).(phase := Closing(m.phase.todo - {id}))
    case Finish => m.(phase := Finished)
  }

  ghost predicate Run(states: seq<Mux>, actions: seq<Action>) {
    && |states| == |actions| + 1
    && states[0] == INITIAL
    && forall i | 0 <= i < |actions| :: Follows(states, actions, i)
  }

  /** The `i`-th action leads from the `i`-th state to the next. */
  ghost predicate Follows(states: seq<Mux>, actions: seq<Action>, i: nat)
    requires i < |actions| && |states| == |actions| + 1
  {
    Due(states[i], actions[i]) && Ready(states[i], actions[i]) && states[i + 1] == Step(states[i], actions[i])
  }

  lemma RunGoesOn(states: seq<Mux>, actions: seq<Action>, a: Action)
    requires Run(states, actions) && Due(states[|actions|], a) && Ready(states[|actions|], a)
    ensures Run(states + [Step(states[|actions|], a)], actions + [a])
  {
    var states', more := states + [Step(states[|actions|], a)], actions + [a];
    forall i | 0 <= i < |more| ensures Follows(states', more, i) {
      assert i < |actions| ==> Follows(states, actions, i);
    }
  }

  // ---------------------------------------------------------------- invariants

  /** How many of the published frames the loop over the listeners has been through for a viewer: all
      but the last while the viewer is still to be reached, those before it left when it has left. */
  function Upto(m: Mux, id: string): int
    requires id in m.viewers
  {
    var v := m.viewers[id];
    if v.until >= 0 then v.until
    else if m.phase.Sending? && id in m.phase.todo then |m.published| - 1
    else |m.published|
  }

  /** The channel of a viewer was there at the end of the input and the closing loop has passed it. */
  predicate Passed(m: Mux, id: string) {
    id in m.ending && !(m.phase.Closing? && id in m.phase.todo)
  }

  /** What became of the frames a viewer was offered. */
  ghost predicate Accounted(v: Viewer) {
    && |v.queue| <= LAG + 1
    && |v.offered| == |v.received| + |v.queue| + v.dropped
    && Subsequence(v.received + v.queue, v.offered)
    && (v.dropped == 0 ==> v.received + v.queue == v.offered)
  }

  ghost predicate ViewerSafe(m: Mux, id: string)
    requires id in m.viewers
  {
    var v := m.viewers[id];
    && v.since <= Upto(m, id) <= |m.published| && -1 <= v.until
    && (id in m.listeners <==> v.until == -1)
    && v.offered == m.published[v.since..Upto(m, id)]
    && Accounted(v)
    && (v.closed <==> Passed(m, id))
  }

  ghost predicate PhaseSafe(m: Mux) {
    && (m.phase.Sending? ==> m.phase.todo <= m.listeners && m.published != [] && m.phase.frame == m.published[|m.published| - 1])
    && (m.phase.Closing? ==> m.phase.todo <= m.listeners && m.listeners == m.ending)
    && (m.phase.Closing? || m.phase.Finished? ==> m.inClosed)
    && (m.phase.Waiting? || m.phase.Holding? || m.phase.Sending? ==> m.ending == {})
  }

  ghost predicate Safe(m: Mux) {
    && PhaseSafe(m)
    && m.listeners <= m.viewers.Keys
    && m.ending <= m.viewers.Keys
    && forall id | id in m.viewers :: ViewerSafe(m, id)
  }

  /** The last listener leaves. */
  predicate Empties(m: Mux, a: Action) {
    a.Unsubscribe? && m.listeners == {a.id}
  }

  /** In a safe state a due operation neither blocks nor panics, unless it closes `end` again. */
  lemma DueIsReady(m: Mux, a: Action)
    requires Safe(m) && Due(m, a)
    ensures Ready(m, a) <==> !(Empties(m, a) && m.endClosed)
  {
  }

  // ---------------------------------------------------------------- one step

  lemma OfferedAccounted(v: Viewer, frame: Frame)
    requires Accounted(v)
    ensures Accounted(Offered(v, frame))
  {
    if Lags(v) {
      SkipLast(v.received + v.queue, v.offered, frame);
    } else {
      KeepLast(v.received + v.queue, v.offered, frame);
      assert v.received + (v.queue + [frame]) == (v.received + v.queue) + [frame];
    }
  }

  lemma TakenAccounted(v: Viewer)
    requires Accounted(v)
    ensures Accounted(Taken(v))
  {
    assert Taken(v).received + Taken(v).queue == v.received + v.queue;
  }

  lemma SliceLast(published: seq<Frame>, since: nat)
    requires since < |published|
    ensures published[since..|published| - 1] + [published[|published| - 1]] == published[since..|published|]
  {
  }

  lemma OfferStep(m: Mux, id: string)
    requires Safe(m) && Due(m, Offer(id)) && Ready(m, Offer(id))
    ensures ViewerSafe(Step(m, Offer(id)), id)
  {
    assert ViewerSafe(m, id);
    OfferedAccounted(m.viewers[id], m.phase.frame);
    SliceLast(m.published, m.viewers[id].since);
  }

  lemma TakeStep(m: Mux, id: string)
    requires Safe(m) && Due(m, Receive(id))
    ensures ViewerSafe(Step(m, Receive(id)), id)
  {
    assert ViewerSafe(m, id);
    TakenAccounted(m.viewers[id]);
  }

  lemma SubscribeStep(m: Mux, id: string)
    requires Safe(m) && Due(m, Subscribe(id))
    ensures ViewerSafe(Step(m, Subscribe(id)), id)
  {
    var none: seq<Frame> := [];
    assert none + none == none;
    Empty(none);
  }

  lemma PublishKeeps(m: Mux, id: string)
    requires Safe(m) && Due(m, Publish) && id in m.viewers
    ensures ViewerSafe(Step(m, Publish), id)
  {
    assert ViewerSafe(m, id);
    var more := m.published + [m.phase.frame];
    assert more[m.viewers[id].since..Upto(m, id)] == m.published[m.viewers[id].since..Upto(m, id)];
  }

  lemma LeaveStep(m: Mux, id: string)
    requires Safe(m) && Due(m, Unsubscribe(id)) && Ready(m, Unsubscribe(id)) && id in m.viewers
    ensures ViewerSafe(Step(m, Unsubscribe(id)), id)
  {
    assert ViewerSafe(m, id);
  }

  lemma Untouched(m: Mux, a: Action, id: string)
    requires Safe(m) && Due(m, a) && Ready(m, a) && id in m.viewers
    requires a.Subscribe? || a.Unsubscribe? || a.Receive? || a.Offer? ==> a.id != id
    requires !a.Publish? && !a.CloseViewer?
    ensures var m' := Step(m, a);
            && id in m'.viewers && m'.viewers[id] == m.viewers[id] && m'.published == m.published
            && (id in m'.listeners <==> id in m.listeners)
            && (m'.phase.Sending? && id in m'.phase.todo <==> m.phase.Sending? && id in m.phase.todo)
            && (Passed(m', id) <==> Passed(m, id))
  {
  }

  lemma SameIsSafe(m: Mux, m': Mux, id: string)
    requires id in m.viewers && ViewerSafe(m, id)
    requires id in m'.viewers && m'.viewers[id] == m.viewers[id] && m'.published == m.published
    requires id in m'.listeners <==> id in m.listeners
    requires m'.phase.Sending? && id in m'.phase.todo <==> m.phase.Sending? && id in m.phase.todo
    requires Passed(m', id) <==> Passed(m, id)
    ensures ViewerSafe(m', id)
  {
  }

  /** What a step does not concern stays as safe as it was. */
  lemma OtherViewer(m: Mux, a: Action, id: string)
    requires Safe(m) && Due(m, a) && Ready(m, a) && id in m.viewers
    requires a.Subscribe? || a.Unsubscribe? || a.Receive? || a.Offer? ==> a.id != id
    requires !a.Publish? && !a.CloseViewer?
    ensures id in Step(m, a).viewers && ViewerSafe(Step(m, a), id)
  {
    Untouched(m, a, id);
    SameIsSafe(m, Step(m, a), id);
  }

  lemma CloseStep(m: Mux, closed: string, id: string)
    requires Safe(m) && Due(m, CloseViewer(closed)) && Ready(m, CloseViewer(closed)) && id in m.viewers
    ensures ViewerSafe(Step(m, CloseViewer(closed)), id)
  {
  }

  lemma ViewerStep(m: Mux, a: Action, id: string)
    requires Safe(m) && Due(m, a) && Ready(m, a) && id in Step(m, a).viewers
    ensures ViewerSafe(Step(m, a), id)
  {
    match a {
      case Subscribe(x) => if x == id { SubscribeStep(m, id); } else { OtherViewer(m, a, id); }
      case Receive(x) => if x == id { TakeStep(m, id); } else { OtherViewer(m, a, id); }
      case Offer(x) => if x == id { OfferStep(m, id); } else { OtherViewer(m, a, id); }
      case Publish => PublishKeeps(m, id);
      case Unsubscribe(x) => if x == id { LeaveStep(m, id); } else { OtherViewer(m, a, id); }
      case CloseViewer(x) => CloseStep(m, x, id);
      case _ => OtherViewer(m, a, id);
    }
  }

  lemma LoopPhase(m: Mux, a: Action)
    requires Safe(m) && Due(m, a) && Ready(m, a) && !a.Subscribe? && !a.Unsubscribe? && !a.Receive?
    ensures PhaseSafe(Step(m, a))
    ensures Step(m, a).listeners <= Step(m, a).viewers.Keys && Step(m, a).ending <= Step(m, a).viewers.Keys
  {
  }

  lemma ViewerPhase(m: Mux, a: Action)
    requires Safe(m) && Due(m, a) && Ready(m, a) && (a.Subscribe? || a.Unsubscribe? || a.Receive?)
    ensures PhaseSafe(Step(m, a))
    ensures Step(m, a).listeners <= Step(m, a).viewers.Keys && Step(m, a).ending <= Step(m, a).viewers.Keys
  {
  }

  lemma SafeStep(m: Mux, a: Action)
    requires Safe(m) && Due(m, a) && Ready(m, a)
    ensures Safe(Step(m, a))
  {
    if a.Subscribe? || a.Unsubscribe? || a.Receive? {
      ViewerPhase(m, a);
    } else {
      LoopPhase(m, a);
    }
    forall id | id in Step(m, a).viewers ensures ViewerSafe(Step(m, a), id) {
      ViewerStep(m, a, id);
    }
  }

  // ---------------------------------------------------------------- runs

  lemma {:induction false} SafeRun(states: seq<Mux>, actions: seq<Action>, k: nat)
    requires Run(states, actions) && k < |states|
    ensures Safe(states[k])
  {
    if k > 0 {
      assert Follows(states, actions, k - 1);
      SafeRun(states, actions, k - 1);
      SafeStep(states[k - 1], actions[k - 1]);
    }
  }

  /** In every reachable state every operation that is reached can proceed, with one exception: the fan-out
      never waits for a slow or dead viewer, never sends to a closed channel and closes no viewer's channel
      twice; but the last listener that leaves after `end` was closed panics. */
  lemma NeverBlocks(states: seq<Mux>, actions: seq<Action>, k: nat, a: Action)
    requires Run(states, actions) && k < |states| && Due(states[k], a)
    ensures Ready(states[k], a) <==> !(Empties(states[k], a) && states[k].endClosed)
  {
    SafeRun(states, actions, k);
    DueIsReady(states[k], a);
  }

  /** In every state of every run, also while the loop is at work: what a viewer has and will get is an
      in-order part of the frames it was offered, which are those published while it was registered that the
      loop has been through for it; nothing is lost but what was dropped; a queue holds at most 6 of its 10. */
  lemma LossyDelivery(states: seq<Mux>, actions: seq<Action>, k: nat, id: string)
    requires Run(states, actions) && k < |states| && id in states[k].viewers
    ensures var m, v := states[k], states[k].viewers[id];
            && v.since <= Upto(m, id) <= |m.published|
            && v.offered == m.published[v.since..Upto(m, id)]
            && Subsequence(v.received + v.queue, v.offered)
            && |v.offered| == |v.received| + |v.queue| + v.dropped
            && |v.queue| <= 6 < 10 == CAPACITY
  {
    SafeRun(states, actions, k);
    assert ViewerSafe(states[k], id);
  }

  lemma DroppedStep(m: Mux, a: Action, id: string)
    requires Due(m, a) && Ready(m, a) && id in Step(m, a).viewers
    ensures Step(m, a).viewers[id].dropped == 0 <==>
            id in m.viewers ==> m.viewers[id].dropped == 0 && (a == Offer(id) ==> |m.viewers[id].queue| <= LAG)
  {
  }

  /** The viewer lags when the `i`-th step offers it a frame. */
  ghost predicate OfferedLagging(states: seq<Mux>, actions: seq<Action>, i: nat, id: string)
    requires i < |actions| && i < |states|
  {
    actions[i] == Offer(id) && id in states[i].viewers && |states[i].viewers[id].queue| > 5
  }

  /** A frame was dropped for a viewer if and only if it once had more than 5 unread when offered one. */
  lemma {:induction false} DroppedWhenLagging(states: seq<Mux>, actions: seq<Action>, k: nat, id: string)
    requires Run(states, actions) && k < |states| && id in states[k].viewers
    ensures states[k].viewers[id].dropped > 0 <==> exists i :: 0 <= i < k && OfferedLagging(states, actions, i, id)
  {
    assert Follows(states, actions, k - 1);
    DroppedStep(states[k - 1], actions[k - 1], id);
    assert OfferedLagging(states, actions, k - 1, id) <==>
           actions[k - 1] == Offer(id) && id in states[k - 1].viewers && |states[k - 1].viewers[id].queue| > 5;
    if id in states[k - 1].viewers {
      DroppedWhenLagging(states, actions, k - 1, id);
    } else {
      NotYet(states, actions, k - 1, id);
    }
  }

  lemma {:induction false} NotYet(states: seq<Mux>, actions: seq<Action>, k: nat, id: string)
    requires Run(states, actions) && k < |states| && id !in states[k].viewers
    ensures forall i | 0 <= i <= k :: id !in states[i].viewers
  {
    if k > 0 {
      assert Follows(states, actions, k - 1);
      NotYet(states, actions, k - 1, id);
    }
  }

  /** A viewer with at most 5 unread frames whenever it is offered one gets them all, in order. */
  lemma PromptViewerLosesNothing(states: seq<Mux>, actions: seq<Action>, k: nat, id: string)
    requires Run(states, actions) && k < |states| && id in states[k].viewers
    requires forall i | 0 <= i < k :: !OfferedLagging(states, actions, i, id)
    ensures states[k].viewers[id].received + states[k].viewers[id].queue == states[k].viewers[id].offered
  {
    SafeRun(states, actions, k);
    DroppedWhenLagging(states, actions, k, id);
    assert ViewerSafe(states[k], id);
  }

  /** When the fan-out has finished, exactly the viewers registered when the input ended have
      had their channels closed. */
  lemma ClosedAtTheEnd(states: seq<Mux>, actions: seq<Action>, k: nat, id: string)
    requires Run(states, actions) && k < |states| && states[k].phase.Finished? && id in states[k].viewers
    ensures states[k].viewers[id].closed <==> id in states[k].ending
  {
    SafeRun(states, actions, k);
    assert ViewerSafe(states[k], id);
  }

  // ---------------------------------------------------------------- the end signal

  lemma EndStep(m: Mux, a: Action)
    requires Due(m, a) && Ready(m, a)
    ensures Step(m, a).endClosed <==> m.endClosed || Empties(m, a)
    ensures Empties(m, a) ==> !m.endClosed && Step(m, a).listeners == {}
    ensures m.endClosed ==> (Step(m, a).listeners == {} <==> m.listeners == {} && !a.Subscribe?)
  {
  }

  /** In every run `end` is closed exactly when some step has left no listener. */
  lemma {:induction false} EndClosedWhenEmptied(states: seq<Mux>, actions: seq<Action>, k: nat)
    requires Run(states, actions) && k < |states|
    ensures states[k].endClosed <==> exists i :: 0 <= i < k && Empties(states[i], actions[i])
  {
    if k > 0 {
      assert Follows(states, actions, k - 1);
      EndClosedWhenEmptied(states, actions, k - 1);
      EndStep(states[k - 1], actions[k - 1]);
    }
  }

  /** No run has two such steps: a second one panics. */
  lemma EmptiedOnce(states: seq<Mux>, actions: seq<Action>, i: nat, j: nat)
    requires Run(states, actions) && i < |actions| && j < |actions|
    requires Empties(states[i], actions[i]) && Empties(states[j], actions[j])
    ensures i == j
  {
    assert Follows(states, actions, i);
    assert Follows(states, actions, j);
    EndClosedWhenEmptied(states, actions, i);
    EndClosedWhenEmptied(states, actions, j);
    EndStep(states[i], actions[i]);
    EndStep(states[j], actions[j]);
  }

  /** In every run `end` is closed exactly when there was one, and only one, departure that left no listener. */
  lemma EndClosedOnce(states: seq<Mux>, actions: seq<Action>, k: nat)
    requires Run(states, actions) && k < |states|
    ensures states[k].endClosed <==>
            exists i :: 0 <= i < k && Empties(states[i], actions[i])
                        && forall j | 0 <= j < k && Empties(states[j], actions[j]) :: j == i
  {
    EndClosedWhenEmptied(states, actions, k);
    if i :| 0 <= i < k && Empties(states[i], actions[i]) {
      forall j | 0 <= j < k && Empties(states[j], actions[j]) ensures j == i {
        EmptiedOnce(states, actions, i, j);
      }
    }
  }

  /** After `end` was closed there is a listener if and only if somebody has registered since. */
  lemma {:induction false} ListenersAfterEnd(states: seq<Mux>, actions: seq<Action>, i: nat, k: nat)
    requires Run(states, actions) && i < k < |states| && Empties(states[i], actions[i])
    ensures states[k].endClosed
    ensures states[k].listeners != {} <==> exists j :: i < j < k && actions[j].Subscribe?
    decreases k
  {
    assert Follows(states, actions, k - 1);
    EndStep(states[k - 1], actions[k - 1]);
    if k > i + 1 {
      ListenersAfterEnd(states, actions, i, k - 1);
    }
  }

  /** From `m`, taking `actions` one after the other, each due and ready, the machine gets to `last`. */
  ghost predicate Path(m: Mux, actions: seq<Action>, last: Mux)
    decreases |actions|
  {
    if actions == [] then m == last
    else Due(m, actions[0]) && Ready(m, actions[0]) && Path(Step(m, actions[0]), actions[1..], last)
  }

  lemma PathGoesOn(m: Mux, a: Action, rest: seq<Action>, last: Mux)
    requires Due(m, a) && Ready(m, a) && Path(Step(m, a), rest, last)
    ensures Path(m, [a] + rest, last)
  {
    assert ([a] + rest)[1..] == rest;
  }

  /** A step of the fan-out itself. */
  predicate OfFanOut(a: Action) {
    a.Publish? || a.Offer? || a.EndFrame? || a.EndInput? || a.CloseViewer? || a.Finish?
  }

  /** How many steps of its own the fan-out needs to take the next frame, or to finish. */
  function OnItsWay(m: Mux): nat {
    match m.phase
    case Holding(_) => |m.listeners| + 2
    case Sending(_, todo) => |todo| + 1
    case Closing(todo) => |todo| + 1
    case _ => 0
  }

  lemma OneLess(s: set<string>, id: string)
    requires id in s
    ensures |s - {id}| == |s| - 1
  {
    assert s == (s - {id}) + {id};
  }

  /** A next step of the fan-out that has a frame or is closing. */
  lemma NextOfFanOut(m: Mux) returns (a: Action)
    requires Safe(m) && (m.phase.Holding? || m.phase.Sending? || m.phase.Closing?)
    ensures OfFanOut(a) && Due(m, a) && Ready(m, a) && Safe(Step(m, a))
    ensures OnItsWay(Step(m, a)) == OnItsWay(m) - 1
    ensures var m' := Step(m, a);
            && m'.listeners == m.listeners && m'.endClosed == m.endClosed && m'.inClosed == m.inClosed
            && if m.phase.Closing? then m'.phase.Closing? || m'.phase.Finished? else m'.phase.Waiting? || m'.phase.Sending?
  {
    a := if m.phase.Holding? then Publish else if m.phase.Sending? then EndFrame else Finish;
    if !m.phase.Holding? && m.phase.todo != {} {
      var id :| id in m.phase.todo;
      OneLess(m.phase.todo, id);
      a := if m.phase.Sending? then Offer(id) else CloseViewer(id);
    }
    DueIsReady(m, a);
    SafeStep(m, a);
  }

  /** Whatever state the fan-out is in, it gets back to waiting for a frame, or to its end when the input has ended, by
      its own steps, one for each listener left and one or two more: no viewer has to do anything for it. */
  lemma {:induction false} FrameIsTaken(m: Mux) returns (actions: seq<Action>, last: Mux)
    requires Safe(m)
    ensures Path(m, actions, last) && Safe(last)
    ensures if m.phase.Closing? || m.phase.Finished? then last.phase.Finished? else last.phase.Waiting?
    ensures last.listeners == m.listeners && last.endClosed == m.endClosed && last.inClosed == m.inClosed
    ensures (forall i | 0 <= i < |actions| :: OfFanOut(actions[i])) && |actions| == OnItsWay(m)
    decreases OnItsWay(m)
  {
    if m.phase.Waiting? || m.phase.Finished? {
      return [], m;
    }
    var a := NextOfFanOut(m);
    var rest;
    rest, last := FrameIsTaken(Step(m, a));
    PathGoesOn(m, a, rest, last);
    actions := [a] + rest;
  }

  /** The fan-out goes on and viewers leave: nobody registers, and no frame comes in. */
  ghost predicate OnlyLeave(actions: seq<Action>) {
    forall i | 0 <= i < |actions| :: actions[i].Unsubscribe? || OfFanOut(actions[i])
  }

  /** The fan-out and viewers that leave get to a departure that panics. */
  ghost predicate LeavingPanics(m: Mux) {
    exists actions, last, id ::
      OnlyLeave(actions) && Path(m, actions, last) && Due(last, Unsubscribe(id)) && !Ready(last, Unsubscribe(id))
  }

  lemma {:induction false} LastToLeavePanics(m: Mux) returns (actions: seq<Action>, last: Mux, id: string)
    requires Unlocked(m) && m.endClosed && m.listeners != {}
    ensures OnlyLeave(actions)
    ensures Path(m, actions, last) && Due(last, Unsubscribe(id)) && !Ready(last, Unsubscribe(id))
    decreases |m.listeners|
  {
    id :| id in m.listeners;
    if m.listeners == {id} {
      return [], m, id;
    }
    var a := Unsubscribe(id);
    OneLess(m.listeners, id);
    var rest;
    rest, last, id := LastToLeavePanics(Step(m, a));
    PathGoesOn(m, a, rest, last);
    actions := [a] + rest;
  }

  lemma {:induction false} PathConcat(m: Mux, a: seq<Action>, middle: Mux, b: seq<Action>, last: Mux)
    requires Path(m, a, middle) && Path(middle, b, last)
    ensures Path(m, a + b, last)
    decreases |a|
  {
    if a == [] {
      assert a + b == b;
    } else {
      PathConcat(Step(m, a[0]), a[1..], middle, b, last);
      assert (a + b)[1..] == a[1..] + b;
    }
  }

  lemma {:induction false} NobodyLeft(m: Mux, actions: seq<Action>, last: Mux)
    requires m.listeners == {} && OnlyLeave(actions) && Path(m, actions, last)
    ensures last.listeners == {}
    decreases |actions|
  {
    if actions != [] {
      var a := actions[0];
      assert a.Unsubscribe? || OfFanOut(a);
      NobodyLeft(Step(m, a), actions[1..], last);
    }
  }

  /** In every state of every run, once `end` was closed: the fan-out and viewers that leave can make the process panic
      if and only if somebody has registered since. */
  lemma LeavingPanicsAfterLateViewer(states: seq<Mux>, actions: seq<Action>, i: nat, k: nat)
    requires Run(states, actions) && i < k < |states| && Empties(states[i], actions[i])
    ensures LeavingPanics(states[k]) <==> exists j :: i < j < k && actions[j].Subscribe?
  {
    ListenersAfterEnd(states, actions, i, k);
    SafeRun(states, actions, k);
    if states[k].listeners != {} {
      var before, middle := FrameIsTaken(states[k]);
      var leaving, last, id := LastToLeavePanics(middle);
      PathConcat(states[k], before, middle, leaving, last);
      assert OnlyLeave(before + leaving);
    } else if LeavingPanics(states[k]) {
      var leaving, last, id :| OnlyLeave(leaving) && Path(states[k], leaving, last)
                               && Due(last, Unsubscribe(id)) && !Ready(last, Unsubscribe(id));
      NobodyLeft(states[k], leaving, last);
    }
  }

  /** Two viewers are enough: one that leaves, and one that registers afterwards. */
  lemma LateViewerPanics(a: string, b: string) returns (states: seq<Mux>, actions: seq<Action>)
    requires a != b
    ensures Run(states, actions) && actions == [Subscribe(a), Unsubscribe(a), Subscribe(b)]
    ensures Due(states[3], Unsubscribe(b)) && !Ready(states[3], Unsubscribe(b))
  {
    actions := [Subscribe(a), Unsubscribe(a), Subscribe(b)];
    var s1 := Step(INITIAL, actions[0]);
    assert s1.listeners == {a};
    var s2 := Step(s1, actions[1]);
    assert s2.listeners == {} && s2.endClosed && b !in s2.viewers && s2.phase.Waiting?;
    var s3 := Step(s2, actions[2]);
    assert s3.listeners == {b} && s3.phase.Waiting?;
    states := [INITIAL, s1, s2, s3];
  }
}
