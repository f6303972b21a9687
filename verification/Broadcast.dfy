/**
 The websocket fan-out as a state machine.  Publishers take a mutex and offer their
 message to every subscriber without waiting; a full buffer closes the connection.
 Each subscriber's own goroutine takes messages and writes them out.

 `Due` says that control has reached an operation, `Ready` that it does not wait for
 another goroutine: for the mutex, or for a message to take.  Publishing goroutines are
 ordered by when they get the mutex.  Closing a connection takes effect at once; a write
 begun before that may still succeed, one begun later fails.
 */
module Broadcast {
  import opened Options
  import opened Subsequences

  const CAPACITY := 32  // of a subscriber's channel

  type Message = nat

  datatype Subscriber = Subscriber(
    queue: seq<Message>,
    inflight: Option<Message>,  // taken and being written
    late: bool,                 // taken when the connection was closed already
    written: seq<Message>,      // successfully
    overflowed: bool,           // the connection was closed for being too slow
    done: bool,                 // its goroutine has left the loop
    since: nat,                 // messages published before it was added
    until: int)                 // messages published before it was removed, -1 while it is not

  datatype Lock = Free | Publishing(message: Message, todo: set<string>)

  datatype Hub = Hub(lock: Lock, added: set<string>, subscribers: map<string, Subscriber>, published: seq<Message>)

  const INITIAL := Hub(Free, {}, map[], [])

  datatype Action =
    | Add(id: string)
    | Remove(id: string)
    | Lock(message: Message)
    | Offer(id: string)
    | Unlock
    | Take(id: string)
    | WriteOk(id: string)
    | WriteFails(id: string)
    | ContextDone(id: string)

  predicate Active(h: Hub, id: string) {
    id in h.subscribers && !h.subscribers[id].done
  }

  predicate Due(h: Hub, a: Action) {
    match a
    case Add(id) => id !in h.subscribers
    case Remove(id) => id in h.added && id in h.subscribers && h.subscribers[id].done
    case Lock(_) => true
    case Offer(id) => h.lock.Publishing? && id in h.lock.todo
    case Unlock => h.lock.Publishing? && h.lock.todo == {}
    case Take(id) => Active(h, id) && h.subscribers[id].inflight.None?
    case WriteOk(id) => Active(h, id) && h.subscribers[id].inflight.Some? && !h.subscribers[id].late
    case WriteFails(id) => Active(h, id) && h.subscribers[id].inflight.Some?
    case ContextDone(id) => Active(h, id) && h.subscribers[id].inflight.None?
  }

  predicate Ready(h: Hub, a: Action) {
    match a
    case Add(_) => h.lock.Free?
    case Remove(_) => h.lock.Free?
    case Lock(_) => h.lock.Free?
    case Offer(id) => id in h.subscribers
    case Take(id) => id in h.subscribers && h.subscribers[id].queue != []
    case _ => true
  }

  predicate Enabled(h: Hub, a: Action) {
    Due(h, a) && Ready(h, a)
  }

  /** The send that does not wait: a full channel closes the connection. */
  function Offered(s: Subscriber, message: Message): Subscriber {
    if |s.queue| < CAPACITY then s.(queue := s.queue + [message]) else s.(overflowed := true)
  }

  function Taken(s: Subscriber): Subscriber {
    if s.queue == [] then s
    else s.(queue := s.queue[1..], inflight := Some(s.queue[0]), late := s.overflowed)
  }

  function WrittenOut(s: Subscriber): Subscriber {
    if s.inflight.None? then s else s.(written := s.written + [s.inflight.value], inflight := None)
  }

  function With(h: Hub, id: string, s: Subscriber): Hub {
    h.(subscribers := h.subscribers[id := s])
  }

  function Step(h: Hub, a: Action): Hub
    requires Enabled(h, a)
  {
    match a
    case Add(id) =>
      With(h.(added := h.added + {id}), id, Subscriber([], None, false, [], false, false, |h.published|, -1))
    case Remove(id) =>
      With(h.(added := h.added - {id}), id, h.subscribers[id].(until := |h.published|))
    case Lock(message) => h.(lock := Publishing(message, h.added), published := h.published + [message])
    case Offer(id) =>
      With(h, id, Offered(h.subscribers[id], h.lock.message)).(lock := Publishing(h.lock.message, h.lock.todo - {id}))
    case Unlock => h.(lock := Free)
    case Take(id) => With(h, id, Taken(h.subscribers[id]))
    case WriteOk(id) => With(h, id, WrittenOut(h.subscribers[id]))
    case WriteFails(id) => With(h, id, h.subscribers[id].(done := true))
    case ContextDone(id) => With(h, id, h.subscribers[id].(done := true))
  }

  ghost predicate Run(states: seq<Hub>, actions: seq<Action>) {
    && |states| == |actions| + 1
    && states[0] == INITIAL
    && forall i | 0 <= i < |actions| :: Follows(states, actions, i)
  }

  /** The `i`-th action leads from the `i`-th state to the next. */
  ghost predicate Follows(states: seq<Hub>, actions: seq<Action>, i: nat)
    requires i < |actions| && |states| == |actions| + 1
  {
    Enabled(states[i], actions[i]) && states[i + 1] == Step(states[i], actions[i])
  }

  lemma RunGoesOn(states: seq<Hub>, actions: seq<Action>, a: Action)
    requires Run(states, actions) && Enabled(states[|actions|], a)
    ensures Run(states + [Step(states[|actions|], a)], actions + [a])
  {
    var states', more := states + [Step(states[|actions|], a)], actions + [a];
    forall i | 0 <= i < |more| ensures Follows(states', more, i) {
      assert i < |actions| ==> Follows(states, actions, i);
    }
  }

  // ---------------------------------------------------------------- invariants

  /** How many of the published messages the loops of the publishers have been through for a subscriber. */
  function Upto(h: Hub, id: string): int
    requires id in h.subscribers
  {
    var s := h.subscribers[id];
    if s.until >= 0 then s.until
    else if h.lock.Publishing? && id in h.lock.todo then |h.published| - 1
    else |h.published|
  }

  function Inflight(s: Subscriber): seq<Message> {
    if s.inflight.Some? then [s.inflight.value] else []
  }

  /** Written, being written and waiting. */
  function Held(s: Subscriber): seq<Message> {
    s.written + Inflight(s) + s.queue
  }

  /** Of the messages `meant` for a subscriber: what was written, with what may still be, is a prefix, and
      all of them are held unless one was lost when the connection was closed. */
  ghost predicate Gapless(s: Subscriber, meant: seq<Message>) {
    && |s.queue| <= CAPACITY
    && s.written <= meant
    && (s.inflight.Some? && !s.late ==> s.written + [s.inflight.value] <= meant)
    && (!s.overflowed ==> Held(s) == meant && !s.late)
    && (s.overflowed ==> |Held(s)| < |meant|)
    && Subsequence(Held(s), meant)
  }

  ghost predicate SubscriberSafe(h: Hub, id: string)
    requires id in h.subscribers
  {
    var s := h.subscribers[id];
    && s.since <= Upto(h, id) <= |h.published| && -1 <= s.until
    && (id in h.added <==> s.until == -1)
    && Gapless(s, h.published[s.since..Upto(h, id)])
  }

  ghost predicate Safe(h: Hub) {
    && h.added <= h.subscribers.Keys
    && (h.lock.Publishing? ==> h.lock.todo <= h.added && h.published != []
                               && h.lock.message == h.published[|h.published| - 1])
    && forall id | id in h.subscribers :: SubscriberSafe(h, id)
  }

  // ---------------------------------------------------------------- one subscriber

  lemma HeldOffered(s: Subscriber, message: Message)
    ensures Held(Offered(s, message)) == if |s.queue| < CAPACITY then Held(s) + [message] else Held(s)
  {
    if |s.queue| < CAPACITY {
      assert s.written + Inflight(s) + (s.queue + [message]) == (s.written + Inflight(s) + s.queue) + [message];
    }
  }

  lemma HeldTaken(s: Subscriber)
    requires s.inflight.None?
    ensures Held(Taken(s)) == Held(s)
  {
    if s.queue != [] {
      assert s.written + [s.queue[0]] + s.queue[1..] == s.written + [] + s.queue;
    }
  }

  lemma HeldWritten(s: Subscriber)
    ensures Held(WrittenOut(s)) == Held(s)
  {
    if s.inflight.Some? {
      assert (s.written + [s.inflight.value]) + [] + s.queue == s.written + [s.inflight.value] + s.queue;
    }
  }

  lemma OfferedGapless(s: Subscriber, meant: seq<Message>, message: Message)
    requires Gapless(s, meant)
    ensures Gapless(Offered(s, message), meant + [message])
  {
    HeldOffered(s, message);
    if |s.queue| < CAPACITY {
      KeepLast(Held(s), meant, message);
    } else {
      SkipLast(Held(s), meant, message);
    }
  }

  lemma TakenGapless(s: Subscriber, meant: seq<Message>)
    requires Gapless(s, meant) && s.inflight.None?
    ensures Gapless(Taken(s), meant)
  {
    HeldTaken(s);
    if s.queue != [] && !s.overflowed {
      assert meant == s.written + [s.queue[0]] + s.queue[1..];
    }
  }

  lemma WrittenGapless(s: Subscriber, meant: seq<Message>)
    requires Gapless(s, meant) && s.inflight.Some? && !s.late
    ensures Gapless(WrittenOut(s), meant)
  {
    HeldWritten(s);
  }

  lemma StoppedGapless(s: Subscriber, meant: seq<Message>)
    requires Gapless(s, meant)
    ensures Gapless(s.(done := true), meant)
  {
    assert Held(s.(done := true)) == Held(s);
  }

  // ---------------------------------------------------------------- one step

  lemma SliceLast(published: seq<Message>, since: nat)
    requires since < |published|
    ensures published[since..|published| - 1] + [published[|published| - 1]] == published[since..|published|]
  {
  }

  lemma OfferStep(h: Hub, id: string)
    requires Safe(h) && Enabled(h, Offer(id))
    ensures SubscriberSafe(Step(h, Offer(id)), id)
  {
    assert SubscriberSafe(h, id);
    var s := h.subscribers[id];
    OfferedGapless(s, h.published[s.since..Upto(h, id)], h.lock.message);
    SliceLast(h.published, s.since);
  }

  /** What is meant for a subscriber does not depend on the parts its own goroutine changes. */
  lemma OwnStep(h: Hub, id: string, s: Subscriber)
    requires Safe(h) && id in h.subscribers
    requires s.since == h.subscribers[id].since && s.until == h.subscribers[id].until
    requires s.since <= Upto(h, id) <= |h.published| ==> Gapless(s, h.published[s.since..Upto(h, id)])
    ensures SubscriberSafe(With(h, id, s), id)
  {
    assert SubscriberSafe(h, id);
  }

  lemma GoroutineStep(h: Hub, a: Action)
    requires Safe(h) && Enabled(h, a) && (a.Take? || a.WriteOk? || a.WriteFails? || a.ContextDone?)
    ensures SubscriberSafe(Step(h, a), a.id)
  {
    assert SubscriberSafe(h, a.id);
    var s := h.subscribers[a.id];
    var meant := h.published[s.since..Upto(h, a.id)];
    if a.Take? {
      TakenGapless(s, meant);
      OwnStep(h, a.id, Taken(s));
    } else if a.WriteOk? {
      WrittenGapless(s, meant);
      OwnStep(h, a.id, WrittenOut(s));
    } else {
      StoppedGapless(s, meant);
      OwnStep(h, a.id, s.(done := true));
    }
  }

  lemma LockStep(h: Hub, message: Message, id: string)
    requires Safe(h) && Enabled(h, Lock(message)) && id in h.subscribers
    ensures SubscriberSafe(Step(h, Lock(message)), id)
  {
    assert SubscriberSafe(h, id);
    var s := h.subscribers[id];
    assert (h.published + [message])[s.since..Upto(h, id)] == h.published[s.since..Upto(h, id)];
  }

  lemma RemoveStep(h: Hub, id: string)
    requires Safe(h) && Enabled(h, Remove(id))
    ensures SubscriberSafe(Step(h, Remove(id)), id)
  {
    assert SubscriberSafe(h, id);
    var s := h.subscribers[id];
    assert Held(s.(until := |h.published|)) == Held(s);
  }

  lemma AddStep(h: Hub, id: string)
    requires Safe(h) && Enabled(h, Add(id))
    ensures SubscriberSafe(Step(h, Add(id)), id)
  {
    Empty(h.published[|h.published|..|h.published|]);
  }

  /** A step that concerns another subscriber, or only the mutex, leaves this one alone. */
  lemma Untouched(h: Hub, a: Action, id: string)
    requires Safe(h) && Enabled(h, a) && id in h.subscribers && !a.Lock? && (a.Unlock? || a.id != id)
    ensures var h' := Step(h, a);
            && id in h'.subscribers && h'.subscribers[id] == h.subscribers[id] && h'.published == h.published
            && (id in h'.added <==> id in h.added)
            && (h'.lock.Publishing? && id in h'.lock.todo <==> h.lock.Publishing? && id in h.lock.todo)
  {
  }

  lemma SameIsSafe(h: Hub, h': Hub, id: string)
    requires id in h.subscribers && SubscriberSafe(h, id)
    requires id in h'.subscribers && h'.subscribers[id] == h.subscribers[id] && h'.published == h.published
    requires id in h'.added <==> id in h.added
    requires h'.lock.Publishing? && id in h'.lock.todo <==> h.lock.Publishing? && id in h.lock.todo
    ensures SubscriberSafe(h', id)
  {
  }

  lemma OtherStep(h: Hub, a: Action, id: string)
    requires Safe(h) && Enabled(h, a) && id in h.subscribers && !a.Lock? && (a.Unlock? || a.id != id)
    ensures SubscriberSafe(Step(h, a), id)
  {
    Untouched(h, a, id);
    SameIsSafe(h, Step(h, a), id);
  }

  lemma SubscriberStep(h: Hub, a: Action, id: string)
    requires Safe(h) && Enabled(h, a) && id in Step(h, a).subscribers
    ensures SubscriberSafe(Step(h, a), id)
  {
    if a.Lock? {
      LockStep(h, a.message, id);
    } else if a.Unlock? || a.id != id {
      OtherStep(h, a, id);
    } else {
      match a {
        case Add(_) => AddStep(h, id);
        case Remove(_) => RemoveStep(h, id);
        case Offer(_) => OfferStep(h, id);
        case _ => GoroutineStep(h, a);
      }
    }
  }

  lemma LockSafe(h: Hub, a: Action)
    requires Safe(h) && Enabled(h, a)
    ensures var h' := Step(h, a);
            && h'.added <= h'.subscribers.Keys
            && (h'.lock.Publishing? ==> h'.lock.todo <= h'.added && h'.published != []
                                        && h'.lock.message == h'.published[|h'.published| - 1])
  {
  }

  lemma SafeStep(h: Hub, a: Action)
    requires Safe(h) && Enabled(h, a)
    ensures Safe(Step(h, a))
  {
    LockSafe(h, a);
    forall id | id in Step(h, a).subscribers ensures SubscriberSafe(Step(h, a), id) {
      SubscriberStep(h, a, id);
    }
  }

  // ---------------------------------------------------------------- runs

  lemma {:induction false} SafeRun(states: seq<Hub>, actions: seq<Action>, k: nat)
    requires Run(states, actions) && k < |states|
    ensures Safe(states[k])
  {
    if k > 0 {
      assert Follows(states, actions, k - 1);
      SafeRun(states, actions, k - 1);
      SafeStep(states[k - 1], actions[k - 1]);
    }
  }

  /** In every state of every run, also while a publisher is at work: what was written to a subscriber is a
      prefix of what was meant for it, the messages published since it was added that the publishers have been
      through for it; at most 32 wait; and something is missing if and only if its connection was closed as
      too slow. */
  lemma GaplessOrClosed(states: seq<Hub>, actions: seq<Action>, k: nat, id: string)
    requires Run(states, actions) && k < |states| && id in states[k].subscribers
    ensures var h, s := states[k], states[k].subscribers[id];
            && s.since <= Upto(h, id) <= |h.published|
            && |s.queue| <= 32
            && var meant := h.published[s.since..Upto(h, id)];
               s.written <= meant && Subsequence(Held(s), meant) && (Held(s) == meant <==> !s.overflowed)
  {
    SafeRun(states, actions, k);
    assert SubscriberSafe(states[k], id);
  }

  lemma OverflowStep(h: Hub, a: Action, id: string)
    requires Enabled(h, a) && id in Step(h, a).subscribers
    ensures Step(h, a).subscribers[id].overflowed <==>
            && id in h.subscribers
            && (h.subscribers[id].overflowed || (a == Offer(id) && |h.subscribers[id].queue| >= CAPACITY))
  {
  }

  /** The message offered by the `i`-th step finds 32 waiting. */
  ghost predicate FindsFull(states: seq<Hub>, actions: seq<Action>, i: nat, id: string)
    requires i < |actions| && i < |states|
  {
    actions[i] == Offer(id) && id in states[i].subscribers && |states[i].subscribers[id].queue| >= 32
  }

  /** In every run a connection was closed as too slow if and only if some message found 32 waiting. */
  lemma {:induction false} ClosedWhenFull(states: seq<Hub>, actions: seq<Action>, k: nat, id: string)
    requires Run(states, actions) && k < |states| && id in states[k].subscribers
    ensures states[k].subscribers[id].overflowed <==> exists i :: 0 <= i < k && FindsFull(states, actions, i, id)
  {
    assert Follows(states, actions, k - 1);
    OverflowStep(states[k - 1], actions[k - 1], id);
    assert FindsFull(states, actions, k - 1, id) <==>
           actions[k - 1] == Offer(id) && id in states[k - 1].subscribers
           && |states[k - 1].subscribers[id].queue| >= 32;
    if id in states[k - 1].subscribers {
      ClosedWhenFull(states, actions, k - 1, id);
    } else {
      NotYet(states, actions, k - 1, id);
    }
  }

  lemma {:induction false} NotYet(states: seq<Hub>, actions: seq<Action>, k: nat, id: string)
    requires Run(states, actions) && k < |states| && id !in states[k].subscribers
    ensures forall i | 0 <= i <= k :: id !in states[i].subscribers
  {
    if k > 0 {
      assert Follows(states, actions, k - 1);
      NotYet(states, actions, k - 1, id);
    }
  }

  /** How often among the first `k` steps a message for the subscriber found 32 waiting. */
  ghost function FullFinds(states: seq<Hub>, actions: seq<Action>, k: nat, id: string): nat
    requires k <= |actions| && |states| == |actions| + 1
  {
    if k == 0 then 0 else FullFinds(states, actions, k - 1, id) + if FindsFull(states, actions, k - 1, id) then 1 else 0
  }

  lemma {:induction false} NoFullFinds(states: seq<Hub>, actions: seq<Action>, k: nat, id: string)
    requires k <= |actions| && |states| == |actions| + 1
    requires forall i | 0 <= i < k :: id !in states[i].subscribers
    ensures FullFinds(states, actions, k, id) == 0
  {
    if k > 0 {
      NoFullFinds(states, actions, k - 1, id);
    }
  }

  /** Messages meant for a subscriber that are not held. */
  function Lost(h: Hub, id: string): int
    requires id in h.subscribers
  {
    Upto(h, id) - h.subscribers[id].since - |Held(h.subscribers[id])|
  }

  lemma HeldStep(h: Hub, a: Action, id: string)
    requires Enabled(h, a) && id in h.subscribers
    ensures id in Step(h, a).subscribers
    ensures |Held(Step(h, a).subscribers[id])| ==
            |Held(h.subscribers[id])| + if a == Offer(id) && |h.subscribers[id].queue| < 32 then 1 else 0
  {
    match a {
      case Offer(x) => if x == id { HeldOffered(h.subscribers[id], h.lock.message); }
      case Take(x) => if x == id { HeldTaken(h.subscribers[id]); }
      case WriteOk(x) => if x == id { HeldWritten(h.subscribers[id]); }
      case _ =>
    }
  }

  lemma UptoStep(h: Hub, a: Action, id: string)
    requires Safe(h) && Enabled(h, a) && id in h.subscribers
    ensures id in Step(h, a).subscribers && Step(h, a).subscribers[id].since == h.subscribers[id].since
    ensures Upto(Step(h, a), id) == Upto(h, id) + if a == Offer(id) then 1 else 0
  {
    assert SubscriberSafe(h, id);
  }

  lemma LostStep(h: Hub, a: Action, id: string)
    requires Safe(h) && Enabled(h, a) && id in h.subscribers
    ensures id in Step(h, a).subscribers
    ensures Lost(Step(h, a), id) == Lost(h, id) + if a == Offer(id) && |h.subscribers[id].queue| >= 32 then 1 else 0
  {
    HeldStep(h, a, id);
    UptoStep(h, a, id);
  }

  /** In every run exactly those messages are missing for a subscriber that found 32 waiting. */
  lemma {:induction false} MissingFoundFull(states: seq<Hub>, actions: seq<Action>, k: nat, id: string)
    requires Run(states, actions) && k < |states| && id in states[k].subscribers
    ensures Lost(states[k], id) == FullFinds(states, actions, k, id)
  {
    assert Follows(states, actions, k - 1);
    SafeRun(states, actions, k - 1);
    if id in states[k - 1].subscribers {
      MissingFoundFull(states, actions, k - 1, id);
      LostStep(states[k - 1], actions[k - 1], id);
      assert FindsFull(states, actions, k - 1, id) <==>
             actions[k - 1] == Offer(id) && |states[k - 1].subscribers[id].queue| >= 32;
    } else {
      NotYet(states, actions, k - 1, id);
      NoFullFinds(states, actions, k, id);
    }
  }

  // ---------------------------------------------------------------- after the close

  /** What a subscriber closed as too slow, `s`, may have become: nothing new was written, or the one message
      that was being written and nothing after it. */
  ghost predicate AtMostOneMore(s: Subscriber, later: Subscriber) {
    && later.overflowed
    && if later.inflight.Some? && !later.late then
         later.written == s.written && later.inflight == s.inflight && !s.late
       else
         later.written == s.written || (!s.late && later.written == s.written + Inflight(s))
  }

  lemma OneMoreStep(h: Hub, a: Action, id: string, s: Subscriber)
    requires Enabled(h, a) && id in h.subscribers && AtMostOneMore(s, h.subscribers[id])
    ensures id in Step(h, a).subscribers && AtMostOneMore(s, Step(h, a).subscribers[id])
  {
  }

  /** In every run, once a connection was closed as too slow, at most one more message is written to it: the one
      whose write had begun, although later messages may be queued again behind the gap. */
  lemma {:induction false} ClosedIsSilent(states: seq<Hub>, actions: seq<Action>, i: nat, k: nat, id: string)
    requires Run(states, actions) && i <= k < |states|
    requires id in states[i].subscribers && states[i].subscribers[id].overflowed
    ensures id in states[k].subscribers && AtMostOneMore(states[i].subscribers[id], states[k].subscribers[id])
    decreases k
  {
    if i < k {
      assert Follows(states, actions, k - 1);
      ClosedIsSilent(states, actions, i, k - 1, id);
      OneMoreStep(states[k - 1], actions[k - 1], id, states[i].subscribers[id]);
    }
  }

  // ---------------------------------------------------------------- after the serving loop

  /** The serving loop of the subscriber returns: its write failed, or its context was done. */
  predicate Leaves(a: Action, id: string) {
    a == WriteFails(id) || a == ContextDone(id)
  }

  lemma DoneStep(h: Hub, a: Action, id: string)
    requires Enabled(h, a) && id in Step(h, a).subscribers
    ensures Step(h, a).subscribers[id].done <==> id in h.subscribers && (h.subscribers[id].done || Leaves(a, id))
  {
  }

  /** In every run the serving loop of a subscriber is over if and only if a write failed or the context was done. */
  lemma {:induction false} DoneIffLeft(states: seq<Hub>, actions: seq<Action>, k: nat, id: string)
    requires Run(states, actions) && k < |states| && id in states[k].subscribers
    ensures states[k].subscribers[id].done <==> exists i :: 0 <= i < k && Leaves(actions[i], id)
  {
    assert Follows(states, actions, k - 1);
    DoneStep(states[k - 1], actions[k - 1], id);
    if id in states[k - 1].subscribers {
      DoneIffLeft(states, actions, k - 1, id);
    } else {
      NobodyLeft(states, actions, k, id);
    }
  }

  lemma NobodyLeft(states: seq<Hub>, actions: seq<Action>, k: nat, id: string)
    requires Run(states, actions) && 0 < k < |states| && id !in states[k - 1].subscribers
    ensures forall i | 0 <= i < k :: !Leaves(actions[i], id)
  {
    NotYet(states, actions, k - 1, id);
    forall i | 0 <= i < k ensures !Leaves(actions[i], id) {
      assert Follows(states, actions, i);
    }
  }

  /** In every run a subscriber takes, writes and leaves only until it has left once, and is removed only then. */
  lemma LeavesOnce(states: seq<Hub>, actions: seq<Action>, k: nat, id: string)
    requires Run(states, actions) && k < |actions|
    ensures actions[k] == Remove(id) ==> exists i :: 0 <= i < k && Leaves(actions[i], id)
    ensures actions[k] == Take(id) || actions[k] == WriteOk(id) || Leaves(actions[k], id) ==>
              forall i | 0 <= i < k :: !Leaves(actions[i], id)
  {
    assert Follows(states, actions, k);
    if id in states[k].subscribers {
      DoneIffLeft(states, actions, k, id);
    }
  }

  // ---------------------------------------------------------------- the publisher gets out

  /** From `h`, taking `actions` one after the other, each due and ready, the machine gets to `last`. */
  ghost predicate Path(h: Hub, actions: seq<Action>, last: Hub)
    decreases |actions|
  {
    if actions == [] then h == last
    else Enabled(h, actions[0]) && Path(Step(h, actions[0]), actions[1..], last)
  }

  predicate OfPublisher(a: Action) {
    a.Offer? || a.Unlock?
  }

  /** Whatever the subscribers do or do not do, a publisher that has the mutex gives it back by its own steps,
      one for each subscriber left and one more. */
  lemma {:induction false} PublisherGetsOut(h: Hub) returns (actions: seq<Action>, last: Hub)
    requires Safe(h) && h.lock.Publishing?
    ensures Path(h, actions, last) && last.lock.Free? && Safe(last) && last.published == h.published
    ensures (forall a | a in actions :: OfPublisher(a)) && |actions| == |h.lock.todo| + 1
    decreases |h.lock.todo|
  {
    var a := Unlock;
    if h.lock.todo != {} {
      var id :| id in h.lock.todo;
      a := Offer(id);
    }
    SafeStep(h, a);
    if a.Unlock? {
      actions, last := [a], Step(h, a);
      assert actions[1..] == [];
    } else {
      var rest;
      rest, last := PublisherGetsOut(Step(h, a));
      actions := [a] + rest;
      assert actions[1..] == rest;
    }
  }

  /** The steps of the publisher among the actions from `i` to `k`. */
  ghost function PublisherSteps(actions: seq<Action>, i: nat, k: nat): nat
    requires i <= k <= |actions|
    decreases k
  {
    if i == k then 0 else PublisherSteps(actions, i, k - 1) + if OfPublisher(actions[k - 1]) then 1 else 0
  }

  /** In every run, however its steps mix with those of others, a publisher holds the mutex for exactly these
      steps: while it does, each step it takes leaves one subscriber less, and nobody adds one. */
  lemma {:induction false} HoldIsBounded(states: seq<Hub>, actions: seq<Action>, i: nat, k: nat)
    requires Run(states, actions) && i <= k < |states|
    requires forall j | i <= j <= k :: states[j].lock.Publishing?
    ensures states[k].lock.message == states[i].lock.message && states[k].lock.todo <= states[i].lock.todo
    ensures PublisherSteps(actions, i, k) == |states[i].lock.todo| - |states[k].lock.todo|
    decreases k
  {
    if i < k {
      assert Follows(states, actions, k - 1);
      HoldIsBounded(states, actions, i, k - 1);
      var h, a := states[k - 1], actions[k - 1];
      if a.Offer? {
        assert h.lock.todo == (h.lock.todo - {a.id}) + {a.id};
      }
    }
  }

  /** In every reachable state a publisher that has reached an operation of its own can go on. */
  lemma PublisherReady(states: seq<Hub>, actions: seq<Action>, k: nat, a: Action)
    requires Run(states, actions) && k < |states| && OfPublisher(a) && Due(states[k], a)
    ensures Ready(states[k], a)
  {
    SafeRun(states, actions, k);
  }

  // ---------------------------------------------------------------- one more is possible

  lemma GoOn(states: seq<Hub>, actions: seq<Action>, a: Action) returns (states': seq<Hub>, actions': seq<Action>)
    requires Run(states, actions) && Enabled(states[|actions|], a)
    ensures Run(states', actions') && states <= states' && actions' == actions + [a]
    ensures states'[|actions'|] == Step(states[|actions|], a)
  {
    RunGoesOn(states, actions, a);
    states', actions' := states + [Step(states[|actions|], a)], actions + [a];
  }

  /** One subscriber, nobody publishing. */
  ghost predicate Alone(h: Hub, id: string, s: Subscriber) {
    h.lock.Free? && h.added == {id} && h.subscribers == map[id := s]
  }

  lemma Publish(states: seq<Hub>, actions: seq<Action>, id: string, s: Subscriber, message: Message)
    returns (states': seq<Hub>, actions': seq<Action>)
    requires Run(states, actions) && Alone(states[|actions|], id, s)
    ensures Run(states', actions') && states <= states'
    ensures Alone(states'[|actions'|], id, Offered(s, message))
  {
    states', actions' := GoOn(states, actions, Lock(message));
    states', actions' := GoOn(states', actions', Offer(id));
    assert states'[|actions'|].lock.todo == {};
    states', actions' := GoOn(states', actions', Unlock);
  }

  /** A subscriber that is writing its first message while `n` more are published. */
  lemma {:induction false} Fill(id: string, n: nat) returns (states: seq<Hub>, actions: seq<Action>, s: Subscriber)
    requires n <= CAPACITY
    ensures Run(states, actions) && Alone(states[|actions|], id, s)
    ensures |s.queue| == n && s.inflight == Some(0) && s.written == [] && !s.late && !s.overflowed && !s.done
  {
    if n == 0 {
      states, actions := GoOn([INITIAL], [], Add(id));
      s := states[|actions|].subscribers[id];
      states, actions := Publish(states, actions, id, s, 0);
      s := Offered(s, 0);
      states, actions := GoOn(states, actions, Take(id));
      s := Taken(s);
    } else {
      states, actions, s := Fill(id, n - 1);
      states, actions := Publish(states, actions, id, s, n);
      s := Offered(s, n);
    }
  }

  /** A write that had begun succeeds after the close: nothing sharper than `ClosedIsSilent` holds. */
  lemma WrittenAfterClose(id: string) returns (states: seq<Hub>, actions: seq<Action>, i: nat)
    ensures Run(states, actions) && i < |actions|
    ensures id in states[i].subscribers && states[i].subscribers[id].overflowed && states[i].subscribers[id].written == []
    ensures id in states[|actions|].subscribers && states[|actions|].subscribers[id].written == [0]
  {
    var s;
    states, actions, s := Fill(id, CAPACITY);
    states, actions := Publish(states, actions, id, s, 33);
    i := |actions|;
    states, actions := GoOn(states, actions, WriteOk(id));
  }
}
