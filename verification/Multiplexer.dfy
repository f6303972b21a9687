/**
 The multiplexer object and its loops.  `states` and `actions` record the run of the
 machine in `Multicast` that the object has gone through; every method keeps them
 a run, so all statements about runs are statements about this object.
 */
module Multiplexer {
  import opened Multicast
  import opened Channels

  /** The channels hold what the machine says. */
  ghost predicate ChannelsHold(channels: map<string, Channel<Frame>>, viewers: map<string, Viewer>,
                               all: set<Channel<Frame>>)
    reads all
  {
    && (forall id :: id in channels <==> id in viewers)
    && forall id | id in channels ::
         && channels[id] in all && channels[id].owner == id && channels[id].capacity == CAPACITY
         && channels[id].queue == viewers[id].queue && channels[id].closed == viewers[id].closed
  }

  /** The listeners are those of the machine, each with its own channel. */
  ghost predicate Listed(listeners: map<string, Channel<Frame>>, channels: map<string, Channel<Frame>>, ids: set<string>) {
    listeners.Keys == ids && forall id | id in listeners :: id in channels && listeners[id] == channels[id]
  }

  lemma HoldsLeave(channels: map<string, Channel<Frame>>, m: Mux, id: string, all: set<Channel<Frame>>)
    requires ChannelsHold(channels, m.viewers, all)
    requires Due(m, Action.Unsubscribe(id)) && Ready(m, Action.Unsubscribe(id))
    ensures ChannelsHold(channels, Step(m, Action.Unsubscribe(id)).viewers, all)
  {
  }

  lemma ListedLeave(listeners: map<string, Channel<Frame>>, channels: map<string, Channel<Frame>>, m: Mux, id: string)
    requires Listed(listeners, channels, m.listeners)
    requires Due(m, Action.Unsubscribe(id)) && Ready(m, Action.Unsubscribe(id))
    ensures var after := Step(m, Action.Unsubscribe(id));
            && Listed(listeners - {id}, channels, after.listeners) && after.phase == m.phase
            && after.endClosed == (m.endClosed || (listeners - {id}).Keys == {})
  {
    assert (listeners - {id}).Keys == m.listeners - {id};
  }

  lemma OneListener(listeners: map<string, Channel<Frame>>, id: string)
    requires id in listeners
    ensures |listeners| <= 1 <==> listeners.Keys == {id}
  {
    assert |listeners.Keys| == |listeners| && listeners.Keys == {id} + (listeners.Keys - {id});
  }

  predicate IsViewers(a: Action) {
    a.Receive? || a.Subscribe? || a.Unsubscribe?
  }

  /** A turn of a viewer: what would wait or panic does not happen. */
  function AfterTurn(m: Mux, a: Action): Mux {
    if IsViewers(a) && Due(m, a) && Ready(m, a) then Step(m, a) else m
  }

  function AfterTurns(m: Mux, turns: seq<Action>): Mux {
    if turns == [] then m else AfterTurn(AfterTurns(m, turns[..|turns| - 1]), turns[|turns| - 1])
  }

  lemma NextTurn(m: Mux, turns: seq<Action>, i: nat)
    requires i < |turns|
    ensures AfterTurns(m, turns[..i + 1]) == AfterTurn(AfterTurns(m, turns[..i]), turns[i])
  {
    assert turns[..i + 1][..i] == turns[..i];
  }

  /** A viewer's turn leaves the loop of the multiplexer where it is. */
  lemma TurnKeeps(m: Mux, a: Action)
    ensures var m' := AfterTurn(m, a);
            && m'.phase == m.phase && m'.published == m.published && m'.inClosed == m.inClosed
            && (!Unlocked(m) ==> m'.listeners == m.listeners)
  {
  }

  method SendUnlessLagging(sub: Channel<Frame>, b: Frame)
    requires |sub.queue| > 5 || (!sub.closed && |sub.queue| < sub.capacity)
    modifies sub`queue
    ensures sub.queue == if |old(sub.queue)| > 5 then old(sub.queue) else old(sub.queue) + [b]
  {
    var n := sub.Len();
    if n > 5 {
      // the subscriber lags
    } else {
      sub.Send(b);
    }
  }

  class Multiplexer {
    var listeners: map<string, Channel<Frame>>
    var endClosed: bool   // the channel `end`
    var readLocked: bool  // by the loop in `Multicast`
    var channels: map<string, Channel<Frame>>  // the viewers' own references to their channels
    ghost var states: seq<Mux>
    ghost var actions: seq<Action>
    ghost var all: set<Channel<Frame>>

    ghost function Model(): Mux
      reads this
      requires states != []
    {
      states[|states| - 1]
    }

    ghost predicate Valid()
      reads this, all
    {
      && Run(states, actions)
      && ChannelsHold(channels, Model().viewers, all)
      && Listed(listeners, channels, Model().listeners)
      && endClosed == Model().endClosed
      && readLocked == !Unlocked(Model())
    }

    constructor ()
      ensures Valid() && fresh(all) && Model() == INITIAL && actions == []
    {
      listeners, endClosed, readLocked, channels := map[], false, false, map[];
      states, actions, all := [INITIAL], [], {};
    }

    /** The run goes on with exactly this action. */
    twostate predicate Did(a: Action)
      reads this
      requires old(states) != [] && Due(old(Model()), a) && Ready(old(Model()), a)
    {
      actions == old(actions) + [a] && states == old(states) + [Step(old(Model()), a)]
    }

    ghost method Note(a: Action)
      requires Run(states, actions) && Due(Model(), a) && Ready(Model(), a)
      modifies this`states, this`actions
      ensures Did(a) && Run(states, actions)
    {
      RunGoesOn(states, actions, a);
      states, actions := states + [Step(Model(), a)], actions + [a];
    }

    /** Only the channel of one viewer has changed: the others still hold. */
    twostate lemma ChannelChanged(id: string)
      requires old(states) != [] && states != [] && old(ChannelsHold(channels, Model().viewers, all))
      requires channels == old(channels) && all == old(all) && id in channels && id in Model().viewers
      requires Model().viewers == old(Model()).viewers[id := Model().viewers[id]]
      requires forall c | c in all && c != channels[id] :: unchanged(c)
      requires channels[id].queue == Model().viewers[id].queue && channels[id].closed == Model().viewers[id].closed
      ensures ChannelsHold(channels, Model().viewers, all)
    {
    }

    method Subscribe(id: string, channel: Channel<Frame>)
      requires Valid() && Due(Model(), Action.Subscribe(id))
      requires channel.queue == [] && !channel.closed && channel.capacity == CAPACITY && channel.owner == id
      modifies this
      ensures Valid() && Did(Action.Subscribe(id)) && all == old(all) + {channel}
    {
      Note(Action.Subscribe(id));
      Register(id, channel);
    }

    method Register(id: string, channel: Channel<Frame>)
      modifies this`listeners, this`channels, this`all
      ensures listeners == old(listeners)[id := channel] && channels == old(channels)[id := channel]
      ensures all == old(all) + {channel}
    {
      listeners := listeners[id := channel];
      channels := channels[id := channel];
      all := all + {channel};
    }

    /** The last listener must not leave when `end` is closed already: closing it again panics. */
    method Unsubscribe(id: string)
      requires Valid() && Due(Model(), Action.Unsubscribe(id)) && Ready(Model(), Action.Unsubscribe(id))
      modifies this`listeners, this`endClosed, this`states, this`actions
      ensures Valid() && Did(Action.Unsubscribe(id))
    {
      ListedLeave(listeners, channels, Model(), id);
      Withdraw(id);
      HoldsLeave(channels, Model(), id, all);
      Note(Action.Unsubscribe(id));
    }

    method Withdraw(id: string)
      requires listeners.Keys == {id} ==> !endClosed
      requires id in listeners
      modifies this`listeners, this`endClosed
      ensures listeners == old(listeners) - {id}
      ensures endClosed == (old(endClosed) || listeners.Keys == {})
    {
      ghost var before := listeners;
      listeners := listeners - {id};
      assert |listeners| == 0 <==> listeners.Keys == {};
      if |listeners| == 0 {
        assert before.Keys == {id};
        CloseEnd();
      }
    }

    method CloseEnd()
      requires !endClosed
      modifies this`endClosed
      ensures endClosed
    {
      endClosed := true;
    }

    /** A viewer takes a frame from its channel. */
    method Take(id: string) returns (frame: Frame)
      requires Valid() && Due(Model(), Receive(id))
      modifies this`states, this`actions, channels[id]
      ensures Valid() && Did(Receive(id)) && Went()
      ensures old(channels[id].queue) == [frame] + channels[id].queue
    {
      Note(Receive(id));
      frame := channels[id].Receive();
      ChannelChanged(id);
    }

    /** One turn of the loop over the listeners. */
    method OfferTo(id: string, b: Frame)
      requires Valid() && Model().phase.Sending? && Model().phase.frame == b && id in Model().phase.todo
      requires id in listeners
      modifies this`states, this`actions, listeners[id]
      ensures Valid() && Ready(old(Model()), Offer(id)) && Did(Offer(id)) && Went()
    {
      NeverBlocks(states, actions, |actions|, Offer(id));
      Note(Offer(id));
      SendUnlessLagging(listeners[id], b);
      ChannelChanged(id);
    }

    method CloseOne(id: string)
      requires Valid() && Model().phase.Closing? && id in Model().phase.todo && id in listeners
      modifies this`states, this`actions, listeners[id]
      ensures Valid() && Ready(old(Model()), CloseViewer(id)) && Did(CloseViewer(id)) && Went()
    {
      NeverBlocks(states, actions, |actions|, CloseViewer(id));
      Note(CloseViewer(id));
      listeners[id].Close();
      ChannelChanged(id);
    }

    /** The steps of the loop that only take or give back the read lock, or end the input. */
    method Mark(a: Action)
      requires Valid() && Due(Model(), a) && (a.CloseInput? || a.Accept? || a.Publish? || a.EndFrame? || a.EndInput? || a.Finish?)
      modifies this`states, this`actions, this`readLocked
      ensures Valid() && Ready(old(Model()), a) && Did(a)
    {
      Note(a);
      readLocked := if a.CloseInput? || a.Accept? then readLocked else a.Publish? || a.EndInput?;
    }

    // -------------------------------------------------------------- the loops, interleaved

    /** The run has gone on, and new channels are new objects. */
    twostate predicate Went()
      reads this
    {
      && old(states) <= states && old(actions) <= actions
      && old(all) <= all && (forall c | c in all && c !in old(all) :: !old(allocated(c)))
    }

    method LeaveIfPossible(id: string)
      requires Valid()
      modifies this`listeners, this`endClosed, this`states, this`actions
      ensures Valid() && Went() && Model() == AfterTurn(old(Model()), Action.Unsubscribe(id))
      ensures readLocked ==> listeners == old(listeners)
    {
      if !readLocked && id in listeners {
        OneListener(listeners, id);
        if |listeners| > 1 || !endClosed {
          Unsubscribe(id);
        }
      }
    }

    method RegisterIfPossible(id: string)
      requires Valid()
      modifies this
      ensures Valid() && Went() && Model() == AfterTurn(old(Model()), Action.Subscribe(id))
      ensures readLocked ==> listeners == old(listeners)
    {
      if !readLocked && id !in channels {
        var stream := new Channel<Frame>(10, id);
        Subscribe(id, stream);
      }
    }

    method TakeIfPossible(id: string)
      requires Valid()
      modifies this`states, this`actions, all
      ensures Valid() && Went() && Model() == AfterTurn(old(Model()), Receive(id))
    {
      if id in channels && |channels[id].queue| > 0 {
        var _ := Take(id);
      }
    }

    method TakeTurn(turn: Action)
      requires Valid()
      modifies this, all
      ensures Valid() && Went() && Model() == AfterTurn(old(Model()), turn)
      ensures readLocked ==> listeners == old(listeners)
    {
      match turn {
        case Receive(id) => TakeIfPossible(id);
        case Subscribe(id) => RegisterIfPossible(id);
        case Unsubscribe(id) => LeaveIfPossible(id);
        case _ =>
      }
    }

    /** The viewers run: of `turns`, exactly what is possible happens, in this order.  A turn that would
        panic is not taken. */
    method Others(turns: seq<Action>)
      requires Valid()
      modifies this, all
      ensures Valid() && Went() && Model() == AfterTurns(old(Model()), turns)
      ensures Model().phase == old(Model()).phase && Model().published == old(Model()).published
      ensures Model().inClosed == old(Model()).inClosed
      ensures readLocked ==> listeners == old(listeners)
    {
      for i := 0 to |turns|
        invariant Valid() && Went() && Model() == AfterTurns(old(Model()), turns[..i])
        invariant Model().phase == old(Model()).phase && Model().published == old(Model()).published
        invariant Model().inClosed == old(Model()).inClosed && readLocked == old(readLocked)
        invariant readLocked ==> listeners == old(listeners)
      {
        NextTurn(old(Model()), turns, i);
        TurnKeeps(Model(), turns[i]);
        TakeTurn(turns[i]);
      }
      assert turns[..|turns|] == turns;
    }

    /** One turn of the loop that sends, to a listener that is left. */
    method SendNext(id: string, b: Frame, todo: set<string>)
      requires Valid() && Model().phase == Sending(b, todo) && id in todo && todo <= listeners.Keys
      modifies this`states, this`actions, listeners[id]
      ensures Valid() && Went()
      ensures Model().phase == Sending(b, todo - {id})
      ensures Model().published == old(Model()).published && Model().inClosed == old(Model()).inClosed
    {
      OfferTo(id, b);
    }

    /** The same after the others' turns. */
    method SendOne(b: Frame, todo: set<string>, turns: seq<Action>) returns (rest: set<string>)
      requires Valid() && Model().phase == Sending(b, todo) && todo != {} && todo <= listeners.Keys
      modifies this, all
      ensures Valid() && Went() && listeners == old(listeners)
      ensures rest < todo && Model().phase == Sending(b, rest)
      ensures Model().published == old(Model()).published && Model().inClosed == old(Model()).inClosed
    {
      Others(turns);
      var id :| id in todo;
      SendNext(id, b, todo);
      rest := todo - {id};
    }

    method StartSending(b: Frame) returns (todo: set<string>)
      requires Valid() && Model().phase == Holding(b)
      modifies this`states, this`actions, this`readLocked
      ensures Valid() && Went() && todo == listeners.Keys && Model().phase == Sending(b, todo)
      ensures Model().published == old(Model()).published + [b] && Model().inClosed == old(Model()).inClosed
    {
      Mark(Publish);
      todo := listeners.Keys;
    }

    method StopSending()
      requires Valid() && Model().phase.Sending? && Model().phase.todo == {}
      modifies this`states, this`actions, this`readLocked
      ensures Valid() && Went() && Model().phase.Waiting?
      ensures Model().published == old(Model()).published && Model().inClosed == old(Model()).inClosed
    {
      Mark(EndFrame);
    }

    /** Offers the frame it holds to every listener, under the read lock. */
    method SendToAll(b: Frame, others: int -> seq<Action>)
      requires Valid() && Model().phase == Holding(b) && !Model().inClosed
      modifies this, all
      ensures Valid() && Went()
      ensures Model().phase.Waiting? && !Model().inClosed && Model().published == old(Model()).published + [b]
    {
      var todo := StartSending(b);
      while todo != {}
        invariant Valid() && Went()
        invariant Model().phase == Sending(b, todo) && todo <= listeners.Keys && !Model().inClosed
        invariant Model().published == old(Model()).published + [b]
        decreases todo
      {
        todo := SendOne(b, todo, others(|todo|));
      }
      StopSending();
    }

    method AcceptFrame(b: Frame)
      requires Valid() && Model().phase.Waiting? && !Model().inClosed
      modifies this`states, this`actions, this`readLocked
      ensures Valid() && Went() && Model().phase == Holding(b)
      ensures Model().published == old(Model()).published && !Model().inClosed
    {
      Mark(Accept(b));
    }

    /** Receives one frame and offers it to every listener; the others take turns before, between and while. */
    method Forward(b: Frame, others: int -> seq<Action>)
      requires Valid() && Model().phase.Waiting? && !Model().inClosed
      modifies this, all
      ensures Valid() && Went()
      ensures Model().phase.Waiting? && !Model().inClosed && Model().published == old(Model()).published + [b]
    {
      Others(others(0));
      AcceptFrame(b);
      Others(others(-1));
      SendToAll(b, others);
    }

    method CloseNext(todo: set<string>, turns: seq<Action>) returns (rest: set<string>)
      requires Valid() && Model().phase == Closing(todo) && todo != {} && todo <= listeners.Keys
      modifies this, all
      ensures Valid() && Went() && listeners == old(listeners)
      ensures rest < todo && Model().phase == Closing(rest) && Model().published == old(Model()).published
    {
      Others(turns);
      var id :| id in todo;
      CloseOne(id);
      rest := todo - {id};
    }

    method StartClosing() returns (todo: set<string>)
      requires Valid() && Model().phase.Waiting? && Model().inClosed
      modifies this`states, this`actions, this`readLocked
      ensures Valid() && Went() && todo == listeners.Keys && Model().phase == Closing(todo)
      ensures Model().published == old(Model()).published
    {
      Mark(EndInput);
      todo := listeners.Keys;
    }

    method StopClosing()
      requires Valid() && Model().phase.Closing? && Model().phase.todo == {}
      modifies this`states, this`actions, this`readLocked
      ensures Valid() && Went() && Model().phase.Finished? && Model().published == old(Model()).published
    {
      Mark(Finish);
    }

    method CloseAll(others: int -> seq<Action>)
      requires Valid() && Model().phase.Waiting? && Model().inClosed
      modifies this, all
      ensures Valid() && Went()
      ensures Model().phase.Finished? && Model().published == old(Model()).published
    {
      var todo := StartClosing();
      while todo != {}
        invariant Valid() && Went()
        invariant Model().phase == Closing(todo) && todo <= listeners.Keys
        invariant Model().published == old(Model()).published
        decreases todo
      {
        todo := CloseNext(todo, others(|todo|));
      }
      StopClosing();
    }

    method EndOfInput()
      requires Valid() && Model().phase.Waiting? && !Model().inClosed
      modifies this`states, this`actions, this`readLocked
      ensures Valid() && Went() && Model().phase.Waiting? && Model().inClosed
      ensures Model().published == old(Model()).published
    {
      Mark(CloseInput);
    }

    /** Forwards the input until it ends, then closes the channels of those still registered.
        Between any two steps the others take the turns that `others` gives them. */
    method Multicast(input: seq<Frame>, others: (int, int) -> seq<Action>)
      requires Valid() && Model().phase.Waiting? && !Model().inClosed
      modifies this, all
      ensures Valid() && Went()
      ensures Model().phase.Finished? && Model().published == old(Model()).published + input
    {
      for k := 0 to |input|
        invariant Valid() && Went()
        invariant Model().phase.Waiting? && !Model().inClosed
        invariant Model().published == old(Model()).published + input[..k]
      {
        Forward(input[k], j => others(k, j));
        assert input[..k + 1] == input[..k] + [input[k]];
      }
      assert input[..|input|] == input;
      Others(others(|input|, 0));
      EndOfInput();
      Others(others(|input|, -1));
      CloseAll(j => others(|input|, j));
    }
  }
}
