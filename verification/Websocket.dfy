/**
 The subscribers of the websocket and the publishing loop.  As for the multiplexer,
 `states` and `actions` record the run of the machine in `Broadcast` that the objects
 have gone through.
 */
module Websocket {
  import opened Options
  import opened Broadcast
  import opened Channels

  class WebsocketSubscriber {
    ghost const id: string
    const messages: Channel<Message>
    var connectionClosed: bool
    // of the goroutine that serves the connection
    var inflight: Option<Message>
    var late: bool  // the connection was closed when `inflight` was taken
    var written: seq<Message>
    var done: bool

    constructor (ghost id: string)
      ensures this.id == id && fresh(messages) && messages.owner == id && messages.capacity == CAPACITY
      ensures View(0, -1) == Subscriber([], None, false, [], false, false, 0, -1) && !messages.closed
    {
      this.id := id;
      messages := new Channel<Message>(32, id);
      connectionClosed, inflight, late, written, done := false, None, false, [], false;
    }

    ghost function View(since: nat, until: int): Subscriber
      reads this, messages
    {
      Subscriber(messages.queue, inflight, late, written, connectionClosed, done, since, until)
    }

    method CloseConnection()
      modifies this`connectionClosed
      ensures connectionClosed
    {
      connectionClosed := true;
    }

    /** The send that does not wait. */
    method Offer(message: Message)
      requires !messages.closed && messages.capacity == CAPACITY
      modifies this`connectionClosed, messages`queue
      ensures forall since: nat, until: int :: View(since, until) == Offered(old(View(since, until)), message)
    {
      var n := messages.Len();
      if n < messages.capacity {
        messages.Send(message);
      } else {
        CloseConnection();
      }
    }

    method TakeNext()
      requires messages.queue != []
      modifies this`inflight, this`late, messages`queue
      ensures forall since: nat, until: int :: View(since, until) == Taken(old(View(since, until)))
    {
      var msg := messages.Receive();
      inflight := Some(msg);
      late := connectionClosed;
    }

    method Stop()
      modifies this`done
      ensures forall since: nat, until: int :: View(since, until) == old(View(since, until)).(done := true)
    {
      done := true;
    }

    method WriteOut()
      requires inflight.Some?
      modifies this`inflight, this`written
      ensures forall since: nat, until: int :: View(since, until) == WrittenOut(old(View(since, until)))
    {
      written := written + [inflight.value];
      inflight := None;
    }
  }

  /** The objects hold what the machine says. */
  ghost predicate SubscribersHold(subs: map<string, WebsocketSubscriber>, view: map<string, Subscriber>,
                                  all: set<WebsocketSubscriber>, buffers: set<Channel<Message>>)
    reads all, buffers
  {
    && (forall id :: id in subs <==> id in view)
    && forall id | id in subs ::
         && subs[id] in all && subs[id].messages in buffers
         && subs[id].id == id && subs[id].messages.owner == id
         && subs[id].messages.capacity == CAPACITY && !subs[id].messages.closed
         && subs[id].View(view[id].since, view[id].until) == view[id]
  }

  lemma HoldsAdd(subs: map<string, WebsocketSubscriber>, view: map<string, Subscriber>,
                 all: set<WebsocketSubscriber>, buffers: set<Channel<Message>>, s: WebsocketSubscriber, since: nat)
    requires SubscribersHold(subs, view, all, buffers)
    requires s.messages.owner == s.id && s.messages.capacity == CAPACITY && !s.messages.closed
    ensures SubscribersHold(subs[s.id := s], view[s.id := s.View(since, -1)], all + {s}, buffers + {s.messages})
  {
  }

  /** The set that publishers walk over is the set of the machine. */
  ghost predicate Listed(listed: set<WebsocketSubscriber>, subs: map<string, WebsocketSubscriber>, added: set<string>) {
    && (forall s | s in listed :: s.id in added && s.id in subs && subs[s.id] == s)
    && (forall id | id in added :: id in subs && subs[id] in listed)
  }

  lemma ListedAdd(listed: set<WebsocketSubscriber>, subs: map<string, WebsocketSubscriber>, added: set<string>,
                  s: WebsocketSubscriber)
    requires Listed(listed, subs, added) && s.id !in subs
    ensures Listed(listed + {s}, subs[s.id := s], added + {s.id})
  {
  }

  lemma ListedRemove(listed: set<WebsocketSubscriber>, subs: map<string, WebsocketSubscriber>, added: set<string>,
                     s: WebsocketSubscriber)
    requires Listed(listed, subs, added) && s in listed
    requires forall id | id in subs :: subs[id].id == id
    ensures Listed(listed - {s}, subs, added - {s.id})
  {
  }

  lemma AddedIs(h: Hub, s: WebsocketSubscriber)
    requires Enabled(h, Add(s.id)) && s.View(0, -1) == Subscriber([], None, false, [], false, false, 0, -1)
    ensures var h' := Step(h, Add(s.id));
            && h'.subscribers == h.subscribers[s.id := s.View(|h.published|, -1)]
            && h'.added == h.added + {s.id} && h'.lock == h.lock
  {
  }

  lemma OfferedIs(h: Hub, id: string)
    requires Enabled(h, Broadcast.Action.Offer(id))
    ensures var h' := Step(h, Broadcast.Action.Offer(id));
            && h'.lock == Publishing(h.lock.message, h.lock.todo - {id})
            && h'.published == h.published && h'.added == h.added
  {
  }

  /** The goroutine that serves the subscriber takes this action. */
  predicate Serves(a: Action, id: string) {
    (a.Take? || a.WriteOk? || a.WriteFails? || a.ContextDone?) && a.id == id
  }

  /** A turn of a serving goroutine: what would wait does not happen. */
  function AfterTurn(h: Hub, a: Action): Hub {
    if Enabled(h, a) then Step(h, a) else h
  }

  ghost function AfterTurns(h: Hub, turns: seq<(Action, WebsocketSubscriber)>): Hub {
    if turns == [] then h else AfterTurn(AfterTurns(h, turns[..|turns| - 1]), turns[|turns| - 1].0)
  }

  lemma NextTurn(h: Hub, turns: seq<(Action, WebsocketSubscriber)>, i: nat)
    requires i < |turns|
    ensures AfterTurns(h, turns[..i + 1]) == AfterTurn(AfterTurns(h, turns[..i]), turns[i].0)
  {
    assert turns[..i + 1][..i] == turns[..i];
  }

  class Sockets {
    var websocketSubscribers: set<WebsocketSubscriber>
    var locked: bool
    ghost var subs: map<string, WebsocketSubscriber>  // every subscriber there has been
    ghost var states: seq<Hub>
    ghost var actions: seq<Action>
    ghost var all: set<WebsocketSubscriber>
    ghost var buffers: set<Channel<Message>>

    ghost function Model(): Hub
      reads this
      requires states != []
    {
      states[|states| - 1]
    }

    ghost predicate Valid()
      reads this, all, buffers
    {
      && Run(states, actions)
      && SubscribersHold(subs, Model().subscribers, all, buffers)
      && Listed(websocketSubscribers, subs, Model().added)
      && locked == Model().lock.Publishing?
    }

    constructor ()
      ensures Valid() && fresh(all) && fresh(buffers) && Model() == INITIAL && actions == []
    {
      websocketSubscribers, locked, subs := {}, false, map[];
      states, actions, all, buffers := [INITIAL], [], {}, {};
    }

    twostate predicate Did(a: Action)
      reads this
      requires old(states) != [] && Enabled(old(Model()), a)
    {
      actions == old(actions) + [a] && states == old(states) + [Step(old(Model()), a)]
    }

    /** The run has gone on, and new subscribers are new objects. */
    twostate predicate Went()
      reads this
    {
      && old(states) <= states && old(actions) <= actions
      && old(all) <= all && (forall s | s in all && s !in old(all) :: !old(allocated(s)))
      && old(buffers) <= buffers && (forall b | b in buffers && b !in old(buffers) :: !old(allocated(b)))
    }

    /** What no serving goroutine touches. */
    twostate predicate Kept()
      reads this
      requires old(states) != [] && states != []
    {
      && Model().lock == old(Model()).lock && Model().published == old(Model()).published
      && Model().added == old(Model()).added
    }

    ghost method Note(a: Action)
      requires Run(states, actions) && Enabled(Model(), a)
      modifies this`states, this`actions
      ensures Did(a) && Run(states, actions)
    {
      RunGoesOn(states, actions, a);
      states, actions := states + [Step(Model(), a)], actions + [a];
    }

    /** Only one subscriber and its buffer have changed: the others still hold. */
    twostate lemma SubscriberChanged(s: WebsocketSubscriber)
      requires old(states) != [] && states != [] && old(SubscribersHold(subs, Model().subscribers, all, buffers))
      requires subs == old(subs) && all == old(all) && buffers == old(buffers)
      requires s.id in subs && subs[s.id] == s && s.id in Model().subscribers
      requires Model().subscribers == old(Model()).subscribers[s.id := Model().subscribers[s.id]]
      requires forall x | x in all && x != s :: unchanged(x)
      requires forall c | c in buffers && c != s.messages :: unchanged(c)
      requires !s.messages.closed
      requires s.View(Model().subscribers[s.id].since, Model().subscribers[s.id].until) == Model().subscribers[s.id]
      ensures SubscribersHold(subs, Model().subscribers, all, buffers)
    {
    }

    method AddSubscriber(s: WebsocketSubscriber)
      requires Valid() && !locked && s.id !in subs
      requires s.messages.owner == s.id && s.messages.capacity == CAPACITY && !s.messages.closed
      requires s.View(0, -1) == Subscriber([], None, false, [], false, false, 0, -1)
      modifies this
      ensures Valid() && Enabled(old(Model()), Add(s.id)) && Did(Add(s.id)) && all == old(all) + {s} && buffers == old(buffers) + {s.messages}
    {
      AddedIs(Model(), s);
      Register(s, Model().subscribers, Model().added, |Model().published|);
      Note(Add(s.id));
    }

    method Register(s: WebsocketSubscriber, ghost view: map<string, Subscriber>, ghost added: set<string>, ghost since: nat)
      requires SubscribersHold(subs, view, all, buffers) && Listed(websocketSubscribers, subs, added) && s.id !in subs
      requires s.messages.owner == s.id && s.messages.capacity == CAPACITY && !s.messages.closed
      modifies this`websocketSubscribers, this`subs, this`all, this`buffers
      ensures SubscribersHold(subs, view[s.id := s.View(since, -1)], all, buffers)
      ensures Listed(websocketSubscribers, subs, added + {s.id})
      ensures all == old(all) + {s} && buffers == old(buffers) + {s.messages}
    {
      HoldsAdd(subs, view, all, buffers, s, since);
      ListedAdd(websocketSubscribers, subs, added, s);
      websocketSubscribers := websocketSubscribers + {s};
      subs := subs[s.id := s];
      all, buffers := all + {s}, buffers + {s.messages};
    }

    method RemoveSubscriber(s: WebsocketSubscriber)
      requires Valid() && !locked && s in websocketSubscribers && s.done
      modifies this`websocketSubscribers, this`states, this`actions
      ensures Valid() && Enabled(old(Model()), Remove(s.id)) && Did(Remove(s.id))
    {
      ListedRemove(websocketSubscribers, subs, Model().added, s);
      Note(Remove(s.id));
      websocketSubscribers := websocketSubscribers - {s};
    }

    /** The serving goroutine takes a message to write. */
    method TakeMessage(s: WebsocketSubscriber)
      requires Valid() && Enabled(Model(), Take(s.id)) && s.id in subs && s == subs[s.id]
      modifies this`states, this`actions, s`inflight, s`late, s.messages`queue
      ensures Valid() && Did(Take(s.id))
      ensures Went() && Kept()
    {
      Note(Take(s.id));
      s.TakeNext();
      SubscriberChanged(s);
    }

    /** The write succeeds, which it does not when it begins on a closed connection. */
    method WriteMessage(s: WebsocketSubscriber)
      requires Valid() && Enabled(Model(), WriteOk(s.id)) && s.id in subs && s == subs[s.id]
      modifies this`states, this`actions, s`inflight, s`written
      ensures Valid() && Did(WriteOk(s.id))
      ensures Went() && Kept()
    {
      Note(WriteOk(s.id));
      s.WriteOut();
      SubscriberChanged(s);
    }

    /** The write fails: the serving loop returns. */
    method FailWrite(s: WebsocketSubscriber)
      requires Valid() && Enabled(Model(), WriteFails(s.id)) && s.id in subs && s == subs[s.id]
      modifies this`states, this`actions, s`done
      ensures Valid() && Did(WriteFails(s.id))
      ensures Went() && Kept()
    {
      Note(WriteFails(s.id));
      s.Stop();
      SubscriberChanged(s);
    }

    /** The context is done: the serving loop returns. */
    method EndContext(s: WebsocketSubscriber)
      requires Valid() && Enabled(Model(), ContextDone(s.id)) && s.id in subs && s == subs[s.id]
      modifies this`states, this`actions, s`done
      ensures Valid() && Did(ContextDone(s.id))
      ensures Went() && Kept()
    {
      Note(ContextDone(s.id));
      s.Stop();
      SubscriberChanged(s);
    }

    method OfferTo(s: WebsocketSubscriber, message: Message)
      requires Valid() && Model().lock.Publishing? && Model().lock.message == message && s.id in Model().lock.todo
      requires s in websocketSubscribers
      modifies this`states, this`actions, s`connectionClosed, s.messages`queue
      ensures Valid() && Enabled(old(Model()), Broadcast.Action.Offer(s.id)) && Did(Broadcast.Action.Offer(s.id))
    {
      PublisherReady(states, actions, |actions|, Broadcast.Action.Offer(s.id));
      Note(Broadcast.Action.Offer(s.id));
      s.Offer(message);
      SubscriberChanged(s);
    }

    /** Taking and giving back the mutex. */
    method Hold(a: Action)
      requires Valid() && Enabled(Model(), a) && (a.Lock? || a.Unlock?)
      modifies this`states, this`actions, this`locked
      ensures Valid() && Did(a)
    {
      Note(a);
      locked := a.Lock?;
    }

    // -------------------------------------------------------------- publishing, interleaved

    /** A turn of the serving goroutine that writes, or fails to, if there is a message to write. */
    method ServeWrite(turn: Action, s: WebsocketSubscriber)
      requires Valid() && s.id in subs && s == subs[s.id] && Serves(turn, s.id) && (turn.WriteOk? || turn.WriteFails?)
      modifies this`states, this`actions, s`inflight, s`written, s`done
      ensures Valid() && Went() && Kept() && Model() == AfterTurn(old(Model()), turn)
    {
      if !s.done && s.inflight.Some? {
        if turn.WriteFails? {
          FailWrite(s);
        } else if !s.late {
          WriteMessage(s);
        }
      }
    }

    /** A turn of the serving goroutine between two writes: it takes a message, or finds the context done. */
    method ServeNext(turn: Action, s: WebsocketSubscriber)
      requires Valid() && s.id in subs && s == subs[s.id] && Serves(turn, s.id) && (turn.Take? || turn.ContextDone?)
      modifies this`states, this`actions, s, s.messages
      ensures Valid() && Went() && Kept() && Model() == AfterTurn(old(Model()), turn)
    {
      if !s.done && s.inflight.None? {
        if turn.ContextDone? {
          EndContext(s);
        } else if |s.messages.queue| > 0 {
          TakeMessage(s);
        }
      }
    }

    /** One turn of the goroutine that serves a subscriber, if it is possible. */
    method Serve(turn: Action, s: WebsocketSubscriber)
      requires Valid() && s.id in subs && s == subs[s.id] && Serves(turn, s.id)
      modifies this`states, this`actions, s, s.messages
      ensures Valid() && Went() && Kept() && Model() == AfterTurn(old(Model()), turn)
    {
      if turn.WriteOk? || turn.WriteFails? {
        ServeWrite(turn, s);
      } else {
        ServeNext(turn, s);
      }
    }

    /** Other goroutines run while the mutex is held: each turn is one of a serving goroutine, and exactly
        those that are possible are taken, in this order. */
    method Others(turns: seq<(Action, WebsocketSubscriber)>)
      requires Valid() && forall t | t in turns :: t.1.id in subs && t.1 == subs[t.1.id] && Serves(t.0, t.1.id)
      modifies this`states, this`actions, all, buffers
      ensures Valid() && Went() && Kept() && Model() == AfterTurns(old(Model()), turns)
    {
      for i := 0 to |turns|
        invariant Valid() && Went() && Kept() && Model() == AfterTurns(old(Model()), turns[..i])
      {
        NextTurn(old(Model()), turns, i);
        assert turns[i] in turns;
        Serve(turns[i].0, turns[i].1);
      }
      assert turns[..|turns|] == turns;
    }

    /** The subscribers the loop has still to reach are those of the machine. */
    ghost predicate Left(todo: set<WebsocketSubscriber>)
      reads this
      requires states != []
    {
      todo <= websocketSubscribers && Model().lock.Publishing? && Listed(todo, subs, Model().lock.todo)
    }

    /** One turn of the loop over the subscribers. */
    method OfferInTurn(s: WebsocketSubscriber, message: Message, todo: set<WebsocketSubscriber>)
      requires Valid() && Left(todo) && s in todo && Model().lock.message == message
      modifies this`states, this`actions, s`connectionClosed, s.messages`queue
      ensures Valid() && Went() && Left(todo - {s})
      ensures Model().lock.message == message
      ensures Model().published == old(Model()).published && Model().added == old(Model()).added
    {
      ListedRemove(todo, subs, Model().lock.todo, s);
      PublisherReady(states, actions, |actions|, Broadcast.Action.Offer(s.id));
      OfferedIs(Model(), s.id);
      OfferTo(s, message);
    }

    method OfferNext(message: Message, todo: set<WebsocketSubscriber>, turns: seq<(Action, WebsocketSubscriber)>)
      returns (rest: set<WebsocketSubscriber>)
      requires Valid() && Left(todo) && todo != {} && Model().lock.message == message
      requires forall t | t in turns :: t.1.id in subs && t.1 == subs[t.1.id] && Serves(t.0, t.1.id)
      modifies this`states, this`actions, all, buffers
      ensures Valid() && Went() && rest < todo
      ensures Left(rest) && Model().lock.message == message
      ensures Model().published == old(Model()).published && Model().added == old(Model()).added
    {
      Others(turns);
      var s :| s in todo;
      OfferInTurn(s, message, todo);
      rest := todo - {s};
    }

    method StartPublishing(message: Message) returns (todo: set<WebsocketSubscriber>)
      requires Valid() && Model().lock.Free?
      modifies this`states, this`actions, this`locked
      ensures Valid() && Went() && Left(todo)
      ensures Model().lock.message == message
      ensures Model().published == old(Model()).published + [message] && Model().added == old(Model()).added
    {
      Hold(Lock(message));
      todo := websocketSubscribers;
    }

    /** Offers the message to every subscriber, under the mutex; between any two offers the serving
        goroutines take the turns that `others` gives them. */
    method PublishMessage(message: Message, others: int -> seq<(Action, WebsocketSubscriber)>)
      requires Valid() && Model().lock.Free?
      requires forall n, t | t in others(n) :: t.1.id in subs && t.1 == subs[t.1.id] && Serves(t.0, t.1.id)
      modifies this`states, this`actions, this`locked, all, buffers
      ensures Valid() && Went() && Model().lock.Free?
      ensures Model().published == old(Model()).published + [message] && Model().added == old(Model()).added
    {
      var todo := StartPublishing(message);
      while todo != {}
        invariant Valid() && Went() && Left(todo) && Model().lock.message == message
        invariant Model().published == old(Model()).published + [message] && Model().added == old(Model()).added
        decreases todo
      {
        todo := OfferNext(message, todo, others(|todo|));
      }
      Hold(Unlock);
    }
  }
}
