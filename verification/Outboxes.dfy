/**
 The outbox of a mission as a reader replays it, and the drone list.  What the outbox
 says more than the list comes from an earlier mission of the same name whose outbox
 was left behind.
 */
module Outboxes {
  import opened Options
  import opened Registry
  import opened Steps
  import opened Safety

  /** What one outbox line does to the set of devices a reader holds. */
  function Apply(held: set<string>, msg: Message): set<string> {
    match msg
    case DroneAdded(device) => held + {device}
    case DroneRemoved(device) => held - {device}
    case TaskCreated(_) => held
  }

  /** The devices a reader of the whole outbox takes to be in the mission. */
  function Replay(log: seq<Message>): set<string> {
    if log == [] then {} else Apply(Replay(log[..|log| - 1]), log[|log| - 1])
  }

  ghost predicate Held(st: State, slug: string, device: string) {
    device in Replay(Outbox(st, slug))
  }

  ghost predicate RemovedBetween(log: seq<Message>, device: string, i: nat, j: nat)
    requires j <= |log|
  {
    exists m :: i < m < j && log[m] == DroneRemoved(device)
  }

  /** Between two `drone-added` lines for the device there is a `drone-removed` line for it. */
  ghost predicate Separated(log: seq<Message>, device: string) {
    forall i, j | 0 <= i < j < |log| && log[i] == DroneAdded(device) && log[j] == DroneAdded(device) ::
      RemovedBetween(log, device, i, j)
  }

  lemma ReplayAppend(log: seq<Message>, msg: Message)
    ensures Replay(log + [msg]) == Apply(Replay(log), msg)
  {
    assert (log + [msg])[..|log|] == log;
  }

  /** A device is held when it was added and not removed since. */
  ghost predicate AddedAt(log: seq<Message>, device: string, i: nat) {
    i < |log| && log[i] == DroneAdded(device) && forall m | i < m < |log| :: log[m] != DroneRemoved(device)
  }

  lemma {:induction false} HeldMeans(log: seq<Message>, device: string)
    ensures device in Replay(log) <==> exists i :: AddedAt(log, device, i)
  {
    if log != [] {
      var front := log[..|log| - 1];
      HeldMeans(front, device);
      if log[|log| - 1] == DroneAdded(device) {
        assert AddedAt(log, device, |log| - 1);
      } else if i: nat :| AddedAt(front, device, i) {
        assert log[|log| - 1] != DroneRemoved(device) ==> AddedAt(log, device, i);
      }
      if i: nat :| AddedAt(log, device, i) {
        assert log[|log| - 1] != DroneAdded(device) ==> AddedAt(front, device, i);
      }
    }
  }

  lemma NotAddedBefore(log: seq<Message>, device: string, i: nat)
    requires Separated(log + [DroneAdded(device)], device)
    ensures !AddedAt(log, device, i)
  {
    var after := log + [DroneAdded(device)];
    assert after[|log|] == DroneAdded(device) && (i < |log| ==> after[i] == log[i]);
  }

  lemma SeparatedPrefix(log: seq<Message>, msg: Message, device: string)
    requires Separated(log + [msg], device)
    ensures Separated(log, device) && !(msg == DroneAdded(device) && device in Replay(log))
  {
    var after := log + [msg];
    forall i, j | 0 <= i < j < |log| && log[i] == DroneAdded(device) && log[j] == DroneAdded(device)
      ensures RemovedBetween(log, device, i, j)
    {
      assert after[i] == log[i] && after[j] == log[j];
      var m :| i < m < j && after[m] == DroneRemoved(device);
      assert log[m] == after[m];
    }
    HeldMeans(log, device);
    if msg == DroneAdded(device) {
      forall i: nat ensures !AddedAt(log, device, i) {
        NotAddedBefore(log, device, i);
      }
    }
  }

  lemma SeparatedLonger(log: seq<Message>, msg: Message, device: string)
    requires Separated(log, device) && !(msg == DroneAdded(device) && device in Replay(log))
    ensures Separated(log + [msg], device)
  {
    var after := log + [msg];
    HeldMeans(log, device);
    forall i, j | 0 <= i < j < |after| && after[i] == DroneAdded(device) && after[j] == DroneAdded(device)
      ensures RemovedBetween(after, device, i, j)
    {
      assert log[i] == after[i];
      if j < |log| {
        assert log[j] == after[j];
        var m :| i < m < j && log[m] == DroneRemoved(device);
        assert after[m] == log[m];
      } else {
        assert !AddedAt(log, device, i);
        var m :| i < m < |log| && log[m] == DroneRemoved(device);
        assert after[m] == log[m];
      }
    }
  }

  lemma SeparatedAppend(log: seq<Message>, msg: Message, device: string)
    ensures Separated(log + [msg], device) <==>
            Separated(log, device) && !(msg == DroneAdded(device) && device in Replay(log))
  {
    if Separated(log + [msg], device) {
      SeparatedPrefix(log, msg, device);
    } else if Separated(log, device) && !(msg == DroneAdded(device) && device in Replay(log)) {
      SeparatedLonger(log, msg, device);
    }
  }

  // ---------------------------------------------------------------- one step

  /** What a step does to the devices held by the outbox. */
  lemma NextReplay(st: State, e: Event, slug: string)
    ensures Replay(NextLog(st, e, slug)) ==
            if NewLine(st, e, slug).Some? then Apply(Replay(Outbox(st, slug)), NewLine(st, e, slug).value)
            else Replay(Outbox(st, slug))
  {
    if NewLine(st, e, slug).Some? {
      ReplayAppend(Outbox(st, slug), NewLine(st, e, slug).value);
    }
  }

  /** What a step does to the trust of a device. */
  lemma NextTrusted(st: State, e: Event, slug: string, device: string)
    requires slug in st.missions && IndexSound(st)
    ensures IsTrusted(NextDrones(st, e, slug), device) <==>
            if Removes(st, e, slug, device) then false
            else if Announces(st, e, slug) && e.device == device then true
            else IsTrusted(DronesOf(st, slug), device)
  {
    NextEntryOfDrones(st, e, slug, device);
  }

  /** A `drone-removed` line for the device lands in the outbox of the mission. */
  ghost predicate LandsRemoval(st: State, e: Event, slug: string, device: string) {
    Unlists(st, e, slug) && e.device == device && !e.push.Lost?
  }

  /** A `drone-added` line for the device lands in the outbox of the mission. */
  ghost predicate LandsAddition(st: State, e: Event, slug: string, device: string) {
    Announces(st, e, slug) && e.device == device && !e.push.Lost?
  }

  lemma LineIs(st: State, e: Event, slug: string, device: string)
    ensures NewLine(st, e, slug) == Some(DroneRemoved(device)) <==> LandsRemoval(st, e, slug, device)
    ensures NewLine(st, e, slug) == Some(DroneAdded(device)) <==> LandsAddition(st, e, slug, device)
  {
  }

  lemma AppliedHeld(held: set<string>, line: Option<Message>, device: string)
    ensures device in (if line.Some? then Apply(held, line.value) else held) <==>
            line != Some(DroneRemoved(device)) && (line == Some(DroneAdded(device)) || device in held)
  {
  }

  lemma NextHeld(st: State, e: Event, slug: string, device: string)
    ensures device in Replay(NextLog(st, e, slug)) <==>
            && NewLine(st, e, slug) != Some(DroneRemoved(device))
            && (NewLine(st, e, slug) == Some(DroneAdded(device)) || device in Replay(Outbox(st, slug)))
  {
    var held, line := Replay(Outbox(st, slug)), NewLine(st, e, slug);
    NextReplay(st, e, slug);
    AppliedHeld(held, line, device);
  }

  lemma HeldStep(st: State, e: Event, slug: string, device: string)
    requires slug in st.missions && slug in Step(st, e).missions
    ensures Held(Step(st, e), slug, device) <==>
            !LandsRemoval(st, e, slug, device) && (LandsAddition(st, e, slug, device) || Held(st, slug, device))
  {
    StepLog(st, e, slug);
    NextHeld(st, e, slug, device);
    LineIs(st, e, slug, device);
  }

  lemma TrustedStep(st: State, e: Event, slug: string, device: string)
    requires IndexSound(st) && slug in st.missions && slug in Step(st, e).missions
    ensures IsTrusted(DronesOf(Step(st, e), slug), device) <==>
            !Removes(st, e, slug, device)
            && ((Announces(st, e, slug) && e.device == device) || IsTrusted(DronesOf(st, slug), device))
  {
    StepDrones(st, e, slug);
    NextTrusted(st, e, slug, device);
  }

  // ---------------------------------------------------------------- what the outbox says too much

  /** The outbox holds a device that is not trusted in the mission. */
  ghost predicate Extra(st: State, slug: string, device: string) {
    Held(st, slug, device) && !IsTrusted(DronesOf(st, slug), device)
  }

  /** The mission is created over an outbox, left behind by an earlier one, that holds the device. */
  ghost predicate Revives(st: State, e: Event, slug: string, device: string) {
    Creates(st, e, slug) && e.survives && Held(st, slug, device)
  }

  /** The mission goes, a removal of the device is published in it, or the device is trusted in it. */
  ghost predicate Settles(st: State, e: Event, slug: string, device: string) {
    || Deletes(st, e, slug)
    || LandsRemoval(st, e, slug, device)
    || (Announces(st, e, slug) && e.device == device)
  }

  /** The device was revived with the mission before the `k`-th step, and nothing has settled it since. */
  ghost predicate RevivedSince(states: seq<State>, events: seq<Event>, k: nat, slug: string, device: string)
    requires k <= |events| && |states| == |events| + 1
  {
    exists i :: 0 <= i < k && Revives(states[i], events[i], slug, device)
                && forall m | i < m < k :: !Settles(states[m], events[m], slug, device)
  }

  lemma RevivedStep(states: seq<State>, events: seq<Event>, k: nat, slug: string, device: string)
    requires k < |events| && |states| == |events| + 1
    ensures RevivedSince(states, events, k + 1, slug, device) <==>
            || Revives(states[k], events[k], slug, device)
            || (RevivedSince(states, events, k, slug, device) && !Settles(states[k], events[k], slug, device))
  {
    if RevivedSince(states, events, k, slug, device) && !Settles(states[k], events[k], slug, device) {
      var i :| 0 <= i < k && Revives(states[i], events[i], slug, device)
               && forall m | i < m < k :: !Settles(states[m], events[m], slug, device);
      assert forall m | i < m < k + 1 :: !Settles(states[m], events[m], slug, device);
    }
  }

  lemma RevivedIsLive(states: seq<State>, events: seq<Event>, k: nat, slug: string, device: string)
    requires Run(states, events) && k <= |events| && RevivedSince(states, events, k, slug, device)
    ensures slug in states[k].missions
  {
    var i :| 0 <= i < k && Revives(states[i], events[i], slug, device)
             && forall m | i < m < k :: !Settles(states[m], events[m], slug, device);
    assert Follows(states, events, i);
    StepMissions(states[i], events[i], slug);
    StaysLive(states, events, i + 1, k, slug);
  }

  lemma ExtraStep(st: State, e: Event, slug: string, device: string)
    requires IndexSound(st) && slug in Step(st, e).missions
    ensures Extra(Step(st, e), slug, device) <==>
            || Revives(st, e, slug, device)
            || (slug in st.missions && Extra(st, slug, device) && !Settles(st, e, slug, device))
  {
    StepMissions(st, e, slug);
    if slug in st.missions {
      HeldStep(st, e, slug, device);
      TrustedStep(st, e, slug, device);
    }
  }

  lemma ExtraNext(states: seq<State>, events: seq<Event>, k: nat, slug: string, device: string)
    requires Run(states, events) && k < |events| && slug in states[k + 1].missions
    ensures Extra(states[k + 1], slug, device) <==>
            || Revives(states[k], events[k], slug, device)
            || (slug in states[k].missions && Extra(states[k], slug, device) && !Settles(states[k], events[k], slug, device))
  {
    assert Follows(states, events, k);
    SafeRun(states, events, k);
    ExtraStep(states[k], events[k], slug, device);
  }

  /** The next state, when this one is as `ExtraIsRevived` says. */
  lemma ExtraOnwards(states: seq<State>, events: seq<Event>, k: nat, slug: string, device: string)
    requires Run(states, events) && k < |events| && slug in states[k + 1].missions
    requires slug in states[k].missions ==>
               (Extra(states[k], slug, device) <==> RevivedSince(states, events, k, slug, device))
    ensures Extra(states[k + 1], slug, device) <==> RevivedSince(states, events, k + 1, slug, device)
  {
    ExtraNext(states, events, k, slug, device);
    RevivedStep(states, events, k, slug, device);
    if slug !in states[k].missions && RevivedSince(states, events, k, slug, device) {
      RevivedIsLive(states, events, k, slug, device);
    }
  }

  /** In every run and every live mission: the outbox holds a device that is not trusted there if and only if the
      mission was created over an outbox that held it, and since then neither was the mission deleted nor a removal
      of the device published nor the device trusted. */
  lemma {:induction false} ExtraIsRevived(states: seq<State>, events: seq<Event>, k: nat, slug: string, device: string)
    requires Run(states, events) && k < |states| && slug in states[k].missions
    ensures Extra(states[k], slug, device) <==> RevivedSince(states, events, k, slug, device)
  {
    if slug in states[k - 1].missions {
      ExtraIsRevived(states, events, k - 1, slug, device);
    }
    ExtraOnwards(states, events, k - 1, slug, device);
  }

  /** In every run a device that is being announced in a mission is held by its outbox if and only if it was revived
      with the mission and has not been settled since. */
  lemma AnnouncedIsHeld(states: seq<State>, events: seq<Event>, k: nat, slug: string)
    requires Run(states, events) && k < |events| && Announces(states[k], events[k], slug)
    ensures Held(states[k], slug, events[k].device) <==> RevivedSince(states, events, k, slug, events[k].device)
  {
    ExtraIsRevived(states, events, k, slug, events[k].device);
  }

  // ---------------------------------------------------------------- two additions in a row

  /** The step publishes an addition of a device revived with the mission. */
  ghost predicate AddsRevived(states: seq<State>, events: seq<Event>, i: nat, slug: string, device: string)
    requires i < |events| && |states| == |events| + 1
  {
    LandsAddition(states[i], events[i], slug, device) && RevivedSince(states, events, i, slug, device)
  }

  /** Such a step was among the first `k`, and the outbox was not emptied since. */
  ghost predicate AddedRevivedSince(states: seq<State>, events: seq<Event>, k: nat, slug: string, device: string)
    requires k <= |events| && |states| == |events| + 1
  {
    exists i :: 0 <= i < k && AddsRevived(states, events, i, slug, device)
                && forall m | i < m <= k :: Outbox(states[m], slug) != []
  }

  lemma AddedRevivedStep(states: seq<State>, events: seq<Event>, k: nat, slug: string, device: string)
    requires k < |events| && |states| == |events| + 1
    ensures AddedRevivedSince(states, events, k + 1, slug, device) <==>
            && Outbox(states[k + 1], slug) != []
            && (AddsRevived(states, events, k, slug, device) || AddedRevivedSince(states, events, k, slug, device))
  {
    if AddedRevivedSince(states, events, k, slug, device) && Outbox(states[k + 1], slug) != [] {
      var i :| 0 <= i < k && AddsRevived(states, events, i, slug, device)
               && forall m | i < m <= k :: Outbox(states[m], slug) != [];
      assert forall m | i < m <= k + 1 :: Outbox(states[m], slug) != [];
    }
  }

  lemma LinesStep(st: State, e: Event, slug: string, device: string)
    ensures Separated(Outbox(Step(st, e), slug), device) <==>
            || Outbox(Step(st, e), slug) == []
            || (Separated(Outbox(st, slug), device)
                && !(LandsAddition(st, e, slug, device) && Held(st, slug, device)))
  {
    OutboxStep(st, e, slug);
    if NewLine(st, e, slug).Some? {
      SeparatedAppend(Outbox(st, slug), NewLine(st, e, slug).value, device);
    }
  }

  /** In every run and any outbox, live or left behind: two additions of a device have a removal of it between them,
      unless an addition of a revived device was published there and the outbox was not emptied since; and then they
      do not. */
  lemma {:induction false} AddedAgainAfterRemoved(states: seq<State>, events: seq<Event>, k: nat, slug: string, device: string)
    requires Run(states, events) && k < |states|
    ensures Separated(Outbox(states[k], slug), device) <==> !AddedRevivedSince(states, events, k, slug, device)
  {
    if k > 0 {
      assert Follows(states, events, k - 1);
      var st, e := states[k - 1], events[k - 1];
      AddedAgainAfterRemoved(states, events, k - 1, slug, device);
      LinesStep(st, e, slug, device);
      AddedRevivedStep(states, events, k - 1, slug, device);
      if LandsAddition(st, e, slug, device) {
        AnnouncedIsHeld(states, events, k - 1, slug);
        OutboxStep(st, e, slug);
      }
    }
  }
}
