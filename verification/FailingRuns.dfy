/**
 Runs at which the properties that hold only on conditions fail, for any mission and
 any drone: each condition is needed.
 */
module FailingRuns {
  import opened Options
  import opened Registry
  import opened Steps
  import opened Safety
  import opened IndexScan
  import opened Outboxes
  import opened LogReplay
  import opened TrustHistory
  import opened FailureEvents
  import opened BacklogLog

  lemma GoOn(states: seq<State>, events: seq<Event>, e: Event) returns (states': seq<State>, events': seq<Event>)
    requires Run(states, events) && Legal(states[|events|], e)
    ensures Run(states', events') && states <= states' && events' == events + [e]
    ensures |states'| == |states| + 1 && states'[|events'|] == Step(states[|events|], e)
  {
    RunGoesOn(states, events, e);
    states', events' := states + [Step(states[|events|], e)], events + [e];
  }

  /** One mission with one untrusted drone in it and an empty outbox. */
  predicate JustJoined(st: State, slug: string, device: string) {
    && st.missions == map[slug := Mission("", [NewEntry(device)])]
    && st.index == map[device := slug] && st.seen == map[device := 0]
    && st.repos == map[slug := []] && st.effects == [
         Publish(MissionCreated(slug, "")), Send(device, InitializeTrust), Publish(DroneAssigned(slug, device))]
  }

  lemma JoinRun(slug: string, device: string) returns (states: seq<State>, events: seq<Event>)
    requires slug != ""
    ensures Run(states, events) && |events| == 3 && JustJoined(states[3], slug, device)
    ensures |states| == 4
  {
    events := [Made(slug), DeviceSeen(device, 0), AssignDrone(slug, device, 0, true)];
    var s1 := Step(INITIAL, events[0]);
    EmptyMission(INITIAL, slug);
    assert s1.effects == [Publish(MissionCreated(slug, ""))];
    var s2 := Step(s1, events[1]);
    var s3 := Step(s2, events[2]);
    FirstAssignment(s2, slug, device);
    assert s3.effects == s2.effects + [Send(device, InitializeTrust)] + [Publish(DroneAssigned(slug, device))];
    states := [INITIAL, s1, s2, s3];
  }

  lemma FirstTrust(st: State, slug: string, device: string, key: string, push: Push)
    requires JustJoined(st, slug, device)
    ensures var e := TrustMessage(device, key, push, true);
            && Announces(st, e, slug)
            && Step(st, e).missions == map[slug := Mission("", [TrustEntry(NewEntry(device), key)])]
            && Step(st, e).index == st.index && Step(st, e).seen == st.seen
            && Outbox(Step(st, e), slug) == (if push.Lost? then [] else [DroneAdded(device)])
            && slug in Step(st, e).repos
  {
    assert [NewEntry(device)][0 := TrustEntry(NewEntry(device), key)] == [TrustEntry(NewEntry(device), key)];
  }

  lemma HeldAlone(device: string)
    ensures Replay([DroneAdded(device)]) == {device}
  {
    assert [DroneAdded(device)][..0] == [];
  }

  /** One mission, in it one trusted drone. */
  predicate JustTrusted(st: State, slug: string, device: string, key: string) {
    && st.missions == map[slug := Mission("", [TrustEntry(NewEntry(device), key)])]
    && st.index == map[device := slug] && st.seen == map[device := 0]
  }

  lemma TrustedAlone(st: State, slug: string, device: string, key: string)
    requires JustTrusted(st, slug, device, key)
    ensures TrustedDevices(DronesOf(st, slug)) == {device} && IsTrusted(DronesOf(st, slug), device)
    ensures InSync(st, slug) <==> Replay(Outbox(st, slug)) == {device}
  {
    assert DronesOf(st, slug)[0].trusted && DronesOf(st, slug)[0].device == device;
  }

  /** The drone is trusted and its line is lost: a reader of the outbox misses it. */
  lemma LostAdditionRun(slug: string, device: string, key: string) returns (states: seq<State>, events: seq<Event>)
    requires slug != ""
    ensures Run(states, events) && |events| == 4 && LosesAddition(states[3], events[3], slug, device)
    ensures slug in states[4].missions && Missing(states[4], slug, device) && !InSync(states[4], slug)
  {
    states, events := JoinRun(slug, device);
    FirstTrust(states[3], slug, device, key, Lost);
    states, events := GoOn(states, events, TrustMessage(device, key, Lost, true));
    TrustedAlone(states[4], slug, device, key);
  }

  lemma TrustedRun(slug: string, device: string, key: string) returns (states: seq<State>, events: seq<Event>)
    requires slug != ""
    ensures Run(states, events) && |events| == 4 && |states| == 5 && JustTrusted(states[4], slug, device, key)
    ensures slug in states[4].repos && states[4].repos[slug] == [DroneAdded(device)] && InSync(states[4], slug)
  {
    states, events := JoinRun(slug, device);
    FirstTrust(states[3], slug, device, key, Delivered);
    states, events := GoOn(states, events, TrustMessage(device, key, Delivered, true));
    TrustedAlone(states[4], slug, device, key);
    HeldAlone(device);
  }

  lemma AbandonedStep(st: State, slug: string, device: string, key: string)
    requires JustTrusted(st, slug, device, key) && Held(st, slug, device)
    ensures var e := RemoveDrone(slug, device, DeliveredWithError, true);
            AbandonsRemoval(st, e, slug, device) && Missing(Step(st, e), slug, device)
            && JustTrusted(Step(st, e), slug, device, key)
  {
    TrustedAlone(st, slug, device, key);
    ReplayAppend(Outbox(st, slug), DroneRemoved(device));
  }

  /** The removal of a trusted drone is announced and abandoned: a reader of the outbox misses it. */
  lemma AbandonedRemovalRun(slug: string, device: string, key: string)
    returns (states: seq<State>, events: seq<Event>)
    requires slug != ""
    ensures Run(states, events) && |events| == 5 && AbandonsRemoval(states[4], events[4], slug, device)
    ensures InSync(states[4], slug)
    ensures slug in states[5].missions && Missing(states[5], slug, device) && !InSync(states[5], slug)
  {
    states, events := TrustedRun(slug, device, key);
    HeldAlone(device);
    AbandonedStep(states[4], slug, device, key);
    states, events := GoOn(states, events, RemoveDrone(slug, device, DeliveredWithError, true));
    TrustedAlone(states[5], slug, device, key);
  }

  lemma FailsStep(st: State, slug: string, device: string)
    requires slug != "" && JustJoined(st, slug, device)
    ensures var e := StateMessage(device, "", slug, 0);
            && Legal(st, e) && Fails(st, e, slug, device) && Step(st, e).index == st.index
            && slug in Step(st, e).missions
            && EntryOf(Step(st, e), slug, device) == Some(NewEntry(device).(status := Failed))
  {
    var e := StateMessage(device, "", slug, 0);
    StepMissions(st, e, slug);
    StepEntry(st, e, slug, device);
  }

  lemma RecoversStep(st: State, slug: string, device: string, key: string, push: Push)
    requires device in st.index && st.index[device] == slug && slug in st.missions
    requires EntryOf(st, slug, device) == Some(NewEntry(device).(status := Failed))
    ensures EntryOf(Step(st, TrustMessage(device, key, push, true)), slug, device) == Some(TrustEntry(NewEntry(device), key))
  {
    var e := TrustMessage(device, key, push, true);
    StepMissions(st, e, slug);
    StepEntry(st, e, slug, device);
  }

  /** A drone that has failed is still in the mission, and a trust message takes it out of `failed`, whatever comes
      of its announcement. */
  lemma RecoveredRun(slug: string, device: string, key: string, push: Push) returns (states: seq<State>, events: seq<Event>)
    requires slug != ""
    ensures Run(states, events) && |events| == 5
    ensures Fails(states[3], events[3], slug, device) && IsFailed(states[4], slug, device)
    ensures EntryOf(states[5], slug, device) == Some(TrustEntry(NewEntry(device), key)) && !IsFailed(states[5], slug, device)
  {
    states, events := JoinRun(slug, device);
    FailsStep(states[3], slug, device);
    states, events := GoOn(states, events, StateMessage(device, "", slug, 0));
    RecoversStep(states[4], slug, device, key, push);
    states, events := GoOn(states, events, TrustMessage(device, key, push, true));
  }

  lemma TwoTrusts(slug: string, device: string, key: string, again: string, push: Push)
    returns (states: seq<State>, events: seq<Event>)
    requires slug != ""
    ensures Run(states, events) && |events| == 5 && |states| == 6 && JustJoined(states[3], slug, device)
    ensures events[3] == TrustMessage(device, key, push, true) && Announces(states[3], events[3], slug)
    ensures events[4] == TrustMessage(device, again, Delivered, true)
  {
    states, events := JoinRun(slug, device);
    FirstTrust(states[3], slug, device, key, push);
    states, events := GoOn(states, events, TrustMessage(device, key, push, true));
    states, events := GoOn(states, events, TrustMessage(device, again, Delivered, true));
  }

  /** A drone trusted by a message whose announcement reports an error is not invited by the next one. */
  lemma UninvitedRun(slug: string, device: string, key: string, again: string, push: Push)
    returns (states: seq<State>, events: seq<Event>)
    requires slug != "" && !push.Delivered?
    ensures Run(states, events) && |events| == 5
    ensures Announces(states[3], events[3], slug) && events[4] == TrustMessage(device, again, Delivered, true)
    ensures TrustedWith(states[5], slug, device, key) && Send(device, JoinMission(slug)) !in states[5].effects
  {
    states, events := TwoTrusts(slug, device, key, again, push);
    NeverInvited(states, events, 3, 5, slug, device);
    var before := states[3].effects;
    assert states[5].effects == before + states[5].effects[|before|..];
    assert Send(device, JoinMission(slug)) !in before;
  }

  /** The line of a new item lands behind a reported error: the backlog misses it. */
  lemma ForgottenTaskRun(slug: string, task: Task) returns (states: seq<State>, events: seq<Event>)
    requires slug != ""
    ensures Run(states, events) && |events| == 2 && ForgetsTask(states[1], events[1], slug)
    ensures slug in states[2].missions && Whole(states[1], slug) && !Whole(states[2], slug)
  {
    states, events := GoOn([INITIAL], [], Made(slug));
    EmptyMission(INITIAL, slug);
    BacklogIsWhole(states, events, 1, slug);
    states, events := GoOn(states, events, AddTask(slug, task, DeliveredWithError));
    BacklogIsWhole(states, events, 2, slug);
  }

  function Again(slug: string): Event {
    CreateMission(slug, slug, "", [], true, true, true, true)
  }

  /** The repository outlives the mission: in the new mission of this name the outbox holds a drone that
      is not listed. */
  lemma RevivalRun(slug: string, device: string, key: string) returns (states: seq<State>, events: seq<Event>)
    requires slug != ""
    ensures Run(states, events) && |events| == 6 && |states| == 7
    ensures Revives(states[5], events[5], slug, device) && Extra(states[6], slug, device)
    ensures states[6].missions == map[slug := Mission("", [])]
    ensures states[6].index == map[] && states[6].seen == map[device := 0]
    ensures Outbox(states[6], slug) == [DroneAdded(device)]
  {
    states, events := TrustedRun(slug, device, key);
    DeletedTrusted(states[4], slug, device, key);
    states, events := GoOn(states, events, DeleteMission(slug, false));
    HeldAlone(device);
    CreatedAgain(states[5], slug);
    states, events := GoOn(states, events, Again(slug));
  }

  /** When this drone joins again, it is announced although the outbox holds it. */
  lemma AnnouncedHeldRun(slug: string, device: string, key: string) returns (states: seq<State>, events: seq<Event>)
    requires slug != ""
    ensures Run(states, events) && |events| == 8 && |states| == 9 && AddsRevived(states, events, 7, slug, device)
    ensures Outbox(states[8], slug) == [DroneAdded(device), DroneAdded(device)]
    ensures !Separated(Outbox(states[8], slug), device)
  {
    states, events := RevivalRun(slug, device, key);
    FirstAssignment(states[6], slug, device);
    AssignKeepsOutbox(states[6], slug, device);
    states, events := GoOn(states, events, AssignDrone(slug, device, 0, true));
    TrustedAgain(states[7], slug, device, key);
    states, events := GoOn(states, events, TrustMessage(device, key, Delivered, true));
    AnnouncedIsHeld(states, events, 7, slug);
    var log := Outbox(states[8], slug);
    assert log[0] == log[1] == DroneAdded(device);
  }

  lemma DeletedTrusted(st: State, slug: string, device: string, key: string)
    requires st.missions == map[slug := Mission("", [TrustEntry(NewEntry(device), key)])] && st.index == map[device := slug]
    ensures var st' := Step(st, DeleteMission(slug, false));
            st'.missions == map[] && st'.index == map[] && st'.seen == st.seen && st'.repos == st.repos
  {
    assert Devices(st.missions[slug].drones) == {device} by {
      assert st.missions[slug].drones[0].device == device;
    }
  }

  lemma CreatedAgain(st: State, slug: string)
    requires slug != "" && st.missions == map[]
    ensures var st' := Step(st, Again(slug));
            && st'.missions == map[slug := Mission("", [])] && st'.index == st.index && st'.seen == st.seen
            && Outbox(st', slug) == Outbox(st, slug)
  {
  }

  lemma AssignKeepsOutbox(st: State, slug: string, device: string)
    ensures Outbox(Step(st, AssignDrone(slug, device, 0, true)), slug) == Outbox(st, slug)
  {
  }

  lemma TrustedAgain(st: State, slug: string, device: string, key: string)
    requires st.missions == map[slug := Mission("", [NewEntry(device)])] && device in st.index && st.index[device] == slug
    requires Outbox(st, slug) == [DroneAdded(device)]
    ensures LandsAddition(st, TrustMessage(device, key, Delivered, true), slug, device) && Held(st, slug, device)
    ensures Outbox(Step(st, TrustMessage(device, key, Delivered, true)), slug) == [DroneAdded(device), DroneAdded(device)]
  {
    HeldAlone(device);
  }

  /** The outbox of an earlier mission of this name announces an item that the new backlog does not have. */
  lemma RevivedTaskRun(slug: string, task: Task) returns (states: seq<State>, events: seq<Event>)
    requires slug != ""
    ensures Run(states, events) && |events| == 4 && RevivesTasks(states[3], events[3], slug)
    ensures slug in states[4].missions && !Whole(states[4], slug)
  {
    states, events := GoOn([INITIAL], [], Made(slug));
    EmptyMission(INITIAL, slug);
    states, events := GoOn(states, events, AddTask(slug, task, Delivered));
    states, events := GoOn(states, events, DeleteMission(slug, false));
    assert Outbox(states[2], slug) == Outbox(states[1], slug) + [TaskCreated(task)] == [TaskCreated(task)];
    CreatedAppend([], TaskCreated(task));
    assert states[3].missions == map[] && Created(Outbox(states[3], slug)) != [];
    states, events := GoOn(states, events, Again(slug));
    BacklogIsWhole(states, events, 4, slug);
  }
}
