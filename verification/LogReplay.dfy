/**
 The outbox against the drone list, mission by mission and device by device: what the
 outbox says too little, and when it says exactly what the list does.
 */
module LogReplay {
  import opened Options
  import opened Registry
  import opened Steps
  import opened Safety
  import opened Outboxes

  /** The devices of the trusted entries, first or not. */
  function TrustedDevices(ds: seq<Entry>): set<string> {
    set i | 0 <= i < |ds| && ds[i].trusted :: ds[i].device
  }

  /** Replaying the outbox gives exactly the trusted devices. */
  ghost predicate InSync(st: State, slug: string) {
    Replay(Outbox(st, slug)) == TrustedDevices(DronesOf(st, slug))
  }

  lemma TrustedMeansFirst(ds: seq<Entry>, device: string)
    requires TrustedFirst(ds)
    ensures device in TrustedDevices(ds) <==> IsTrusted(ds, device)
  {
    FindFirst(ds, device);
    if device in TrustedDevices(ds) {
      var i :| 0 <= i < |ds| && ds[i].trusted && ds[i].device == device;
      FindIs(ds, device, i);
    }
    if IsTrusted(ds, device) {
      assert ds[Find(ds, device)].trusted && ds[Find(ds, device)].device == device;
    }
  }

  // ---------------------------------------------------------------- what the outbox does not say

  /** A device trusted in the mission is not held by the outbox. */
  ghost predicate Missing(st: State, slug: string, device: string) {
    IsTrusted(DronesOf(st, slug), device) && !Held(st, slug, device)
  }

  /** A device becomes trusted and its `drone-added` line is lost. */
  ghost predicate LosesAddition(st: State, e: Event, slug: string, device: string) {
    Announces(st, e, slug) && e.device == device && e.push.Lost?
  }

  /** The `drone-removed` line of a trusted device lands and the removal is then abandoned. */
  ghost predicate AbandonsRemoval(st: State, e: Event, slug: string, device: string) {
    Unlists(st, e, slug) && e.device == device && IsTrusted(DronesOf(st, slug), device)
    && (e.push.DeliveredWithError? || (e.push.Delivered? && !e.sent))
  }

  /** The `i`-th step loses the addition of a device, which was not revived with the mission, or abandons its removal. */
  ghost predicate StopsHalfWay(states: seq<State>, events: seq<Event>, i: nat, slug: string, device: string)
    requires i < |events| && |states| == |events| + 1
  {
    || (LosesAddition(states[i], events[i], slug, device) && !RevivedSince(states, events, i, slug, device))
    || AbandonsRemoval(states[i], events[i], slug, device)
  }

  /** Such a step was among the first `k`, and the device has not been dropped from the mission since. */
  ghost predicate HalfWaySince(states: seq<State>, events: seq<Event>, k: nat, slug: string, device: string)
    requires k <= |events| && |states| == |events| + 1
  {
    exists i :: 0 <= i < k && StopsHalfWay(states, events, i, slug, device)
                && forall m | i < m < k :: !Drops(states[m], events[m], slug, device)
  }

  lemma HalfWayStep(states: seq<State>, events: seq<Event>, k: nat, slug: string, device: string)
    requires k < |events| && |states| == |events| + 1
    ensures HalfWaySince(states, events, k + 1, slug, device) <==>
            || StopsHalfWay(states, events, k, slug, device)
            || (HalfWaySince(states, events, k, slug, device) && !Drops(states[k], events[k], slug, device))
  {
    if HalfWaySince(states, events, k, slug, device) && !Drops(states[k], events[k], slug, device) {
      var i :| 0 <= i < k && StopsHalfWay(states, events, i, slug, device)
               && forall m | i < m < k :: !Drops(states[m], events[m], slug, device);
      assert forall m | i < m < k + 1 :: !Drops(states[m], events[m], slug, device);
    }
  }

  lemma HalfWayIsLive(states: seq<State>, events: seq<Event>, k: nat, slug: string, device: string)
    requires Run(states, events) && k <= |events| && HalfWaySince(states, events, k, slug, device)
    ensures slug in states[k].missions
  {
    var i :| 0 <= i < k && StopsHalfWay(states, events, i, slug, device)
             && forall m | i < m < k :: !Drops(states[m], events[m], slug, device);
    LiveNext(states, events, i, slug);
    StaysLive(states, events, i + 1, k, slug);
  }

  lemma MissingStep(st: State, e: Event, slug: string, device: string)
    requires IndexSound(st) && slug in Step(st, e).missions
    ensures Missing(Step(st, e), slug, device) <==>
            || (LosesAddition(st, e, slug, device) && !Held(st, slug, device))
            || AbandonsRemoval(st, e, slug, device)
            || (slug in st.missions && Missing(st, slug, device) && !Drops(st, e, slug, device))
  {
    StepMissions(st, e, slug);
    if slug in st.missions {
      HeldStep(st, e, slug, device);
      TrustedStep(st, e, slug, device);
    }
  }

  lemma MissingNext(states: seq<State>, events: seq<Event>, k: nat, slug: string, device: string)
    requires Run(states, events) && k < |events| && slug in states[k + 1].missions
    ensures Missing(states[k + 1], slug, device) <==>
            || StopsHalfWay(states, events, k, slug, device)
            || (slug in states[k].missions && Missing(states[k], slug, device) && !Drops(states[k], events[k], slug, device))
  {
    assert Follows(states, events, k);
    SafeRun(states, events, k);
    MissingStep(states[k], events[k], slug, device);
    if LosesAddition(states[k], events[k], slug, device) {
      AnnouncedIsHeld(states, events, k, slug);
    }
  }

  /** The next state, when this one is as `MissingIsHalfWay` says. */
  lemma MissingOnwards(states: seq<State>, events: seq<Event>, k: nat, slug: string, device: string)
    requires Run(states, events) && k < |events| && slug in states[k + 1].missions
    requires slug in states[k].missions ==>
               (Missing(states[k], slug, device) <==> HalfWaySince(states, events, k, slug, device))
    ensures Missing(states[k + 1], slug, device) <==> HalfWaySince(states, events, k + 1, slug, device)
  {
    MissingNext(states, events, k, slug, device);
    HalfWayStep(states, events, k, slug, device);
    if slug !in states[k].missions && HalfWaySince(states, events, k, slug, device) {
      HalfWayIsLive(states, events, k, slug, device);
    }
  }

  /** In every run and every live mission: a device trusted there is not held by the outbox if and only if some handler
      stopped half way with it, and it has not been dropped from the mission since. */
  lemma {:induction false} MissingIsHalfWay(states: seq<State>, events: seq<Event>, k: nat, slug: string, device: string)
    requires Run(states, events) && k < |states| && slug in states[k].missions
    ensures Missing(states[k], slug, device) <==> HalfWaySince(states, events, k, slug, device)
  {
    if slug in states[k - 1].missions {
      MissingIsHalfWay(states, events, k - 1, slug, device);
    }
    MissingOnwards(states, events, k - 1, slug, device);
  }

  // ---------------------------------------------------------------- both ways

  lemma InSyncMeans(st: State, slug: string)
    requires Safe(st) && slug in st.missions
    ensures InSync(st, slug) <==> forall device :: !Extra(st, slug, device) && !Missing(st, slug, device)
  {
    forall device: string
      ensures device in TrustedDevices(DronesOf(st, slug)) <==> IsTrusted(DronesOf(st, slug), device)
    {
      TrustedMeansFirst(DronesOf(st, slug), device);
    }
    if InSync(st, slug) {
      forall device ensures !Extra(st, slug, device) && !Missing(st, slug, device) {
        assert device in Replay(Outbox(st, slug)) <==> device in TrustedDevices(DronesOf(st, slug));
      }
    }
    if forall device :: !Extra(st, slug, device) && !Missing(st, slug, device) {
      forall device ensures device in Replay(Outbox(st, slug)) <==> device in TrustedDevices(DronesOf(st, slug)) {
        assert !Extra(st, slug, device) && !Missing(st, slug, device);
      }
    }
  }

  /** In every run and every live mission, whatever happens in others: replaying its outbox gives exactly its trusted
      devices if and only if no device is left over from an earlier mission and no handler stopped half way with one
      that is still there.  What mission a removal names does not matter. */
  lemma InSyncIs(states: seq<State>, events: seq<Event>, k: nat, slug: string)
    requires Run(states, events) && k < |states| && slug in states[k].missions
    ensures InSync(states[k], slug) <==>
            forall device :: !RevivedSince(states, events, k, slug, device) && !HalfWaySince(states, events, k, slug, device)
  {
    SafeRun(states, events, k);
    InSyncMeans(states[k], slug);
    forall device: string
      ensures Extra(states[k], slug, device) <==> RevivedSince(states, events, k, slug, device)
      ensures Missing(states[k], slug, device) <==> HalfWaySince(states, events, k, slug, device)
    {
      ExtraIsRevived(states, events, k, slug, device);
      MissingIsHalfWay(states, events, k, slug, device);
    }
  }

  // ---------------------------------------------------------------- runs without failures

  /** Deletions and abandoned creations take the repository with them. */
  ghost predicate CleansUp(e: Event) {
    (e.DeleteMission? ==> e.repoDeleted) && (e.CreateMission? ==> e.configured || e.cleaned)
  }

  ghost predicate ReposLive(st: State) {
    forall slug | slug in st.repos :: slug in st.missions
  }

  lemma ReposStep(st: State, e: Event)
    requires ReposLive(st) && CleansUp(e)
    ensures ReposLive(Step(st, e))
  {
    forall slug | slug in Step(st, e).repos ensures slug in Step(st, e).missions {
      StepMissions(st, e, slug);
      StepRepo(st, e, slug);
      assert RepoOf(Step(st, e), slug).Some?;
    }
  }

  /** In every run: while every deletion of a mission and every creation that fails takes its repository away, no
      repository is left without its mission, so none is revived. */
  lemma {:induction false} NothingLeftBehind(states: seq<State>, events: seq<Event>, k: nat)
    requires Run(states, events) && k < |states|
    requires forall i | 0 <= i < k :: CleansUp(events[i])
    ensures ReposLive(states[k])
  {
    if k > 0 {
      assert Follows(states, events, k - 1);
      NothingLeftBehind(states, events, k - 1);
      ReposStep(states[k - 1], events[k - 1]);
    }
  }

  /** No push fails or is reported to, and no command fails after one. */
  ghost predicate GoesThrough(e: Event) {
    && CleansUp(e)
    && (e.TrustMessage? ==> e.push.Delivered?)
    && (e.RemoveDrone? ==> e.push.Delivered? && e.sent)
    && (e.AddTask? ==> e.push.Delivered?)
  }

  /** In a run without failures every live mission is in sync, whatever mission the removals name. */
  lemma InSyncWithoutFailures(states: seq<State>, events: seq<Event>, k: nat, slug: string)
    requires Run(states, events) && k < |states| && slug in states[k].missions
    requires forall i | 0 <= i < k :: GoesThrough(events[i])
    ensures InSync(states[k], slug)
  {
    forall device
      ensures !RevivedSince(states, events, k, slug, device) && !HalfWaySince(states, events, k, slug, device)
    {
      forall i | 0 <= i < k ensures !Revives(states[i], events[i], slug, device) {
        NothingLeftBehind(states, events, i);
      }
    }
    InSyncIs(states, events, k, slug);
  }
}
