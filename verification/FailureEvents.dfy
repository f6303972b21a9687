/**
 The event that a drone has failed is sent on the edge: once for each time the drone
 becomes failed, and again only after something has cleared the failure.
 */
module FailureEvents {
  import opened Options
  import opened Registry
  import opened Steps
  import opened Safety
  import opened TrustHistory
  import opened IndexScan

  ghost predicate IsFailed(st: State, slug: string, device: string) {
    EntryOf(st, slug, device).Some? && EntryOf(st, slug, device).value.status == Failed
  }

  /** How often the drone became failed in the first `k` steps. */
  ghost function Falls(states: seq<State>, slug: string, device: string, k: nat): nat
    requires k < |states|
  {
    if k == 0 then 0
    else
      Falls(states, slug, device, k - 1)
      + if !IsFailed(states[k - 1], slug, device) && IsFailed(states[k], slug, device) then 1 else 0
  }

  lemma FallStep(st: State, e: Event, slug: string, device: string)
    ensures !IsFailed(st, slug, device) && IsFailed(Step(st, e), slug, device) <==> Fails(st, e, slug, device)
  {
    StepMissions(st, e, slug);
    if slug in st.missions && !Deletes(st, e, slug) {
      StepEntry(st, e, slug, device);
    }
  }

  lemma EventStep(st: State, e: Event, slug: string, device: string)
    ensures multiset(NewEffects(st, e))[Publish(DroneFailed(slug, device))] ==
            if Fails(st, e, slug, device) then 1 else 0
  {
    var failed := Publish(DroneFailed(slug, device));
    if !e.StateMessage? && failed in NewEffects(st, e) {
      var i :| 0 <= i < |NewEffects(st, e)| && NewEffects(st, e)[i] == failed;
      EffectSource(st, e, i);
    }
  }

  lemma CountConcat(a: seq<Effect>, b: seq<Effect>, x: Effect)
    ensures multiset(a + b)[x] == multiset(a)[x] + multiset(b)[x]
  {
  }

  lemma EventsNext(states: seq<State>, events: seq<Event>, k: nat, slug: string, device: string)
    requires Run(states, events) && k < |events|
    ensures multiset(states[k + 1].effects)[Publish(DroneFailed(slug, device))]
         == multiset(states[k].effects)[Publish(DroneFailed(slug, device))]
            + if !IsFailed(states[k], slug, device) && IsFailed(states[k + 1], slug, device) then 1 else 0
  {
    assert Follows(states, events, k);
    EffectsNext(states, events, k);
    CountConcat(states[k].effects, NewEffects(states[k], events[k]), Publish(DroneFailed(slug, device)));
    FallStep(states[k], events[k], slug, device);
    EventStep(states[k], events[k], slug, device);
  }

  /** In every run, the number of failure events for a drone of a mission is the number of times
      the drone became failed there. */
  lemma {:induction false} EventsAreFalls(states: seq<State>, events: seq<Event>, k: nat, slug: string, device: string)
    requires Run(states, events) && k < |states|
    ensures multiset(states[k].effects)[Publish(DroneFailed(slug, device))] == Falls(states, slug, device, k)
  {
    if k > 0 {
      EventsAreFalls(states, events, k - 1, slug, device);
      EventsNext(states, events, k - 1, slug, device);
    }
  }

  /** What clears a failure: the drone reports its mission, is trusted, or is assigned again. */
  ghost predicate Clears(st: State, e: Event, slug: string, device: string) {
    Confirms(e, slug, device) || Trusts(st, e, slug, device) || Assigns(st, e, slug, device)
  }

  ghost predicate Quiet(st: State, slug: string, device: string) {
    EntryOf(st, slug, device).Some? ==> EntryOf(st, slug, device).value.status == Failed
  }

  lemma QuietStep(st: State, e: Event, slug: string, device: string)
    requires Quiet(st, slug, device) && !Clears(st, e, slug, device)
    ensures Quiet(Step(st, e), slug, device)
  {
    StepMissions(st, e, slug);
    if slug in st.missions && !Deletes(st, e, slug) {
      StepEntry(st, e, slug, device);
    }
  }

  lemma {:induction false} ClearedBefore(states: seq<State>, events: seq<Event>, i: nat, j: nat,
                                         slug: string, device: string)
    requires Run(states, events) && i <= j < |events|
    requires Quiet(states[i], slug, device) && Fails(states[j], events[j], slug, device)
    ensures exists m :: i <= m < j && Clears(states[m], events[m], slug, device)
    decreases j - i
  {
    assert Follows(states, events, i);
    if !Clears(states[i], events[i], slug, device) {
      QuietStep(states[i], events[i], slug, device);
      ClearedBefore(states, events, i + 1, j, slug, device);
    }
  }

  /** In every run, two failure events for a drone of a mission have a clearing step between them. */
  lemma FailsAgainAfterCleared(states: seq<State>, events: seq<Event>, i: nat, j: nat, slug: string, device: string)
    requires Run(states, events) && i < j < |events|
    requires Fails(states[i], events[i], slug, device) && Fails(states[j], events[j], slug, device)
    ensures exists m :: i < m < j && Clears(states[m], events[m], slug, device)
  {
    assert Follows(states, events, i);
    FallStep(states[i], events[i], slug, device);
    ClearedBefore(states, events, i + 1, j, slug, device);
  }

  lemma OneMission(st: State, before: string, after: string, device: string)
    requires Exact(st) && IsFailed(st, before, device)
    ensures Quiet(st, after, device)
  {
  }

  lemma QuietAfterFailure(states: seq<State>, events: seq<Event>, i: nat, before: string, after: string, device: string)
    requires Run(states, events) && i < |events|
    requires forall m | 0 <= m <= i :: !WrongRemoval(states[m], events[m])
    requires Fails(states[i], events[i], before, device)
    ensures Quiet(states[i + 1], after, device)
  {
    assert Follows(states, events, i);
    FallStep(states[i], events[i], before, device);
    ExactUntil(states, events, i + 1);
    OneMission(states[i + 1], before, after, device);
  }

  /** While no removal has named another mission, the same holds for the device as such: two
      failure events have a clearing step between them even when they come from two missions. */
  lemma DeviceFailsAgainAfterCleared(states: seq<State>, events: seq<Event>, i: nat, j: nat,
                                     before: string, after: string, device: string)
    requires Run(states, events) && i < j < |events|
    requires forall m | 0 <= m <= i :: !WrongRemoval(states[m], events[m])
    requires Fails(states[i], events[i], before, device) && Fails(states[j], events[j], after, device)
    ensures exists m :: i < m < j && Clears(states[m], events[m], after, device)
  {
    QuietAfterFailure(states, events, i, before, after, device);
    ClearedBefore(states, events, i + 1, j, after, device);
  }

  // ---------------------------------------------------------------- a failed drone stays

  lemma StaysStep(st: State, e: Event, slug: string, device: string)
    requires EntryOf(st, slug, device).Some? && !Drops(st, e, slug, device)
    ensures EntryOf(Step(st, e), slug, device).Some?
    ensures IsFailed(st, slug, device) ==>
              (IsFailed(Step(st, e), slug, device) <==> !Confirms(e, slug, device) && !Trusts(st, e, slug, device))
  {
    StepMissions(st, e, slug);
    StepEntry(st, e, slug, device);
  }

  lemma StaysNext(states: seq<State>, events: seq<Event>, k: nat, slug: string, device: string)
    requires Run(states, events) && k < |events|
    requires EntryOf(states[k], slug, device).Some? && !Drops(states[k], events[k], slug, device)
    ensures EntryOf(states[k + 1], slug, device).Some?
    ensures IsFailed(states[k], slug, device) ==>
              (IsFailed(states[k + 1], slug, device) <==> !Recovers(states, events, k, slug, device))
  {
    assert Follows(states, events, k);
    StaysStep(states[k], events[k], slug, device);
  }

  /** The drone reports the mission, or is trusted in it. */
  ghost predicate Recovers(states: seq<State>, events: seq<Event>, m: nat, slug: string, device: string)
    requires m < |events| && m < |states|
  {
    Confirms(events[m], slug, device) || Trusts(states[m], events[m], slug, device)
  }

  ghost predicate FailedThroughout(states: seq<State>, i: nat, j: nat, slug: string, device: string)
    requires j < |states|
  {
    forall k | i <= k <= j :: IsFailed(states[k], slug, device)
  }

  ghost predicate NeverRecovers(states: seq<State>, events: seq<Event>, i: nat, j: nat, slug: string, device: string)
    requires j <= |events| && j < |states|
  {
    forall m | i <= m < j :: !Recovers(states, events, m, slug, device)
  }

  lemma OneMoreFailed(states: seq<State>, i: nat, j: nat, slug: string, device: string)
    requires i < j < |states|
    ensures FailedThroughout(states, i, j, slug, device) <==>
            FailedThroughout(states, i, j - 1, slug, device) && IsFailed(states[j], slug, device)
  {
  }

  lemma OneMoreQuiet(states: seq<State>, events: seq<Event>, i: nat, j: nat, slug: string, device: string)
    requires i < j <= |events| && j < |states|
    ensures NeverRecovers(states, events, i, j, slug, device) <==>
            NeverRecovers(states, events, i, j - 1, slug, device) && !Recovers(states, events, j - 1, slug, device)
  {
  }

  /** What `FailureLasts` says, one step on. */
  lemma FailureOnwards(states: seq<State>, events: seq<Event>, i: nat, j: nat, slug: string, device: string)
    requires Run(states, events) && i <= j < |events| && !Drops(states[j], events[j], slug, device)
    requires EntryOf(states[j], slug, device).Some?
    requires FailedThroughout(states, i, j, slug, device) <==> NeverRecovers(states, events, i, j, slug, device)
    ensures EntryOf(states[j + 1], slug, device).Some?
    ensures FailedThroughout(states, i, j + 1, slug, device) <==> NeverRecovers(states, events, i, j + 1, slug, device)
  {
    StaysNext(states, events, j, slug, device);
    OneMoreFailed(states, i, j + 1, slug, device);
    OneMoreQuiet(states, events, i, j + 1, slug, device);
    assert FailedThroughout(states, i, j, slug, device) ==> IsFailed(states[j], slug, device);
  }

  /** In every run a drone that has failed stays listed until it is dropped from the mission, and it stays failed
      throughout if and only if it neither reports the mission nor is trusted. */
  lemma {:induction false} FailureLasts(states: seq<State>, events: seq<Event>, i: nat, j: nat, slug: string, device: string)
    requires Run(states, events) && i <= j < |states| && IsFailed(states[i], slug, device)
    requires forall m | i <= m < j :: !Drops(states[m], events[m], slug, device)
    ensures EntryOf(states[j], slug, device).Some?
    ensures FailedThroughout(states, i, j, slug, device) <==> NeverRecovers(states, events, i, j, slug, device)
    decreases j
  {
    if i < j {
      FailureLasts(states, events, i, j - 1, slug, device);
      FailureOnwards(states, events, i, j - 1, slug, device);
    }
  }

  // ---------------------------------------------------------------- per device

  ghost predicate DeviceFailed(st: State, device: string) {
    device in st.index && IsFailed(st, st.index[device], device)
  }

  ghost function DeviceFalls(states: seq<State>, device: string, k: nat): nat
    requires k < |states|
  {
    if k == 0 then 0
    else
      DeviceFalls(states, device, k - 1)
      + if !DeviceFailed(states[k - 1], device) && DeviceFailed(states[k], device) then 1 else 0
  }

  predicate TellsFailure(x: Effect, device: string) {
    x.Publish? && x.event.DroneFailed? && x.event.device == device
  }

  /** Failure events for a device, from any mission. */
  function Failures(effects: seq<Effect>, device: string): nat {
    if effects == [] then 0
    else Failures(effects[..|effects| - 1], device) + if TellsFailure(effects[|effects| - 1], device) then 1 else 0
  }

  lemma {:induction false} FailuresConcat(a: seq<Effect>, b: seq<Effect>, device: string)
    ensures Failures(a + b, device) == Failures(a, device) + Failures(b, device)
  {
    if b == [] {
      assert a + b == a;
    } else {
      assert (a + b)[..|a + b| - 1] == a + b[..|b| - 1];
      FailuresConcat(a, b[..|b| - 1], device);
    }
  }

  lemma {:induction false} NoFailures(effects: seq<Effect>, device: string)
    requires forall i | 0 <= i < |effects| :: !TellsFailure(effects[i], device)
    ensures Failures(effects, device) == 0
  {
    if effects != [] {
      NoFailures(effects[..|effects| - 1], device);
    }
  }

  lemma NewFailures(st: State, e: Event, device: string)
    ensures Failures(NewEffects(st, e), device) ==
            if e.StateMessage? && Fails(st, e, e.found, device) then 1 else 0
  {
    if e.StateMessage? {
      var told := Publish(DroneFailed(e.found, e.device));
      assert [told][..0] == [] && Failures([told], device) == if e.device == device then 1 else 0;
    } else {
      forall i | 0 <= i < |NewEffects(st, e)| ensures !TellsFailure(NewEffects(st, e)[i], device) {
        EffectSource(st, e, i);
      }
      NoFailures(NewEffects(st, e), device);
    }
  }

  lemma FailedSomewhere(st: State, device: string)
    requires Exact(st)
    ensures forall slug :: IsFailed(st, slug, device) ==> DeviceFailed(st, device) && st.index[device] == slug
  {
  }

  lemma DeviceFallStep(st: State, e: Event, device: string)
    requires Exact(st) && Exact(Step(st, e))
    ensures !DeviceFailed(st, device) && DeviceFailed(Step(st, e), device)
            <==> e.StateMessage? && Fails(st, e, e.found, device)
  {
    FailedSomewhere(st, device);
    FailedSomewhere(Step(st, e), device);
    if device in Step(st, e).index {
      FallStep(st, e, Step(st, e).index[device], device);
    }
    if e.StateMessage? {
      FallStep(st, e, e.found, device);
      if Fails(st, e, e.found, device) {
        assert EntryOf(st, e.found, device).Some?;
      }
    }
  }

  lemma DeviceEventsNext(states: seq<State>, events: seq<Event>, k: nat, device: string)
    requires Run(states, events) && k < |events| && Exact(states[k]) && Exact(states[k + 1])
    ensures Failures(states[k + 1].effects, device) == Failures(states[k].effects, device)
            + if !DeviceFailed(states[k], device) && DeviceFailed(states[k + 1], device) then 1 else 0
  {
    assert Follows(states, events, k);
    EffectsNext(states, events, k);
    FailuresConcat(states[k].effects, NewEffects(states[k], events[k]), device);
    NewFailures(states[k], events[k], device);
    DeviceFallStep(states[k], events[k], device);
  }

  /** While no removal names another mission, the failure events for a device are as many as the
      times the device, in the mission the index gives, became failed. */
  lemma {:induction false} DeviceEventsAreFalls(states: seq<State>, events: seq<Event>, k: nat, device: string)
    requires Run(states, events) && k < |states|
    requires forall i | 0 <= i < k :: !WrongRemoval(states[i], events[i])
    ensures Failures(states[k].effects, device) == DeviceFalls(states, device, k)
  {
    if k > 0 {
      DeviceEventsAreFalls(states, events, k - 1, device);
      ExactUntil(states, events, k - 1);
      ExactUntil(states, events, k);
      DeviceEventsNext(states, events, k - 1, device);
    }
  }
}
