/**
 Trust over runs: the first key wins, access to a repository follows trust, and a
 trusted drone whose announcement failed is never asked to join.
 */
module TrustHistory {
  import opened Options
  import opened Registry
  import opened Steps
  import opened Safety

  ghost predicate TrustedWith(st: State, slug: string, device: string, key: string) {
    EntryOf(st, slug, device).Some? && EntryOf(st, slug, device).value.trusted
    && EntryOf(st, slug, device).value.key == key
  }

  lemma KeyStep(st: State, e: Event, slug: string, device: string, key: string)
    requires TrustedWith(st, slug, device, key) && !Drops(st, e, slug, device)
    ensures TrustedWith(Step(st, e), slug, device, key)
  {
    StepMissions(st, e, slug);
    StepEntry(st, e, slug, device);
  }

  /** Once trusted, a listed drone keeps its key whatever else happens. */
  lemma {:induction false} KeyNeverChanges(states: seq<State>, events: seq<Event>, i: nat, j: nat,
                                           slug: string, device: string, key: string)
    requires Run(states, events) && i <= j < |states|
    requires TrustedWith(states[i], slug, device, key)
    requires forall m | i <= m < j :: !Drops(states[m], events[m], slug, device)
    ensures TrustedWith(states[j], slug, device, key)
    decreases j - i
  {
    if i < j {
      assert Follows(states, events, i);
      KeyStep(states[i], events[i], slug, device, key);
      KeyNeverChanges(states, events, i + 1, j, slug, device, key);
    }
  }

  // ---------------------------------------------------------------- effects

  ghost function NewEffects(st: State, e: Event): seq<Effect> {
    match e
    case CreateMission(slug, made, name, keys, repoMade, _, configured, _) =>
      if slug == "" || made != slug || slug in st.missions || !repoMade then []
      else seq(|keys|, i requires 0 <= i < |keys| => Allow(keys[i], slug)) + if configured then [Publish(MissionCreated(slug, name))] else []
    case DeleteMission(slug, _) => if slug in st.missions then [Publish(MissionRemoved(slug))] else []
    case AssignDrone(slug, device, now, sent) =>
      if slug !in st.missions || !SeenLately(st, device, now) || device in st.index then []
      else [Send(device, InitializeTrust)] + if sent then [Publish(DroneAssigned(slug, device))] else []
    case RemoveDrone(slug, device, push, sent) =>
      if !Unlists(st, e, slug) || !push.Delivered? then []
      else [Send(device, LeaveMission)] + if sent then [Publish(DroneLeft(slug, device))] else []
    case AddTask(slug, task, push) =>
      if !Tasks(st, e, slug) || !push.Delivered? then []
      else
        var ds := DronesOf(st, slug);
        seq(|ds|, i requires 0 <= i < |ds| => Send(ds[i].device, UpdateBacklog)) + [Publish(ItemAdded(slug, task))]
    case DeviceSeen(_, _) => []
    case TrustMessage(device, key, push, sent) =>
      if device !in st.index || !Announces(st, e, st.index[device]) || !push.Delivered? then []
      else
        var slug := st.index[device];
        [Allow(key, slug), Send(device, JoinMission(slug))]
        + if sent then [Publish(DroneGotTrusted(slug, device))] else []
    case PlanMessage(_, plan, found) => if found == "" then [] else [Publish(PlanReceived(found, plan))]
    case StateMessage(device, _, found, _) =>
      if Fails(st, e, found, device) then [Publish(DroneFailed(found, device))] else []
  }

  lemma CreateEffects(st: State, e: Event)
    requires e.CreateMission?
    ensures Step(st, e).effects == st.effects + NewEffects(st, e)
  {
  }

  lemma DroneEffects(st: State, e: Event)
    requires e.AssignDrone? || e.RemoveDrone?
    ensures Step(st, e).effects == st.effects + NewEffects(st, e)
  {
  }

  lemma TaskEffects(st: State, e: Event)
    requires e.AddTask?
    ensures Step(st, e).effects == st.effects + NewEffects(st, e)
  {
  }

  lemma TrustEffects(st: State, e: Event)
    requires e.TrustMessage?
    ensures Step(st, e).effects == st.effects + NewEffects(st, e)
  {
  }

  lemma StepEffects(st: State, e: Event)
    ensures Step(st, e).effects == st.effects + NewEffects(st, e)
  {
    match e {
      case CreateMission(_, _, _, _, _, _, _, _) => CreateEffects(st, e);
      case AssignDrone(_, _, _, _) => DroneEffects(st, e);
      case RemoveDrone(_, _, _, _) => DroneEffects(st, e);
      case AddTask(_, _, _) => TaskEffects(st, e);
      case TrustMessage(_, _, _, _) => TrustEffects(st, e);
      case _ =>
    }
  }

  // ---------------------------------------------------------------- access follows trust

  /** The creation gets as far as allowing its keys. */
  ghost predicate AllowsKeys(st: State, e: Event) {
    e.CreateMission? && e.slug != "" && e.made == e.slug && e.slug !in st.missions && e.repoMade
  }

  /** The `at`-th effect of the step allows `key` on `slug`: the mission is being created and `key` is its
      `at`-th key, or a trust message has marked a drone of the mission with `key` and was announced. */
  ghost predicate GrantsAccess(st: State, e: Event, at: nat, key: string, slug: string) {
    || (AllowsKeys(st, e) && e.slug == slug && at < |e.keys| && e.keys[at] == key)
    || (&& e.TrustMessage? && e.key == key && at == 0
        && slug in st.missions && !IsTrusted(DronesOf(st, slug), e.device)
        && TrustedWith(Step(st, e), slug, e.device, key)
        && Outbox(Step(st, e), slug) == Outbox(st, slug) + [DroneAdded(e.device)])
  }

  /** Which handlers touch access and membership: an `Allow` or an invitation comes from a creation or
      from an announced trust message, a failure event from a state message. */
  lemma EffectSource(st: State, e: Event, i: nat)
    requires i < |NewEffects(st, e)|
    ensures match NewEffects(st, e)[i] {
              case Allow(key, slug) =>
                || (AllowsKeys(st, e) && e.slug == slug && i < |e.keys| && e.keys[i] == key)
                || (e.TrustMessage? && Announces(st, e, slug) && e.push.Delivered? && e.key == key && i == 0)
              case Send(device, command) =>
                command.JoinMission? ==>
                  && e.TrustMessage? && Announces(st, e, command.slug) && e.push.Delivered? && e.device == device
                  && i == 1 && NewEffects(st, e)[0] == Allow(e.key, command.slug)
              case Publish(event) => event.DroneFailed? ==> e.StateMessage?
            }
  {
  }

  lemma AnnouncedInFull(st: State, e: Event, slug: string)
    requires Safe(st) && Announces(st, e, slug) && e.push.Delivered?
    ensures TrustedWith(Step(st, e), slug, e.device, e.key)
    ensures Outbox(Step(st, e), slug) == Outbox(st, slug) + [DroneAdded(e.device)]
  {
    StepMissions(st, e, slug);
    StepEntry(st, e, slug, e.device);
    StepLog(st, e, slug);
  }

  lemma AllowStep(st: State, e: Event, i: nat, key: string, slug: string)
    requires Safe(st) && i < |NewEffects(st, e)| && NewEffects(st, e)[i] == Allow(key, slug)
    ensures GrantsAccess(st, e, i, key, slug)
  {
    EffectSource(st, e, i);
    if e.TrustMessage? {
      AnnouncedInFull(st, e, slug);
    }
  }

  /** The step at `i` has the `n`-th effect of the run. */
  ghost predicate Emits(states: seq<State>, i: nat, n: nat)
    requires i + 1 < |states|
  {
    |states[i].effects| <= n < |states[i + 1].effects|
  }

  lemma EffectsNext(states: seq<State>, events: seq<Event>, k: nat)
    requires Run(states, events) && k < |events|
    ensures states[k + 1].effects == states[k].effects + NewEffects(states[k], events[k])
  {
    assert Follows(states, events, k);
    StepEffects(states[k], events[k]);
  }

  /** The `i`-th effect of a step. */
  lemma NewEffectAt(states: seq<State>, events: seq<Event>, k: nat, i: nat)
    requires Run(states, events) && k < |events| && |states[k].effects| + i < |states[k + 1].effects|
    ensures i < |NewEffects(states[k], events[k])|
    ensures NewEffects(states[k], events[k])[i] == states[k + 1].effects[|states[k].effects| + i]
  {
    EffectsNext(states, events, k);
  }

  lemma AllowNow(states: seq<State>, events: seq<Event>, k: nat, i: nat, key: string, slug: string)
    requires Run(states, events) && k < |events| && |states[k].effects| + i < |states[k + 1].effects|
    requires states[k + 1].effects[|states[k].effects| + i] == Allow(key, slug)
    ensures GrantsAccess(states[k], events[k], i, key, slug)
  {
    NewEffectAt(states, events, k, i);
    SafeRun(states, events, k);
    AllowStep(states[k], events[k], i, key, slug);
  }

  lemma SameEffect(states: seq<State>, events: seq<Event>, k: nat, n: nat)
    requires Run(states, events) && k < |events| && n < |states[k].effects|
    ensures n < |states[k + 1].effects| && states[k + 1].effects[n] == states[k].effects[n]
  {
    EffectsNext(states, events, k);
  }

  /** In every run, each time a key is allowed on a repository, the step that does it creates the mission
      with this key or is a trust message that marks a drone of the mission with it. */
  lemma {:induction false} AllowFollowsTrust(states: seq<State>, events: seq<Event>, k: nat, n: nat,
                                             key: string, slug: string)
    requires Run(states, events) && k < |states| && n < |states[k].effects|
    requires states[k].effects[n] == Allow(key, slug)
    ensures exists i :: 0 <= i < k && Emits(states, i, n)
                        && GrantsAccess(states[i], events[i], n - |states[i].effects|, key, slug)
  {
    if n < |states[k - 1].effects| {
      SameEffect(states, events, k - 1, n);
      AllowFollowsTrust(states, events, k - 1, n, key, slug);
    } else {
      AllowNow(states, events, k - 1, n - |states[k - 1].effects|, key, slug);
      assert Emits(states, k - 1, n);
    }
  }

  // ---------------------------------------------------------------- invitations

  lemma InviteStep(st: State, e: Event, slug: string, device: string)
    requires EntryOf(st, slug, device).Some? && EntryOf(st, slug, device).value.trusted
    ensures Send(device, JoinMission(slug)) !in NewEffects(st, e)
  {
  }

  lemma AnnouncedInVain(st: State, e: Event, slug: string)
    requires Safe(st) && Announces(st, e, slug) && !e.push.Delivered?
    ensures TrustedWith(Step(st, e), slug, e.device, e.key) && NewEffects(st, e) == []
  {
    StepMissions(st, e, slug);
    StepEntry(st, e, slug, e.device);
  }

  /** The trust message whose announcement reports an error leaves the drone trusted and uninvited:
      until it is dropped from the mission, no later message makes the handler invite it. */
  lemma {:induction false} NeverInvited(states: seq<State>, events: seq<Event>, i: nat, j: nat,
                                        slug: string, device: string)
    requires Run(states, events) && i < j < |states|
    requires Announces(states[i], events[i], slug) && events[i].device == device && !events[i].push.Delivered?
    requires forall m | i < m < j :: !Drops(states[m], events[m], slug, device)
    ensures TrustedWith(states[j], slug, device, events[i].key)
    ensures states[i].effects <= states[j].effects
    ensures Send(device, JoinMission(slug)) !in states[j].effects[|states[i].effects|..]
    decreases j
  {
    assert Follows(states, events, j - 1);
    StepEffects(states[j - 1], events[j - 1]);
    if j == i + 1 {
      SafeRun(states, events, i);
      AnnouncedInVain(states[i], events[i], slug);
    } else {
      NeverInvited(states, events, i, j - 1, slug, device);
      KeyStep(states[j - 1], events[j - 1], slug, device, events[i].key);
      InviteStep(states[j - 1], events[j - 1], slug, device);
    }
  }

  lemma EffectsGrowStep(states: seq<State>, events: seq<Event>, j: nat)
    requires Run(states, events) && j < |events|
    ensures states[j].effects <= states[j + 1].effects
  {
    EffectsNext(states, events, j);
  }

  lemma {:induction false} PrefixOfAll(states: seq<State>, i: nat, j: nat)
    requires i <= j < |states|
    requires forall m | i <= m < j :: states[m].effects <= states[m + 1].effects
    ensures states[i].effects <= states[j].effects
    decreases j
  {
    if i < j {
      PrefixOfAll(states, i, j - 1);
    }
  }

  lemma EffectsGrow(states: seq<State>, events: seq<Event>, i: nat, j: nat)
    requires Run(states, events) && i <= j < |states|
    ensures states[i].effects <= states[j].effects
  {
    forall m | i <= m < j ensures states[m].effects <= states[m + 1].effects {
      EffectsGrowStep(states, events, m);
    }
    PrefixOfAll(states, i, j);
  }

  /** In every run, the trust message that makes a drone trusted settles it: until the drone is dropped from
      the mission, it is invited if and only if the announcement was reported as published. */
  lemma InvitedIfDelivered(states: seq<State>, events: seq<Event>, i: nat, j: nat, slug: string, device: string)
    requires Run(states, events) && i < j < |states|
    requires Announces(states[i], events[i], slug) && events[i].device == device
    requires forall m | i < m < j :: !Drops(states[m], events[m], slug, device)
    ensures states[i].effects <= states[j].effects
    ensures Send(device, JoinMission(slug)) in states[j].effects[|states[i].effects|..]
            <==> events[i].push.Delivered?
  {
    assert Follows(states, events, i);
    EffectsGrow(states, events, i, j);
    if events[i].push.Delivered? {
      var n := |states[i].effects|;
      EffectsNext(states, events, i);
      EffectsGrow(states, events, i + 1, j);
      assert NewEffects(states[i], events[i])[1] == Send(device, JoinMission(slug));
      assert states[i + 1].effects[n + 1] == states[j].effects[n + 1] == states[j].effects[n..][1];
    } else {
      NeverInvited(states, events, i, j, slug, device);
    }
  }

  /** `effect` allows a key on the mission, and in a state up to `k` the drone is trusted with it. */
  ghost predicate AllowsTrusted(states: seq<State>, k: nat, effect: Effect, slug: string, device: string)
    requires k < |states|
  {
    effect.Allow? && effect.slug == slug && exists i :: 0 <= i <= k && TrustedWith(states[i], slug, device, effect.key)
  }

  lemma InviteLater(states: seq<State>, k: nat, effect: Effect, slug: string, device: string)
    requires 0 < k < |states| && AllowsTrusted(states, k - 1, effect, slug, device)
    ensures AllowsTrusted(states, k, effect, slug, device)
  {
  }

  lemma InviteIs(st: State, e: Event, i: nat, slug: string, device: string)
    requires Safe(st) && i < |NewEffects(st, e)| && NewEffects(st, e)[i] == Send(device, JoinMission(slug))
    ensures i == 1 && NewEffects(st, e)[0].Allow? && NewEffects(st, e)[0].slug == slug
    ensures TrustedWith(Step(st, e), slug, device, NewEffects(st, e)[0].key)
  {
    EffectSource(st, e, i);
    AnnouncedInFull(st, e, slug);
  }

  /** An invitation is the second effect of its step, after an `Allow`. */
  lemma InviteNow(states: seq<State>, events: seq<Event>, k: nat, i: nat, slug: string, device: string)
    requires Run(states, events) && k < |events| && |states[k].effects| + i < |states[k + 1].effects|
    requires states[k + 1].effects[|states[k].effects| + i] == Send(device, JoinMission(slug))
    ensures i == 1 && AllowsTrusted(states, k + 1, states[k + 1].effects[|states[k].effects|], slug, device)
  {
    SafeRun(states, events, k);
    NewEffectAt(states, events, k, i);
    InviteIs(states[k], events[k], i, slug, device);
    NewEffectAt(states, events, k, 0);
    TrustedNow(states, events, k, slug, device, NewEffects(states[k], events[k])[0].key);
  }

  lemma TrustedNow(states: seq<State>, events: seq<Event>, k: nat, slug: string, device: string, key: string)
    requires Run(states, events) && k < |events| && TrustedWith(Step(states[k], events[k]), slug, device, key)
    ensures TrustedWith(states[k + 1], slug, device, key)
  {
    assert Follows(states, events, k);
  }

  /** In every run, a drone is invited to a mission right after some key was allowed there, and by
      then the mission has held the drone as trusted with this key. */
  lemma {:induction false} InviteFollowsAllow(states: seq<State>, events: seq<Event>, k: nat, n: nat,
                                              slug: string, device: string)
    requires Run(states, events) && k < |states| && n < |states[k].effects|
    requires states[k].effects[n] == Send(device, JoinMission(slug))
    ensures n > 0 && AllowsTrusted(states, k, states[k].effects[n - 1], slug, device)
  {
    if n < |states[k - 1].effects| {
      SameEffect(states, events, k - 1, n);
      InviteFollowsAllow(states, events, k - 1, n, slug, device);
      SameEffect(states, events, k - 1, n - 1);
      InviteLater(states, k, states[k].effects[n - 1], slug, device);
    } else {
      InviteNow(states, events, k - 1, n - |states[k - 1].effects|, slug, device);
    }
  }
}
