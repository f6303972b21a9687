/**
 What holds in every state of every run, whatever fails and whatever a removal names:
 the index names live missions that list the device, every live mission is stored in
 all maps, and a trusted entry is the first one for its device.
 */
module Safety {
  import opened Options
  import opened Registry
  import opened Steps

  /** A trusted entry is the first one for its device. */
  ghost predicate TrustedFirst(ds: seq<Entry>) {
    forall i, j | 0 <= i < j < |ds| && ds[j].trusted :: ds[i].device != ds[j].device
  }

  ghost predicate NeverOffline(ds: seq<Entry>) {
    forall i | 0 <= i < |ds| :: ds[i].status != Offline
  }

  ghost predicate IndexSound(st: State) {
    forall device | device in st.index ::
      st.index[device] in st.missions && EntryOf(st, st.index[device], device).Some?
  }

  ghost predicate Stored(st: State) {
    forall slug | slug in st.missions :: slug != "" && slug in st.repos && slug in st.backlog
  }

  ghost predicate Safe(st: State) {
    && Stored(st)
    && IndexSound(st)
    && forall slug | slug in st.missions :: TrustedFirst(DronesOf(st, slug)) && NeverOffline(DronesOf(st, slug))
  }

  // ---------------------------------------------------------------- lists

  lemma {:induction false} WithoutMembers(ds: seq<Entry>, device: string)
    ensures forall e :: e in Without(ds, device) <==> e in ds && e.device != device
  {
    if ds != [] {
      var front, last := ds[..|ds| - 1], ds[|ds| - 1];
      WithoutMembers(front, device);
      assert ds == front + [last];
    }
  }

  lemma WithoutNeverOffline(ds: seq<Entry>, device: string)
    requires NeverOffline(ds)
    ensures NeverOffline(Without(ds, device))
  {
    WithoutMembers(ds, device);
    var kept := Without(ds, device);
    forall i | 0 <= i < |kept| ensures kept[i].status != Offline {
      assert kept[i] in kept;
    }
  }

  lemma {:induction false} WithoutTrustedFirst(ds: seq<Entry>, device: string)
    requires TrustedFirst(ds)
    ensures TrustedFirst(Without(ds, device))
  {
    if ds != [] {
      var front, last := ds[..|ds| - 1], ds[|ds| - 1];
      WithoutTrustedFirst(front, device);
      var kept := Without(front, device);
      forall i | 0 <= i < |kept| && last.trusted ensures kept[i].device != last.device {
        WithoutMembers(front, device);
        assert kept[i] in front;
        var k :| 0 <= k < |front| && front[k] == kept[i];
        assert ds[k] == front[k];
      }
    }
  }

  lemma PutKeeps(ds: seq<Entry>, e: Entry)
    requires TrustedFirst(ds) && NeverOffline(ds) && e.status != Offline
    requires Lookup(ds, e.device).Some?
    ensures TrustedFirst(Put(ds, e)) && NeverOffline(Put(ds, e))
  {
    FindFirst(ds, e.device);
  }

  lemma ListSafe(st: State, e: Event, slug: string)
    requires slug in st.missions
    requires TrustedFirst(DronesOf(st, slug)) && NeverOffline(DronesOf(st, slug))
    ensures TrustedFirst(NextDrones(st, e, slug)) && NeverOffline(NextDrones(st, e, slug))
  {
    var ds := DronesOf(st, slug);
    match e {
      case RemoveDrone(_, device, _, _) =>
        WithoutTrustedFirst(ds, device);
        WithoutNeverOffline(ds, device);
      case TrustMessage(device, key, _, _) =>
        var first := Lookup(ds, device);
        if first.Some? { PutKeeps(ds, TrustEntry(first.value, key)); }
      case StateMessage(device, _, _, now) =>
        var first := Lookup(ds, device);
        if first.Some? {
          PutKeeps(ds, first.value.(status := Online, updatedAt := now));
          PutKeeps(ds, first.value.(status := Failed));
        }
      case _ =>
    }
  }

  // ---------------------------------------------------------------- one step

  lemma IndexedEntry(st: State, e: Event, device: string)
    requires IndexSound(st) && NextIndex(st, e, device).Some?
    ensures var slug := NextIndex(st, e, device).value;
            slug in st.missions && !Deletes(st, e, slug) && NextEntry(st, e, slug, device).Some?
  {
  }

  lemma IndexStep(st: State, e: Event, device: string)
    requires IndexSound(st) && device in Step(st, e).index
    ensures var slug := Step(st, e).index[device];
            slug in Step(st, e).missions && EntryOf(Step(st, e), slug, device).Some?
  {
    StepIndex(st, e, device);
    IndexedEntry(st, e, device);
    var slug := NextIndex(st, e, device).value;
    StepMissions(st, e, slug);
    StepEntry(st, e, slug, device);
  }

  lemma StoredStep(st: State, e: Event, slug: string)
    requires Stored(st) && slug in Step(st, e).missions
    ensures slug != "" && slug in Step(st, e).repos && slug in Step(st, e).backlog
  {
    StepMissions(st, e, slug);
    if slug in st.missions {
      StepLog(st, e, slug);
      StepItems(st, e, slug);
    }
  }

  /** Every step of every handler, failing or not, keeps the registry safe. */
  lemma SafeStep(st: State, e: Event)
    requires Safe(st)
    ensures Safe(Step(st, e))
  {
    forall slug | slug in Step(st, e).missions
      ensures slug != "" && slug in Step(st, e).repos && slug in Step(st, e).backlog
    {
      StoredStep(st, e, slug);
    }
    forall slug | slug in Step(st, e).missions
      ensures TrustedFirst(DronesOf(Step(st, e), slug)) && NeverOffline(DronesOf(Step(st, e), slug))
    {
      StepMissions(st, e, slug);
      if slug in st.missions {
        StepDrones(st, e, slug);
        ListSafe(st, e, slug);
      }
    }
    forall device | device in Step(st, e).index
      ensures Step(st, e).index[device] in Step(st, e).missions
      ensures EntryOf(Step(st, e), Step(st, e).index[device], device).Some?
    {
      IndexStep(st, e, device);
    }
  }

  // ---------------------------------------------------------------- runs

  lemma {:induction false} SafeRun(states: seq<State>, events: seq<Event>, k: nat)
    requires Run(states, events) && k < |states|
    ensures Safe(states[k])
  {
    if k > 0 {
      assert Follows(states, events, k - 1);
      SafeRun(states, events, k - 1);
      SafeStep(states[k - 1], events[k - 1]);
    }
  }

  lemma LiveNext(states: seq<State>, events: seq<Event>, k: nat, slug: string)
    requires Run(states, events) && k < |events| && slug in states[k].missions && !Deletes(states[k], events[k], slug)
    ensures slug in states[k + 1].missions
  {
    assert Follows(states, events, k);
    StepMissions(states[k], events[k], slug);
  }

  lemma {:induction false} StaysLive(states: seq<State>, events: seq<Event>, i: nat, k: nat, slug: string)
    requires Run(states, events) && i <= k < |states| && slug in states[i].missions
    requires forall m | i <= m < k :: !Deletes(states[m], events[m], slug)
    ensures slug in states[k].missions
    decreases k
  {
    if i < k {
      StaysLive(states, events, i, k - 1, slug);
      LiveNext(states, events, k - 1, slug);
    }
  }

  /** The message at `i` is the last one from the device among the first `k` events. */
  ghost predicate LastSeen(events: seq<Event>, i: nat, k: nat, device: string)
    requires i < k <= |events|
  {
    && events[i].DeviceSeen? && events[i].device == device
    && forall j | i < j < k && events[j].DeviceSeen? :: events[j].device != device
  }

  lemma SeenStep(st: State, e: Event, device: string)
    ensures e.DeviceSeen? && e.device == device ==>
              device in Step(st, e).seen && Step(st, e).seen[device] == e.now
    ensures !(e.DeviceSeen? && e.device == device) ==>
              && (device in Step(st, e).seen <==> device in st.seen)
              && (device in st.seen ==> Step(st, e).seen[device] == st.seen[device])
  {
  }

  /** In every run the table of devices seen holds, for each device, the time of the last message
      handled from it. */
  lemma {:induction false} SeenIsLastMessage(states: seq<State>, events: seq<Event>, k: nat, device: string)
    requires Run(states, events) && k < |states|
    ensures device in states[k].seen ==>
              exists i :: 0 <= i < k && LastSeen(events, i, k, device) && states[k].seen[device] == events[i].now
    ensures device !in states[k].seen ==> forall i | 0 <= i < k && events[i].DeviceSeen? :: events[i].device != device
  {
    if k > 0 {
      assert Follows(states, events, k - 1);
      SeenIsLastMessage(states, events, k - 1, device);
      SeenStep(states[k - 1], events[k - 1], device);
      if events[k - 1].DeviceSeen? && events[k - 1].device == device {
        assert LastSeen(events, k - 1, k, device);
      } else if device in states[k].seen {
        var i :| 0 <= i < k - 1 && LastSeen(events, i, k - 1, device) && states[k - 1].seen[device] == events[i].now;
        assert LastSeen(events, i, k, device);
      }
    }
  }

  /** In every run an assignment is carried out if and only if the mission is live, the drone is in none, the command
      is sent, and the last message handled from the drone is at most a minute old. */
  lemma AssignedIffSeen(states: seq<State>, events: seq<Event>, k: nat, slug: string, device: string)
    requires Run(states, events) && k < |events|
    ensures Assigns(states[k], events[k], slug, device) <==>
            && events[k].AssignDrone? && events[k].slug == slug && events[k].device == device && events[k].sent
            && slug in states[k].missions && device !in states[k].index
            && exists i :: 0 <= i < k && LastSeen(events, i, k, device) && events[k].now - events[i].now <= 60_000_000_000
  {
    SeenIsLastMessage(states, events, k, device);
    if i :| 0 <= i < k && LastSeen(events, i, k, device) {
      OneLastSeen(states, events, k, device, i);
    }
  }

  lemma OneLastSeen(states: seq<State>, events: seq<Event>, k: nat, device: string, i: nat)
    requires Run(states, events) && k < |events| && i < k && LastSeen(events, i, k, device)
    ensures device in states[k].seen && states[k].seen[device] == events[i].now
  {
    SeenIsLastMessage(states, events, k, device);
    if device in states[k].seen {
      var j :| 0 <= j < k && LastSeen(events, j, k, device) && states[k].seen[device] == events[j].now;
      assert i == j;
    }
  }

  /** In every run a trust message about an indexed device finds a live mission and an entry in it. */
  lemma TrustFindsEntry(states: seq<State>, events: seq<Event>, k: nat, device: string)
    requires Run(states, events) && k < |states| && device in states[k].index
    ensures states[k].index[device] in states[k].missions
    ensures exists e :: e in states[k].missions[states[k].index[device]].drones && e.device == device
  {
    SafeRun(states, events, k);
    var ds := DronesOf(states[k], states[k].index[device]);
    assert EntryOf(states[k], states[k].index[device], device).Some?;
    assert ds[Find(ds, device)] in ds;
  }

  /** `offline` is never stored: in every run a reader is shown the stored status of each drone, unless it is online
      and older than a minute. */
  lemma OfflineIsDerived(states: seq<State>, events: seq<Event>, k: nat, slug: string, i: nat, now: int)
    requires Run(states, events) && k < |states| && slug in states[k].missions
    requires i < |states[k].missions[slug].drones|
    ensures var e := states[k].missions[slug].drones[i];
            && e.status != Offline
            && ShownStatus(e, now) == if e.status == Online && now - e.updatedAt > 60_000_000_000 then Offline else e.status
  {
    SafeRun(states, events, k);
    assert NeverOffline(DronesOf(states[k], slug));
  }
}
