/**
 The reverse index against the scan over all missions.  They agree exactly as long
 as every completed removal names the mission the device is in.
 */
module IndexScan {
  import opened Options
  import opened Registry
  import opened Steps
  import opened Safety

  ghost predicate NoDuplicates(ds: seq<Entry>) {
    forall i, j | 0 <= i < j < |ds| :: ds[i].device != ds[j].device
  }

  /** What is listed in a mission is indexed to that mission. */
  ghost predicate ListedIsIndexed(st: State) {
    forall slug, device | slug in st.missions && EntryOf(st, slug, device).Some? ::
      device in st.index && st.index[device] == slug
  }

  ghost predicate Exact(st: State) {
    ListedIsIndexed(st) && forall slug | slug in st.missions :: NoDuplicates(DronesOf(st, slug))
  }

  /** A removal that goes through although the index names another mission. */
  ghost predicate WrongRemoval(st: State, e: Event) {
    e.RemoveDrone? && Removes(st, e, e.slug, e.device) && st.index[e.device] != e.slug
  }

  function IndexOrEmpty(st: State, device: string): string {
    if device in st.index then st.index[device] else ""
  }

  // ---------------------------------------------------------------- the scan

  /** In a safe state every scan for every device answers with the index, in whatever order
      the missions are walked, if and only if everything listed is indexed to its mission. */
  lemma ScanIsIndex(st: State)
    requires Safe(st)
    ensures (forall device, found | Scan(st, device, found) :: found == IndexOrEmpty(st, device))
            <==> ListedIsIndexed(st)
  {
    if ListedIsIndexed(st) {
      forall device, found | Scan(st, device, found) ensures found == IndexOrEmpty(st, device) {
        if found != "" {
          assert EntryOf(st, found, device).Some?;
        }
      }
    }
    if forall device, found | Scan(st, device, found) :: found == IndexOrEmpty(st, device) {
      forall slug, device | slug in st.missions && EntryOf(st, slug, device).Some?
        ensures device in st.index && st.index[device] == slug
      {
        assert Scan(st, device, slug);
      }
    }
  }

  // ---------------------------------------------------------------- one step

  lemma DeviceListed(ds: seq<Entry>, device: string)
    requires device in Devices(ds)
    ensures Lookup(ds, device).Some?
  {
    FindFirst(ds, device);
  }

  lemma NextListed(st: State, e: Event, slug: string, device: string)
    requires ListedIsIndexed(st) && !WrongRemoval(st, e)
    requires slug in st.missions && !Deletes(st, e, slug) && NextEntry(st, e, slug, device).Some?
    ensures NextIndex(st, e, device) == Some(slug)
  {
    if e.DeleteMission? && e.slug in st.missions && device in Devices(st.missions[e.slug].drones) {
      DeviceListed(DronesOf(st, e.slug), device);
    }
  }

  lemma {:induction false} WithoutNoDuplicates(ds: seq<Entry>, device: string)
    requires NoDuplicates(ds)
    ensures NoDuplicates(Without(ds, device))
  {
    if ds != [] {
      var front, last := ds[..|ds| - 1], ds[|ds| - 1];
      WithoutNoDuplicates(front, device);
      var kept := Without(front, device);
      forall i | 0 <= i < |kept| ensures kept[i].device != last.device {
        WithoutMembers(front, device);
        assert kept[i] in front;
        var k :| 0 <= k < |front| && front[k] == kept[i];
        assert ds[k] == front[k];
      }
    }
  }

  lemma NextNoDuplicates(st: State, e: Event, slug: string)
    requires ListedIsIndexed(st) && slug in st.missions && NoDuplicates(DronesOf(st, slug))
    ensures NoDuplicates(NextDrones(st, e, slug))
  {
    var ds := DronesOf(st, slug);
    match e {
      case AssignDrone(_, device, _, _) =>
        if Assigns(st, e, slug, device) {
          assert EntryOf(st, slug, device).None?;
          FindFirst(ds, device);
        }
      case RemoveDrone(_, device, _, _) => WithoutNoDuplicates(ds, device);
      case _ =>
    }
  }

  lemma ExactKept(st: State, e: Event)
    requires Exact(st) && !WrongRemoval(st, e)
    ensures Exact(Step(st, e))
  {
    var st' := Step(st, e);
    forall slug | slug in st'.missions ensures NoDuplicates(DronesOf(st', slug)) {
      StepMissions(st, e, slug);
      if slug in st.missions {
        StepDrones(st, e, slug);
        NextNoDuplicates(st, e, slug);
      }
    }
    forall slug, device | slug in st'.missions && EntryOf(st', slug, device).Some?
      ensures device in st'.index && st'.index[device] == slug
    {
      StepMissions(st, e, slug);
      StepEntry(st, e, slug, device);
      NextListed(st, e, slug, device);
      StepIndex(st, e, device);
    }
  }

  lemma ExactBroken(st: State, e: Event)
    requires Safe(st) && WrongRemoval(st, e)
    ensures !ListedIsIndexed(Step(st, e))
  {
    var home := st.index[e.device];
    StepMissions(st, e, home);
    StepEntry(st, e, home, e.device);
    StepIndex(st, e, e.device);
    assert EntryOf(Step(st, e), home, e.device).Some?;
  }

  // ---------------------------------------------------------------- runs

  lemma {:induction false} ExactUntil(states: seq<State>, events: seq<Event>, k: nat)
    requires Run(states, events) && k < |states|
    requires forall i | 0 <= i < k :: !WrongRemoval(states[i], events[i])
    ensures Exact(states[k])
  {
    if k > 0 {
      assert Follows(states, events, k - 1);
      ExactUntil(states, events, k - 1);
      ExactKept(states[k - 1], events[k - 1]);
    }
  }

  /** In a run, every device is listed once and where the index says, throughout, if and only if
      no removal goes through under the name of another mission. */
  lemma ExactThroughout(states: seq<State>, events: seq<Event>)
    requires Run(states, events)
    ensures (forall k | 0 <= k < |states| :: Exact(states[k]))
            <==> (forall i | 0 <= i < |events| :: !WrongRemoval(states[i], events[i]))
  {
    if forall i | 0 <= i < |events| :: !WrongRemoval(states[i], events[i]) {
      forall k | 0 <= k < |states| ensures Exact(states[k]) {
        ExactUntil(states, events, k);
      }
    }
    if i :| 0 <= i < |events| && WrongRemoval(states[i], events[i]) {
      assert Follows(states, events, i);
      SafeRun(states, events, i);
      ExactBroken(states[i], events[i]);
      assert !Exact(states[i + 1]);
    }
  }

  /** Without such a removal, resolving a device gives the mission of the index, or "" for none. */
  lemma ResolveIsIndex(states: seq<State>, events: seq<Event>, k: nat, device: string, found: string)
    requires Run(states, events) && k < |states|
    requires forall i | 0 <= i < k :: !WrongRemoval(states[i], events[i])
    requires Scan(states[k], device, found)
    ensures found == IndexOrEmpty(states[k], device)
    ensures found == "" <==> device !in states[k].index
  {
    SafeRun(states, events, k);
    ExactUntil(states, events, k);
    ScanIsIndex(states[k]);
  }

  // ---------------------------------------------------------------- the condition is needed

  function Made(slug: string): Event {
    CreateMission(slug, slug, "", [], true, false, true, true)
  }

  lemma FirstAssignment(st: State, slug: string, device: string)
    requires slug in st.missions && st.missions[slug] == Mission("", [])
    requires device !in st.index && device in st.seen && st.seen[device] == 0
    ensures var st' := Step(st, AssignDrone(slug, device, 0, true));
            && st'.missions == st.missions[slug := Mission("", [NewEntry(device)])]
            && st'.index == st.index[device := slug] && st'.seen == st.seen
  {
    assert [] + [NewEntry(device)] == [NewEntry(device)];
  }

  lemma EmptyMission(st: State, slug: string)
    requires slug != "" && slug !in st.missions
    ensures var st' := Step(st, Made(slug));
            && st'.missions == st.missions[slug := Mission("", [])]
            && st'.index == st.index && st'.seen == st.seen
  {
  }

  lemma ForeignRemoval(st: State, slug: string, device: string)
    requires slug in st.missions && st.missions[slug] == Mission("", []) && device in st.index
    ensures var st' := Step(st, RemoveDrone(slug, device, Delivered, true));
            st'.missions == st.missions && st'.index == st.index - {device} && st'.seen == st.seen
  {
  }

  /** For any two missions and any device: assign to `a`, remove under the name of `b`, assign to
      `b`.  The device is then in both lists and a scan may answer either mission. */
  lemma WrongRemovalRun(a: string, b: string, device: string) returns (states: seq<State>, events: seq<Event>)
    requires a != b && a != "" && b != ""
    ensures Run(states, events) && |events| == 6
    ensures forall i | 0 <= i < 6 :: WrongRemoval(states[i], events[i]) <==> i == 4
    ensures Scan(states[6], device, a) && Scan(states[6], device, b)
    ensures states[6].index == map[device := b]
  {
    events := [Made(a), Made(b), DeviceSeen(device, 0), AssignDrone(a, device, 0, true),
               RemoveDrone(b, device, Delivered, true), AssignDrone(b, device, 0, true)];
    var s1 := Step(INITIAL, events[0]);
    EmptyMission(INITIAL, a);
    var s2 := Step(s1, events[1]);
    EmptyMission(s1, b);
    var s3 := Step(s2, events[2]);
    var s4 := Step(s3, events[3]);
    FirstAssignment(s3, a, device);
    var s5 := Step(s4, events[4]);
    ForeignRemoval(s4, b, device);
    var s6 := Step(s5, events[5]);
    FirstAssignment(s5, b, device);
    states := [INITIAL, s1, s2, s3, s4, s5, s6];
  }
}
