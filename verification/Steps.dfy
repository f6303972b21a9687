/**
 What one step does to each part of the state, mission by mission: its drones,
 the first entry of a device, its outbox and its backlog, and the index.  The
 statements about runs go through these lemmas and not through the handlers.
 */
module Steps {
  import opened Options
  import opened Registry

  lemma {:induction false} FindFirst(ds: seq<Entry>, device: string)
    ensures forall j | 0 <= j < Find(ds, device) :: ds[j].device != device
  {
    if ds != [] && ds[0].device != device {
      FindFirst(ds[1..], device);
      forall j | 0 <= j < Find(ds, device) ensures ds[j].device != device {
        if j > 0 { assert ds[j] == ds[1..][j - 1]; }
      }
    }
  }

  /** The position is determined by being the first one. */
  lemma {:induction false} FindIs(ds: seq<Entry>, device: string, i: nat)
    requires i <= |ds|
    requires i < |ds| ==> ds[i].device == device
    requires forall j | 0 <= j < i :: ds[j].device != device
    ensures Find(ds, device) == i
  {
    if i > 0 {
      FindIs(ds[1..], device, i - 1);
    }
  }

  lemma LookupAppend(ds: seq<Entry>, e: Entry, device: string)
    ensures Lookup(ds + [e], device) ==
            if Lookup(ds, device).Some? then Lookup(ds, device)
            else if e.device == device then Some(e) else None
  {
    var i := Find(ds, device);
    FindFirst(ds, device);
    FindIs(ds + [e], device, if i < |ds| || e.device == device then i else i + 1);
  }

  lemma LookupPut(ds: seq<Entry>, e: Entry, device: string)
    requires Lookup(ds, e.device).Some?
    ensures Lookup(Put(ds, e), device) == if e.device == device then Some(e) else Lookup(ds, device)
  {
    FindFirst(ds, device);
    FindIs(Put(ds, e), device, Find(ds, device));
  }

  lemma {:induction false} LookupWithout(ds: seq<Entry>, gone: string, device: string)
    ensures Lookup(Without(ds, gone), device) == if device == gone then None else Lookup(ds, device)
  {
    if ds == [] {
    } else {
      var front, last := ds[..|ds| - 1], ds[|ds| - 1];
      LookupWithout(front, gone, device);
      assert ds == front + [last];
      LookupAppend(front, last, device);
      if last.device != gone {
        LookupAppend(Without(front, gone), last, device);
      } else {
        assert Without(ds, gone) == Without(front, gone);
      }
    }
  }

  function DronesOf(st: State, slug: string): seq<Entry> {
    if slug in st.missions then st.missions[slug].drones else []
  }

  function EntryOf(st: State, slug: string, device: string): Option<Entry> {
    Lookup(DronesOf(st, slug), device)
  }

  ghost predicate Removes(st: State, e: Event, slug: string, device: string) {
    e.RemoveDrone? && e.slug == slug && e.device == device && slug in st.missions && device in st.index
    && e.push.Delivered? && e.sent
  }

  /** The device was seen, and at most a minute before `now`, in nanoseconds. */
  ghost predicate SeenLately(st: State, device: string, now: int) {
    device in st.seen && now - st.seen[device] <= 60_000_000_000
  }

  ghost predicate Assigns(st: State, e: Event, slug: string, device: string) {
    e.AssignDrone? && e.slug == slug && e.device == device && slug in st.missions
    && SeenLately(st, device, e.now) && device !in st.index && e.sent
  }

  /** The trust message that turns the first entry of `device` in `slug` trusted. */
  ghost predicate Trusts(st: State, e: Event, slug: string, device: string) {
    e.TrustMessage? && e.device == device && device in st.index && st.index[device] == slug
    && EntryOf(st, slug, device).Some? && !EntryOf(st, slug, device).value.trusted
  }

  ghost predicate Confirms(e: Event, slug: string, device: string) {
    e.StateMessage? && e.device == device && e.found == slug && e.reported == slug
  }

  ghost predicate Fails(st: State, e: Event, slug: string, device: string) {
    e.StateMessage? && e.device == device && e.found == slug && e.reported == "" && slug != ""
    && EntryOf(st, slug, device).Some? && EntryOf(st, slug, device).value.status != Failed
  }

  ghost function NextEntry(st: State, e: Event, slug: string, device: string): Option<Entry> {
    var now := EntryOf(st, slug, device);
    match e
    case AssignDrone(_, _, _, _) =>
      if Assigns(st, e, slug, device) && now.None? then Some(Entry(false, device, "", "", NoStatus, 0)) else now
    case RemoveDrone(_, _, _, _) => if Removes(st, e, slug, device) then None else now
    case TrustMessage(_, key, _, _) =>
      if Trusts(st, e, slug, device) then
        Some(now.value.(trusted := true, key := key, ip := "127.0.0.1", status := Unknown))
      else now
    case StateMessage(_, _, _, at) =>
      if Confirms(e, slug, device) && now.Some? then Some(now.value.(status := Online, updatedAt := at))
      else if Fails(st, e, slug, device) then Some(now.value.(status := Failed))
      else now
    case _ => now
  }

  lemma LookupTrusted(ds: seq<Entry>, target: string, key: string, device: string)
    ensures Lookup(Trusted(ds, target, key), device) ==
            if device == target && Lookup(ds, device).Some? && !Lookup(ds, device).value.trusted
            then Some(TrustEntry(Lookup(ds, device).value, key)) else Lookup(ds, device)
  {
    var first := Lookup(ds, target);
    if first.Some? {
      LookupPut(ds, TrustEntry(first.value, key), device);
    }
  }

  lemma LookupReported(ds: seq<Entry>, target: string, reported: string, found: string, now: int, device: string)
    ensures Lookup(Reported(ds, target, reported, found, now), device) ==
            var first := Lookup(ds, device);
            if device != target || first.None? then first
            else if reported == found then Some(first.value.(status := Online, updatedAt := now))
            else if LosesState(ds, device, reported, found) then Some(first.value.(status := Failed))
            else first
  {
    var first := Lookup(ds, target);
    if first.Some? {
      LookupPut(ds, first.value.(status := Online, updatedAt := now), device);
      LookupPut(ds, first.value.(status := Failed), device);
    }
  }

  /** The drones of a surviving mission after a step, as a function on lists. */
  ghost function NextDrones(st: State, e: Event, slug: string): seq<Entry> {
    var ds := DronesOf(st, slug);
    match e
    case AssignDrone(s, device, _, _) => if Assigns(st, e, slug, device) then ds + [NewEntry(device)] else ds
    case RemoveDrone(s, device, _, _) => if Removes(st, e, slug, device) then Without(ds, device) else ds
    case TrustMessage(device, key, _, _) =>
      if device in st.index && st.index[device] == slug then Trusted(ds, device, key) else ds
    case StateMessage(device, reported, found, now) =>
      if found == slug then Reported(ds, device, reported, found, now) else ds
    case _ => ds
  }

  lemma AssignDrones(st: State, e: Event, slug: string)
    requires e.AssignDrone? && slug in st.missions
    ensures DronesOf(Step(st, e), slug) == NextDrones(st, e, slug)
  {
  }

  lemma RemoveDrones(st: State, e: Event, slug: string)
    requires e.RemoveDrone? && slug in st.missions
    ensures DronesOf(Step(st, e), slug) == NextDrones(st, e, slug)
  {
  }

  lemma TrustMissions(st: State, device: string, key: string, push: Push, sent: bool)
    ensures Trust(st, device, key, push, sent).missions ==
            if device !in st.index || st.index[device] !in st.missions then st.missions
            else
              var m := st.missions[st.index[device]];
              st.missions[st.index[device] := m.(drones := Trusted(m.drones, device, key))]
  {
  }

  lemma TrustDrones(st: State, e: Event, slug: string)
    requires e.TrustMessage? && slug in st.missions
    ensures DronesOf(Step(st, e), slug) == NextDrones(st, e, slug)
  {
    TrustMissions(st, e.device, e.key, e.push, e.sent);
  }

  lemma ReportDrones(st: State, e: Event, slug: string)
    requires e.StateMessage? && slug in st.missions
    ensures DronesOf(Step(st, e), slug) == NextDrones(st, e, slug)
  {
  }

  lemma StepDrones(st: State, e: Event, slug: string)
    requires slug in st.missions && slug in Step(st, e).missions
    ensures DronesOf(Step(st, e), slug) == NextDrones(st, e, slug)
  {
    match e {
      case AssignDrone(_, _, _, _) => AssignDrones(st, e, slug);
      case RemoveDrone(_, _, _, _) => RemoveDrones(st, e, slug);
      case TrustMessage(_, _, _, _) => TrustDrones(st, e, slug);
      case StateMessage(_, _, _, _) => ReportDrones(st, e, slug);
      case _ =>
    }
  }

  lemma NextRemoved(st: State, e: Event, slug: string, device: string)
    requires e.RemoveDrone? && slug in st.missions
    ensures Lookup(NextDrones(st, e, slug), device) == NextEntry(st, e, slug, device)
  {
    LookupWithout(DronesOf(st, slug), e.device, device);
  }

  lemma NextTrustEntry(st: State, e: Event, slug: string, device: string)
    requires e.TrustMessage? && slug in st.missions
    ensures Lookup(NextDrones(st, e, slug), device) == NextEntry(st, e, slug, device)
  {
    LookupTrusted(DronesOf(st, slug), e.device, e.key, device);
  }

  lemma NextReportedEntry(st: State, e: Event, slug: string, device: string)
    requires e.StateMessage? && slug in st.missions
    ensures Lookup(NextDrones(st, e, slug), device) == NextEntry(st, e, slug, device)
  {
    LookupReported(DronesOf(st, slug), e.device, e.reported, e.found, e.now, device);
  }

  lemma NextAssigned(st: State, e: Event, slug: string, device: string)
    requires e.AssignDrone? && slug in st.missions
    ensures Lookup(NextDrones(st, e, slug), device) == NextEntry(st, e, slug, device)
  {
    LookupAppend(DronesOf(st, slug), NewEntry(e.device), device);
  }

  lemma NextEntryOfDrones(st: State, e: Event, slug: string, device: string)
    requires slug in st.missions
    ensures Lookup(NextDrones(st, e, slug), device) == NextEntry(st, e, slug, device)
  {
    match e {
      case AssignDrone(_, _, _, _) => NextAssigned(st, e, slug, device);
      case RemoveDrone(_, _, _, _) => NextRemoved(st, e, slug, device);
      case TrustMessage(_, _, _, _) => NextTrustEntry(st, e, slug, device);
      case StateMessage(_, _, _, _) => NextReportedEntry(st, e, slug, device);
      case _ =>
    }
  }

  /** One step changes the first entry of a device in a surviving mission in exactly these ways. */
  lemma StepEntry(st: State, e: Event, slug: string, device: string)
    requires slug in st.missions && slug in Step(st, e).missions
    ensures EntryOf(Step(st, e), slug, device) == NextEntry(st, e, slug, device)
  {
    StepDrones(st, e, slug);
    NextEntryOfDrones(st, e, slug, device);
  }

  // ---------------------------------------------------------------- the other entries of the list

  /** Only the first entry for the device of `e` gives way to `e`. */
  lemma PutIs(ds: seq<Entry>, e: Entry, j: nat)
    requires j < |ds|
    ensures |Put(ds, e)| == |ds|
    ensures Put(ds, e)[j] == if ds[j].device == e.device && IsFirst(ds, j) then e else ds[j]
  {
    FindFirst(ds, e.device);
    if ds[j].device == e.device && IsFirst(ds, j) {
      FindIs(ds, e.device, j);
    }
  }

  ghost predicate IsFirst(ds: seq<Entry>, j: nat) {
    j < |ds| && forall i | 0 <= i < j :: ds[i].device != ds[j].device
  }

  /** Rebuilding a list goes through it entry by entry, in order, and leaves out those of the device. */
  lemma {:induction false} WithoutIs(a: seq<Entry>, e: Entry, b: seq<Entry>, device: string)
    ensures Without([], device) == []
    ensures Without([e], device) == if e.device == device then [] else [e]
    ensures Without(a + b, device) == Without(a, device) + Without(b, device)
  {
    assert [e][..0] == [];
    if b == [] {
      assert a + b == a;
    } else {
      var front, last := b[..|b| - 1], b[|b| - 1];
      assert (a + b)[..|a + b| - 1] == a + front;
      WithoutIs(a, e, front, device);
    }
  }

  /** In a mission that stays live the entry at a position only changes when it is the first for its device,
      and never the device; a removal aside, no entry goes and at most one comes, at the end. */
  lemma StepPositions(st: State, e: Event, slug: string, j: nat)
    requires slug in st.missions && slug in Step(st, e).missions && j < |DronesOf(st, slug)|
    requires !(e.RemoveDrone? && Removes(st, e, slug, e.device))
    ensures |DronesOf(Step(st, e), slug)| ==
            |DronesOf(st, slug)| + if e.AssignDrone? && Assigns(st, e, slug, e.device) then 1 else 0
    ensures DronesOf(Step(st, e), slug)[j].device == DronesOf(st, slug)[j].device
    ensures !IsFirst(DronesOf(st, slug), j) ==> DronesOf(Step(st, e), slug)[j] == DronesOf(st, slug)[j]
  {
    var ds := DronesOf(st, slug);
    StepDrones(st, e, slug);
    match e {
      case TrustMessage(x, key, _, _) =>
        if Lookup(ds, x).Some? { PutIs(ds, TrustEntry(Lookup(ds, x).value, key), j); }
      case StateMessage(x, _, _, now) =>
        if Lookup(ds, x).Some? {
          PutIs(ds, Lookup(ds, x).value.(status := Online, updatedAt := now), j);
          PutIs(ds, Lookup(ds, x).value.(status := Failed), j);
        }
      case _ =>
    }
  }

  // ---------------------------------------------------------------- names

  lemma CreateName(st: State, e: Event, slug: string)
    requires e.CreateMission? && slug in Step(st, e).missions
    ensures Step(st, e).missions[slug].name == if Creates(st, e, slug) then e.name else st.missions[slug].name
  {
  }

  lemma TrustName(st: State, e: Event, slug: string)
    requires e.TrustMessage? && slug in Step(st, e).missions && slug in st.missions
    ensures Step(st, e).missions[slug].name == st.missions[slug].name
  {
    TrustMissions(st, e.device, e.key, e.push, e.sent);
  }

  lemma OtherName(st: State, e: Event, slug: string)
    requires !e.CreateMission? && !e.TrustMessage? && slug in Step(st, e).missions && slug in st.missions
    ensures Step(st, e).missions[slug].name == st.missions[slug].name
  {
  }

  /** A mission has the name it was created with. */
  lemma StepName(st: State, e: Event, slug: string)
    requires slug in Step(st, e).missions
    ensures Creates(st, e, slug) || slug in st.missions
    ensures Step(st, e).missions[slug].name == if Creates(st, e, slug) then e.name else st.missions[slug].name
  {
    StepMissions(st, e, slug);
    if e.CreateMission? {
      CreateName(st, e, slug);
    } else if e.TrustMessage? {
      TrustName(st, e, slug);
    } else {
      OtherName(st, e, slug);
    }
  }

  // ---------------------------------------------------------------- index, outbox, backlog

  /** Removal gets as far as publishing `drone-removed`. */
  ghost predicate Unlists(st: State, e: Event, slug: string) {
    e.RemoveDrone? && e.slug == slug && slug in st.missions && e.device in st.index
  }

  /** The trust handler gets as far as publishing `drone-added`. */
  ghost predicate Announces(st: State, e: Event, slug: string) {
    e.TrustMessage? && e.device in st.index && st.index[e.device] == slug && slug in st.missions
    && !IsTrusted(st.missions[slug].drones, e.device)
  }

  ghost predicate Tasks(st: State, e: Event, slug: string) {
    e.AddTask? && e.slug == slug && slug in st.missions
  }

  /** What a step writes to the outbox of a mission. */
  ghost function NewLine(st: State, e: Event, slug: string): Option<Message> {
    if Unlists(st, e, slug) && !e.push.Lost? then Some(DroneRemoved(e.device))
    else if Announces(st, e, slug) && !e.push.Lost? then Some(DroneAdded(e.device))
    else if Tasks(st, e, slug) && !e.push.Lost? then Some(TaskCreated(e.task))
    else None
  }

  ghost function NextLog(st: State, e: Event, slug: string): seq<Message> {
    match NewLine(st, e, slug)
    case None => Outbox(st, slug)
    case Some(msg) => Outbox(st, slug) + [msg]
  }

  function RepoOf(st: State, slug: string): Option<seq<Message>> {
    if slug in st.repos then Some(st.repos[slug]) else None
  }

  /** The repository of a mission, which a creation or a deletion may make or take away, and its outbox. */
  ghost function NextRepo(st: State, e: Event, slug: string): Option<seq<Message>> {
    if e.CreateMission? && e.slug == slug && slug != "" && e.made == slug && slug !in st.missions && e.repoMade then
      if !e.configured && e.cleaned then None
      else if e.survives && slug in st.repos then Some(st.repos[slug])
      else Some([])
    else if Deletes(st, e, slug) && e.repoDeleted then None
    else if NewLine(st, e, slug).Some? then Some(Outbox(st, slug) + [NewLine(st, e, slug).value])
    else RepoOf(st, slug)
  }

  lemma CreateRepo(st: State, e: Event, slug: string)
    requires e.CreateMission?
    ensures RepoOf(Step(st, e), slug) == NextRepo(st, e, slug)
  {
  }

  lemma RemoveRepo(st: State, e: Event, slug: string)
    requires e.RemoveDrone?
    ensures RepoOf(Step(st, e), slug) == NextRepo(st, e, slug)
  {
  }

  lemma TrustRepo(st: State, e: Event, slug: string)
    requires e.TrustMessage?
    ensures RepoOf(Step(st, e), slug) == NextRepo(st, e, slug)
  {
  }

  lemma TaskRepo(st: State, e: Event, slug: string)
    requires e.AddTask?
    ensures RepoOf(Step(st, e), slug) == NextRepo(st, e, slug)
  {
  }

  lemma OtherRepo(st: State, e: Event, slug: string)
    requires !e.CreateMission? && !e.RemoveDrone? && !e.TrustMessage? && !e.AddTask?
    ensures RepoOf(Step(st, e), slug) == NextRepo(st, e, slug)
  {
  }

  /** One step makes, empties, takes away or extends a repository in exactly these ways. */
  lemma StepRepo(st: State, e: Event, slug: string)
    ensures RepoOf(Step(st, e), slug) == NextRepo(st, e, slug)
  {
    match e {
      case CreateMission(_, _, _, _, _, _, _, _) => CreateRepo(st, e, slug);
      case RemoveDrone(_, _, _, _) => RemoveRepo(st, e, slug);
      case TrustMessage(_, _, _, _) => TrustRepo(st, e, slug);
      case AddTask(_, _, _) => TaskRepo(st, e, slug);
      case _ => OtherRepo(st, e, slug);
    }
  }

  /** One step adds at most one line to an outbox, or the outbox is emptied with its repository. */
  lemma OutboxStep(st: State, e: Event, slug: string)
    ensures Outbox(Step(st, e), slug) == if Outbox(Step(st, e), slug) == [] then [] else NextLog(st, e, slug)
    ensures NewLine(st, e, slug).Some? ==> Outbox(Step(st, e), slug) == NextLog(st, e, slug)
  {
    StepRepo(st, e, slug);
    OutboxOfRepo(st, slug);
    OutboxOfRepo(Step(st, e), slug);
  }

  lemma OutboxOfRepo(st: State, slug: string)
    ensures Outbox(st, slug) == if RepoOf(st, slug).Some? then RepoOf(st, slug).value else []
  {
  }

  lemma StepLog(st: State, e: Event, slug: string)
    requires slug in st.missions && slug in Step(st, e).missions
    ensures Outbox(Step(st, e), slug) == NextLog(st, e, slug)
    ensures slug in st.repos ==> slug in Step(st, e).repos
  {
    StepRepo(st, e, slug);
    StepMissions(st, e, slug);
    OutboxOfRepo(st, slug);
    OutboxOfRepo(Step(st, e), slug);
  }

  ghost function NextItems(st: State, e: Event, slug: string): seq<Item> {
    var items := ItemsOf(st, slug);
    match e
    case AddTask(_, task, push) =>
      if Tasks(st, e, slug) && push.Delivered? then
        items + [Item(task.id, task.kind, "in-progress", task.payload)]
      else items
    case PlanMessage(_, plan, found) => if found == slug && slug != "" then Merge(items, plan) else items
    case _ => items
  }

  lemma TaskItems(st: State, e: Event, slug: string)
    requires e.AddTask? && slug in st.missions && slug in st.backlog
    ensures slug in Step(st, e).backlog && Step(st, e).backlog[slug] == NextItems(st, e, slug)
  {
  }

  lemma PlanItems(st: State, e: Event, slug: string)
    requires e.PlanMessage? && slug in st.missions && slug in st.backlog
    ensures slug in Step(st, e).backlog && Step(st, e).backlog[slug] == NextItems(st, e, slug)
  {
  }

  lemma OtherItems(st: State, e: Event, slug: string)
    requires !e.AddTask? && !e.PlanMessage? && slug in st.missions && slug in st.backlog
    ensures slug in Step(st, e).backlog && Step(st, e).backlog[slug] == NextItems(st, e, slug)
  {
  }

  lemma StepItems(st: State, e: Event, slug: string)
    requires slug in st.missions && slug in Step(st, e).missions && slug in st.backlog
    ensures slug in Step(st, e).backlog && Step(st, e).backlog[slug] == NextItems(st, e, slug)
  {
    match e {
      case AddTask(_, _, _) => TaskItems(st, e, slug);
      case PlanMessage(_, _, _) => PlanItems(st, e, slug);
      case _ => OtherItems(st, e, slug);
    }
  }

  ghost predicate Creates(st: State, e: Event, slug: string) {
    e.CreateMission? && e.slug == slug && slug != "" && e.made == slug && slug !in st.missions
    && e.repoMade && e.configured
  }

  ghost predicate Deletes(st: State, e: Event, slug: string) {
    e.DeleteMission? && e.slug == slug && slug in st.missions
  }

  /** The first entry of `device` in `slug` goes away. */
  ghost predicate Drops(st: State, e: Event, slug: string, device: string) {
    Removes(st, e, slug, device) || Deletes(st, e, slug)
  }

  lemma CreateMissions(st: State, e: Event, slug: string)
    requires e.CreateMission?
    ensures slug in Step(st, e).missions <==> slug in st.missions || Creates(st, e, slug)
    ensures Creates(st, e, slug) ==>
              && DronesOf(Step(st, e), slug) == []
              && slug in Step(st, e).repos
              && Step(st, e).repos[slug] == (if e.survives then Outbox(st, slug) else [])
              && slug in Step(st, e).backlog && Step(st, e).backlog[slug] == []
  {
  }

  lemma RequestKeepsMissions(st: State, e: Event, slug: string)
    requires e.DeleteMission? || e.AssignDrone? || e.RemoveDrone? || e.AddTask?
    ensures slug in Step(st, e).missions <==> slug in st.missions && !Deletes(st, e, slug)
  {
  }

  lemma TrustKeepsMissions(st: State, e: Event, slug: string)
    requires e.TrustMessage?
    ensures slug in Step(st, e).missions <==> slug in st.missions
  {
    TrustMissions(st, e.device, e.key, e.push, e.sent);
  }

  lemma MessageKeepsMissions(st: State, e: Event, slug: string)
    requires e.DeviceSeen? || e.PlanMessage? || e.StateMessage?
    ensures slug in Step(st, e).missions <==> slug in st.missions
  {
  }

  /** A mission is live after a step when it was and is not deleted, or is created: then it has neither
      drones nor backlog. */
  lemma StepMissions(st: State, e: Event, slug: string)
    ensures slug in Step(st, e).missions <==> Creates(st, e, slug) || (slug in st.missions && !Deletes(st, e, slug))
    ensures Creates(st, e, slug) ==>
              && DronesOf(Step(st, e), slug) == []
              && slug in Step(st, e).repos
              && Step(st, e).repos[slug] == (if e.survives then Outbox(st, slug) else [])
              && slug in Step(st, e).backlog && Step(st, e).backlog[slug] == []
  {
    if e.CreateMission? {
      CreateMissions(st, e, slug);
    } else if e.DeleteMission? || e.AssignDrone? || e.RemoveDrone? || e.AddTask? {
      RequestKeepsMissions(st, e, slug);
    } else if e.TrustMessage? {
      TrustKeepsMissions(st, e, slug);
    } else {
      MessageKeepsMissions(st, e, slug);
    }
  }

  ghost function NextIndex(st: State, e: Event, device: string): Option<string> {
    var now := if device in st.index then Some(st.index[device]) else None;
    match e
    case DeleteMission(slug, _) =>
      if slug in st.missions && device in Devices(st.missions[slug].drones) then None else now
    case AssignDrone(slug, _, _, _) => if Assigns(st, e, slug, device) then Some(slug) else now
    case RemoveDrone(slug, _, _, _) => if Removes(st, e, slug, device) then None else now
    case _ => now
  }

  ghost function IndexOf(st: State, device: string): Option<string> {
    if device in st.index then Some(st.index[device]) else None
  }

  lemma StepIndex(st: State, e: Event, device: string)
    ensures IndexOf(Step(st, e), device) == NextIndex(st, e, device)
  {
  }
}
