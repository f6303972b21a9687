/**
 The mission-control registry as a value and every handler as a function on it.

 A `State` holds the four maps of the process, the outboxes of the git
 repositories and the log of outside effects.  What the outside world answers
 (git, MQTT, the clock, the iteration order of a Go map) is an argument of the
 handler.  One handler call is one atomic step.
 */
module Registry {
  import opened Options

  const MINUTE: int := 60_000_000_000  // nanoseconds

  datatype Status = NoStatus | Unknown | Online | Offline | Failed

  datatype Entry = Entry(trusted: bool, device: string, key: string, ip: string,
                         status: Status, updatedAt: int)

  datatype Mission = Mission(name: string, drones: seq<Entry>)

  datatype Item = Item(id: string, kind: string, status: string, payload: string)

  datatype Task = Task(id: string, kind: string, priority: int, payload: string)

  datatype PlanEntry = PlanEntry(id: string, assignedTo: string, status: string)

  /** A line of a mission's outbox. */
  datatype Message = DroneAdded(device: string) | DroneRemoved(device: string) | TaskCreated(task: Task)

  /** How publishing a git message ends.  `DeliveredWithError`: the push landed but
      a later command (removing the clone) failed, so the caller sees an error. */
  datatype Push = Delivered | DeliveredWithError | Lost

  datatype Command = InitializeTrust | LeaveMission | UpdateBacklog | JoinMission(slug: string)

  datatype WebsocketEvent =
    | MissionCreated(slug: string, name: string)
    | MissionRemoved(slug: string)
    | DroneAssigned(slug: string, device: string)
    | DroneLeft(slug: string, device: string)
    | ItemAdded(slug: string, task: Task)
    | DroneGotTrusted(slug: string, device: string)
    | PlanReceived(slug: string, plan: seq<PlanEntry>)
    | DroneFailed(slug: string, device: string)

  /** What a handler does to the outside, in order; `Send` is an attempt. */
  datatype Effect =
    | Allow(key: string, slug: string)
    | Send(device: string, command: Command)
    | Publish(event: WebsocketEvent)

  datatype State = State(
    missions: map<string, Mission>,
    index: map<string, string>,
    backlog: map<string, seq<Item>>,
    repos: map<string, seq<Message>>,
    seen: map<string, int>,
    effects: seq<Effect>)

  const INITIAL := State(map[], map[], map[], map[], map[], [])

  datatype Reply = OK | BadRequest | ServerError

  datatype Outcome = Outcome(state: State, reply: Reply)

  // ---------------------------------------------------------------- lists of drones

  /** Position of the first entry for `device`, or the length when there is none. */
  function Find(ds: seq<Entry>, device: string): (i: nat)
    ensures i <= |ds|
    ensures i < |ds| ==> ds[i].device == device
  {
    if ds == [] then 0
    else if ds[0].device == device then 0
    else 1 + Find(ds[1..], device)
  }

  /** The first entry for `device`. */
  function Lookup(ds: seq<Entry>, device: string): Option<Entry> {
    var i := Find(ds, device);
    if i < |ds| then Some(ds[i]) else None
  }

  /** The list rebuilt without the entries for `device`. */
  function Without(ds: seq<Entry>, device: string): seq<Entry> {
    if ds == [] then []
    else
      var last := ds[|ds| - 1];
      Without(ds[..|ds| - 1], device) + if last.device != device then [last] else []
  }

  function NewEntry(device: string): Entry {
    Entry(false, device, "", "", NoStatus, 0)
  }

  function TrustEntry(e: Entry, key: string): Entry {
    e.(trusted := true, key := key, ip := "127.0.0.1", status := Unknown)
  }

  /** The list with `e` in place of the first entry for its device. */
  function Put(ds: seq<Entry>, e: Entry): seq<Entry> {
    var i := Find(ds, e.device);
    if i < |ds| then ds[i := e] else ds
  }

  /** The list after a trust message: the first entry for `device` becomes trusted. */
  function Trusted(ds: seq<Entry>, device: string, key: string): seq<Entry> {
    var first := Lookup(ds, device);
    if first.Some? && !first.value.trusted then Put(ds, TrustEntry(first.value, key)) else ds
  }

  predicate IsTrusted(ds: seq<Entry>, device: string) {
    var first := Lookup(ds, device);
    first.Some? && first.value.trusted
  }

  /** The mission reported by a drone is not the one it is in, but none: it lost its state. */
  predicate LosesState(ds: seq<Entry>, device: string, reported: string, found: string) {
    var first := Lookup(ds, device);
    first.Some? && reported != found && reported == "" && first.value.status != Failed
  }

  /** The list after a drone in mission `found` reports that it is in mission `reported`. */
  function Reported(ds: seq<Entry>, device: string, reported: string, found: string, now: int): seq<Entry> {
    var first := Lookup(ds, device);
    if first.None? then ds
    else if reported == found then Put(ds, first.value.(status := Online, updatedAt := now))
    else if LosesState(ds, device, reported, found) then Put(ds, first.value.(status := Failed))
    else ds
  }

  // ---------------------------------------------------------------- git and effects

  function Outbox(st: State, slug: string): seq<Message> {
    if slug in st.repos then st.repos[slug] else []
  }

  function Record(st: State, slug: string, msg: Message, push: Push): State {
    if push.Lost? then st else st.(repos := st.repos[slug := Outbox(st, slug) + [msg]])
  }

  function Emit(st: State, e: Effect): State {
    st.(effects := st.effects + [e])
  }

  function Allows(keys: seq<string>, slug: string): seq<Effect> {
    seq(|keys|, i requires 0 <= i < |keys| => Allow(keys[i], slug))
  }

  function BacklogCommands(ds: seq<Entry>): seq<Effect> {
    seq(|ds|, i requires 0 <= i < |ds| => Send(ds[i].device, UpdateBacklog))
  }

  // ---------------------------------------------------------------- HTTP handlers

  /** `made` is what the slug library makes of `slug`.  When a repository of this name is still there,
      from a deletion that failed, `survives` tells whether its outbox is. */
  function Create(st: State, slug: string, made: string, name: string, keys: seq<string>,
                  repoMade: bool, survives: bool, configured: bool, cleaned: bool): Outcome
  {
    if slug == "" || made != slug || slug in st.missions then Outcome(st, BadRequest)
    else if !repoMade then Outcome(st, ServerError)
    else
      var allowed := st.(repos := st.repos[slug := if survives then Outbox(st, slug) else []],
                         effects := st.effects + Allows(keys, slug));
      if !configured then
        Outcome(if cleaned then allowed.(repos := allowed.repos - {slug}) else allowed, ServerError)
      else
        var created := allowed.(missions := allowed.missions[slug := Mission(name, [])],
                                backlog := allowed.backlog[slug := []]);
        Outcome(Emit(created, Publish(MissionCreated(slug, name))), OK)
  }

  function Devices(ds: seq<Entry>): set<string> {
    set i | 0 <= i < |ds| :: ds[i].device
  }

  function Delete(st: State, slug: string, repoDeleted: bool): Outcome {
    if slug !in st.missions then Outcome(st, OK)
    else
      var gone := st.(repos := if repoDeleted then st.repos - {slug} else st.repos,
                      index := st.index - Devices(st.missions[slug].drones),
                      missions := st.missions - {slug});
      Outcome(Emit(gone, Publish(MissionRemoved(slug))), OK)
  }

  predicate IsActive(seen: map<string, int>, device: string, now: int) {
    device in seen && seen[device] >= now - MINUTE
  }

  function Assign(st: State, slug: string, device: string, now: int, sent: bool): Outcome {
    if slug !in st.missions || !IsActive(st.seen, device, now) || device in st.index then
      Outcome(st, BadRequest)
    else
      var asked := Emit(st, Send(device, InitializeTrust));
      if !sent then Outcome(asked, ServerError)
      else
        var m := st.missions[slug];
        var joined := asked.(missions := st.missions[slug := m.(drones := m.drones + [NewEntry(device)])],
                             index := st.index[device := slug]);
        Outcome(Emit(joined, Publish(DroneAssigned(slug, device))), OK)
  }

  /** Only the presence of the device in the index is tested, not the mission it names. */
  function Remove(st: State, slug: string, device: string, push: Push, sent: bool): Outcome {
    if slug !in st.missions || device !in st.index then Outcome(st, BadRequest)
    else
      var logged := Record(st, slug, DroneRemoved(device), push);
      if !push.Delivered? then Outcome(logged, BadRequest)
      else
        var asked := Emit(logged, Send(device, LeaveMission));
        if !sent then Outcome(asked, ServerError)
        else
          var m := st.missions[slug];
          var left := asked.(missions := st.missions[slug := m.(drones := Without(m.drones, device))],
                             index := st.index - {device});
          Outcome(Emit(left, Publish(DroneLeft(slug, device))), OK)
  }

  function NewItem(task: Task): Item {
    Item(task.id, task.kind, "in-progress", task.payload)
  }

  function ItemsOf(st: State, slug: string): seq<Item> {
    if slug in st.backlog then st.backlog[slug] else []
  }

  function Add(st: State, slug: string, task: Task, push: Push): Outcome {
    if slug !in st.missions then Outcome(st, BadRequest)
    else
      var logged := Record(st, slug, TaskCreated(task), push);
      if !push.Delivered? then Outcome(logged, ServerError)
      else
        var told := logged.(effects := logged.effects + BacklogCommands(st.missions[slug].drones),
                            backlog := logged.backlog[slug := ItemsOf(st, slug) + [NewItem(task)]]);
        Outcome(Emit(told, Publish(ItemAdded(slug, task))), OK)
  }

  // ---------------------------------------------------------------- MQTT events

  function Seen(st: State, device: string, now: int): State {
    st.(seen := st.seen[device := now])
  }

  /** The index is trusted to name a live mission; `Safety.IndexSound` shows that it does. */
  function Trust(st: State, device: string, key: string, push: Push, sent: bool): State {
    if device !in st.index || st.index[device] !in st.missions then st
    else
      var slug := st.index[device];
      var m := st.missions[slug];
      if IsTrusted(m.drones, device) then st
      else
        var marked := st.(missions := st.missions[slug := m.(drones := Trusted(m.drones, device, key))]);
        var logged := Record(marked, slug, DroneAdded(device), push);
        if !push.Delivered? then logged
        else
          var asked := Emit(Emit(logged, Allow(key, slug)), Send(device, JoinMission(slug)));
          if sent then Emit(asked, Publish(DroneGotTrusted(slug, device))) else asked
  }

  /** What a scan of all missions for `device` may answer, whatever order the map is walked in. */
  ghost predicate Scan(st: State, device: string, found: string) {
    if found == "" then forall s | s in st.missions :: Lookup(st.missions[s].drones, device).None?
    else found in st.missions && Lookup(st.missions[found].drones, device).Some?
  }

  /** Status of the last entry of the plan for `id`, or `status` when there is none. */
  function LastStatus(plan: seq<PlanEntry>, id: string, status: string): string {
    if plan == [] then status
    else if plan[|plan| - 1].id == id then plan[|plan| - 1].status
    else LastStatus(plan[..|plan| - 1], id, status)
  }

  function Merge(items: seq<Item>, plan: seq<PlanEntry>): seq<Item> {
    seq(|items|, i requires 0 <= i < |items| =>
      items[i].(status := LastStatus(plan, items[i].id, items[i].status)))
  }

  function Plan(st: State, found: string, plan: seq<PlanEntry>): State {
    if found == "" then st
    else
      var merged := if found !in st.backlog then st
                    else st.(backlog := st.backlog[found := Merge(st.backlog[found], plan)]);
      Emit(merged, Publish(PlanReceived(found, plan)))
  }

  function Report(st: State, device: string, reported: string, found: string, now: int): State {
    if found !in st.missions then st
    else
      var m := st.missions[found];
      var ds := Reported(m.drones, device, reported, found, now);
      var told := st.(missions := st.missions[found := m.(drones := ds)]);
      if LosesState(m.drones, device, reported, found) then Emit(told, Publish(DroneFailed(found, device))) else told
  }

  /** The status a reader is shown: a drone silent for a minute counts as offline. */
  function ShownStatus(e: Entry, now: int): Status {
    if e.status == Online && e.updatedAt < now - MINUTE then Offline else e.status
  }

  // ---------------------------------------------------------------- steps and runs

  datatype Event =
    | CreateMission(slug: string, made: string, name: string, keys: seq<string>,
                    repoMade: bool, survives: bool, configured: bool, cleaned: bool)
    | DeleteMission(slug: string, repoDeleted: bool)
    | AssignDrone(slug: string, device: string, now: int, sent: bool)
    | RemoveDrone(slug: string, device: string, push: Push, sent: bool)
    | AddTask(slug: string, task: Task, push: Push)
    | DeviceSeen(device: string, now: int)
    | TrustMessage(device: string, key: string, push: Push, sent: bool)
    | PlanMessage(device: string, plan: seq<PlanEntry>, found: string)
    | StateMessage(device: string, reported: string, found: string, now: int)

  function Step(st: State, e: Event): State {
    match e
    case CreateMission(slug, made, name, keys, repoMade, survives, configured, cleaned) =>
      Create(st, slug, made, name, keys, repoMade, survives, configured, cleaned).state
    case DeleteMission(slug, repoDeleted) => Delete(st, slug, repoDeleted).state
    case AssignDrone(slug, device, now, sent) => Assign(st, slug, device, now, sent).state
    case RemoveDrone(slug, device, push, sent) => Remove(st, slug, device, push, sent).state
    case AddTask(slug, task, push) => Add(st, slug, task, push).state
    case DeviceSeen(device, now) => Seen(st, device, now)
    case TrustMessage(device, key, push, sent) => Trust(st, device, key, push, sent)
    case PlanMessage(device, plan, found) => Plan(st, found, plan)
    case StateMessage(device, reported, found, now) => Report(st, device, reported, found, now)
  }

  /** The scan an event carries must be one that the walk over the missions can give. */
  ghost predicate Legal(st: State, e: Event) {
    match e
    case PlanMessage(device, _, found) => Scan(st, device, found)
    case StateMessage(device, _, found, _) => Scan(st, device, found)
    case _ => true
  }

  /** `states` are the states a run of `events` goes through.  Any interleaving of the
      handlers and of the goroutines they start is a run; so is every other order. */
  ghost predicate Run(states: seq<State>, events: seq<Event>) {
    && |states| == |events| + 1
    && states[0] == INITIAL
    && forall i | 0 <= i < |events| :: Follows(states, events, i)
  }

  /** The `i`-th event leads from the `i`-th state to the next. */
  ghost predicate Follows(states: seq<State>, events: seq<Event>, i: nat)
    requires i < |events| && |states| == |events| + 1
  {
    Legal(states[i], events[i]) && states[i + 1] == Step(states[i], events[i])
  }

  lemma RunGoesOn(states: seq<State>, events: seq<Event>, e: Event)
    requires Run(states, events) && Legal(states[|events|], e)
    ensures Run(states + [Step(states[|events|], e)], events + [e])
  {
    var states', events' := states + [Step(states[|events|], e)], events + [e];
    forall i | 0 <= i < |events'| ensures Follows(states', events', i) {
      assert i < |events| ==> Follows(states, events, i);
    }
  }
}
