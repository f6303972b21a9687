/**
 The registry as the program keeps it: maps from slugs to heap objects that the
 handlers change in place.  Every handler is proved to do what its function in
 `Registry` says, so every statement about runs of those functions is about it.
 The loops of the handlers over one mission or one backlog are methods of their own.
 */
module MissionControl {
  import opened Options
  import R = Registry
  import Steps
  import Safety
  import Replies

  class Drone {
    const deviceID: string
    ghost const home: string  // slug of the mission that holds the entry
    var trusted: bool
    var publicSSHKey: string
    var ip: string
    var status: R.Status
    var statusUpdatedAt: int

    constructor (deviceID: string, ghost home: string)
      ensures View() == R.NewEntry(deviceID) && this.home == home
    {
      this.deviceID, this.home := deviceID, home;
      trusted, publicSSHKey, ip, status, statusUpdatedAt := false, "", "", R.NoStatus, 0;
    }

    ghost function View(): R.Entry
      reads this
    {
      R.Entry(trusted, deviceID, publicSSHKey, ip, status, statusUpdatedAt)
    }
  }

  class Mission {
    const slug: string
    const name: string
    var drones: seq<Drone>

    constructor (slug: string, name: string)
      ensures this.slug == slug && Holds(R.Mission(name, [])) && drones == []
    {
      this.slug, this.name, drones := slug, name, [];
    }

    /** The entries belong to this mission, none is listed twice, and `view` is what they hold. */
    ghost predicate Holds(view: R.Mission)
      reads this, drones
    {
      && name == view.name
      && |drones| == |view.drones|
      && (forall i | 0 <= i < |drones| :: drones[i].home == slug && drones[i].View() == view.drones[i])
      && (forall i, j | 0 <= i < j < |drones| :: drones[i] != drones[j])
    }

    method Add(deviceID: string, ghost view: R.Mission) returns (d: Drone)
      requires Holds(view)
      modifies this
      ensures fresh(d) && drones == old(drones) + [d]
      ensures Holds(view.(drones := view.drones + [R.NewEntry(deviceID)]))
    {
      d := new Drone(deviceID, slug);
      drones := drones + [d];
    }

    /** Rebuilds the list without the entries for the device. */
    method Remove(deviceID: string, ghost view: R.Mission, ghost ds: set<Drone>)
      requires Holds(view) && forall i | 0 <= i < |drones| :: drones[i] in ds
      modifies this
      ensures forall i | 0 <= i < |drones| :: drones[i] in ds
      ensures Holds(view.(drones := R.Without(view.drones, deviceID)))
    {
      var newDrones: seq<Drone> := [];
      for i := 0 to |drones|
        invariant |newDrones| == |R.Without(view.drones[..i], deviceID)|
        invariant forall k | 0 <= k < |newDrones| ::
                    newDrones[k] in drones[..i] && newDrones[k].View() == R.Without(view.drones[..i], deviceID)[k]
        invariant forall j, k | 0 <= j < k < |newDrones| :: newDrones[j] != newDrones[k]
      {
        var x := drones[i];
        assert view.drones[..i + 1][..i] == view.drones[..i];
        assert drones[..i + 1] == drones[..i] + [x];
        if x.deviceID != deviceID {
          newDrones := newDrones + [x];
        }
      }
      assert view.drones[..|drones|] == view.drones && drones[..|drones|] == drones;
      drones := newDrones;
    }

    /** Marks the first entry for the device, unless it is trusted already. */
    method Trust(deviceID: string, key: string, ghost view: R.Mission) returns (already: bool)
      requires Holds(view)
      modifies drones
      ensures drones == old(drones)
      ensures already == R.IsTrusted(view.drones, deviceID)
      ensures Holds(view.(drones := R.Trusted(view.drones, deviceID, key)))
    {
      for i := 0 to |drones|
        invariant forall j | 0 <= j < i :: view.drones[j].device != deviceID
        invariant Holds(view) && drones == old(drones)
      {
        var d := drones[i];
        if d.deviceID == deviceID {
          Steps.FindIs(view.drones, deviceID, i);
          if d.trusted {
            return true;
          }
          d.trusted := true;
          d.publicSSHKey := key;
          d.ip := "127.0.0.1";
          d.status := R.Unknown;
          return false;
        }
      }
      Steps.FindIs(view.drones, deviceID, |drones|);
      return false;
    }

    method Find(deviceID: string, ghost view: R.Mission) returns (found: Drone?)
      requires Holds(view)
      ensures var i := R.Find(view.drones, deviceID);
              if i < |view.drones| then found != null && found == drones[i] else found == null
    {
      for i := 0 to |drones|
        invariant forall j | 0 <= j < i :: view.drones[j].device != deviceID
      {
        if drones[i].deviceID == deviceID {
          Steps.FindIs(view.drones, deviceID, i);
          return drones[i];
        }
      }
      Steps.FindIs(view.drones, deviceID, |drones|);
      return null;
    }

    /** A drone of this mission reports the mission it is in; tells whether it has lost its state. */
    method Report(d: Drone, deviceID: string, reported: string, now: int, ghost view: R.Mission) returns (lost: bool)
      requires Holds(view)
      requires R.Find(view.drones, deviceID) < |view.drones| && d == drones[R.Find(view.drones, deviceID)]
      modifies d
      ensures lost == R.LosesState(view.drones, deviceID, reported, slug)
      ensures Holds(view.(drones := R.Reported(view.drones, deviceID, reported, slug, now)))
    {
      if reported == slug {
        d.status := R.Online;
        d.statusUpdatedAt := now;
        return false;
      }
      if reported == "" && d.status != R.Failed {
        d.status := R.Failed;
        return true;
      }
      return false;
    }
  }

  class BacklogItem {
    const id: string
    const kind: string
    const payload: string
    ghost const home: string  // slug of the mission that holds the item
    var status: string

    constructor (id: string, kind: string, status: string, payload: string, ghost home: string)
      ensures View() == R.Item(id, kind, status, payload) && this.home == home
    {
      this.id, this.kind, this.status, this.payload, this.home := id, kind, status, payload, home;
    }

    ghost function View(): R.Item
      reads this
    {
      R.Item(id, kind, status, payload)
    }
  }

  /** The items belong to `slug`, none is listed twice, and `view` is what they hold. */
  ghost predicate ItemsHold(items: seq<BacklogItem>, slug: string, view: seq<R.Item>)
    reads items
  {
    && |items| == |view|
    && (forall i | 0 <= i < |items| :: items[i].home == slug && items[i].View() == view[i])
    && (forall i, j | 0 <= i < j < |items| :: items[i] != items[j])
  }

  /** Each plan entry in turn overwrites the status of every item with its id. */
  method MergePlan(items: seq<BacklogItem>, plan: seq<R.PlanEntry>, ghost slug: string, ghost view: seq<R.Item>)
    requires ItemsHold(items, slug, view)
    modifies items
    ensures ItemsHold(items, slug, R.Merge(view, plan))
  {
    for p := 0 to |plan|
      modifies items
      invariant ItemsHold(items, slug, R.Merge(view, plan[..p]))
    {
      ghost var before := R.Merge(view, plan[..p]);
      for q := 0 to |items|
        modifies items
        invariant forall i | 0 <= i < q ::
                    items[i].View() == if plan[p].id == before[i].id then before[i].(status := plan[p].status) else before[i]
        invariant forall i | q <= i < |items| :: items[i].View() == before[i]
      {
        if plan[p].id == items[q].id {
          items[q].status := plan[p].status;
        }
      }
      assert plan[..p + 1][..p] == plan[..p];
    }
    assert plan[..|plan|] == plan;
  }

  datatype DroneInfo = DroneInfo(device: string, trusted: bool, status: R.Status)

  datatype MissionInfo = MissionInfo(slug: string, name: string, drones: seq<DroneInfo>)

  ghost predicate MissionsHold(missions: map<string, Mission>, view: map<string, R.Mission>,
                               ms: set<Mission>, ds: set<Drone>)
    reads ms, ds
  {
    && (forall slug :: slug in missions <==> slug in view)
    && forall slug | slug in missions ::
         && missions[slug] in ms && (forall i | 0 <= i < |missions[slug].drones| :: missions[slug].drones[i] in ds)
         && missions[slug].slug == slug && missions[slug].Holds(view[slug])
  }

  ghost predicate BacklogHolds(backlog: map<string, seq<BacklogItem>>, view: map<string, seq<R.Item>>,
                               items: set<BacklogItem>)
    reads items
  {
    && (forall slug :: slug in backlog <==> slug in view)
    && forall slug | slug in backlog ::
         (forall i | 0 <= i < |backlog[slug]| :: backlog[slug][i] in items) && ItemsHold(backlog[slug], slug, view[slug])
  }

  /** The same for all missions but one. */
  ghost predicate MissionsHoldBut(but: string, missions: map<string, Mission>, view: map<string, R.Mission>,
                                  ms: set<Mission>, ds: set<Drone>)
    reads ms, ds
  {
    && (forall slug :: slug in missions <==> slug in view)
    && forall slug | slug in missions ::
         && missions[slug] in ms && (forall i | 0 <= i < |missions[slug].drones| :: missions[slug].drones[i] in ds)
         && missions[slug].slug == slug && (slug != but ==> missions[slug].Holds(view[slug]))
  }

  ghost predicate BacklogHoldsBut(but: string, backlog: map<string, seq<BacklogItem>>, view: map<string, seq<R.Item>>,
                                  items: set<BacklogItem>)
    reads items
  {
    && (forall slug :: slug != but ==> (slug in backlog <==> slug in view))
    && forall slug | slug in backlog && slug != but ::
         (forall i | 0 <= i < |backlog[slug]| :: backlog[slug][i] in items) && ItemsHold(backlog[slug], slug, view[slug])
  }

  class Service {
    var missions: map<string, Mission>
    var drones: map<string, string>
    var backlog: map<string, seq<BacklogItem>>
    var activeDrones: map<string, int>
    ghost var missionView: map<string, R.Mission>    // what the missions hold
    ghost var backlogView: map<string, seq<R.Item>>  // what the backlogs hold
    ghost var repos: map<string, seq<R.Message>>     // the outbox in each repository
    ghost var effects: seq<R.Effect>                 // what was done to the outside
    ghost var ms: set<Mission>
    ghost var ds: set<Drone>
    ghost var items: set<BacklogItem>

    ghost predicate Valid()
      reads this, ms, ds, items
    {
      MissionsHold(missions, missionView, ms, ds) && BacklogHolds(backlog, backlogView, items)
    }

    ghost function Model(): R.State
      reads this
    {
      R.State(missionView, drones, backlogView, repos, activeDrones, effects)
    }

    constructor ()
      ensures Valid() && Model() == R.INITIAL && fresh(ms) && fresh(ds) && fresh(items)
    {
      missions, drones, backlog, activeDrones := map[], map[], map[], map[];
      missionView, backlogView, repos, effects := map[], map[], map[], [];
      ms, ds, items := {}, {}, {};
    }

    /** What was allocated before stays known, and what is new is freshly allocated. */
    twostate predicate Grown()
      reads this
    {
      && old(ms) <= ms && (forall m | m in ms && m !in old(ms) :: !old(allocated(m)))
      && old(ds) <= ds && (forall d | d in ds && d !in old(ds) :: !old(allocated(d)))
      && old(items) <= items && (forall b | b in items && b !in old(items) :: !old(allocated(b)))
    }

    /** Only the mission `slug` and its entries have changed: the others still hold. */
    twostate lemma MissionChanged(slug: string)
      requires old(MissionsHold(missions, missionView, ms, ds))
      requires missions == old(missions) && missionView == old(missionView) && ms == old(ms) && old(ds) <= ds
      requires slug in missions
      requires forall m | m in ms && m != missions[slug] :: unchanged(m)
      requires forall d | d in old(ds) && d.home != slug :: unchanged(d)
      requires forall i | 0 <= i < |missions[slug].drones| :: missions[slug].drones[i] in ds
      ensures MissionsHoldBut(slug, missions, missionView, ms, ds)
    {
      forall s | s in missions && s != slug ensures missions[s].Holds(missionView[s]) {
        assert missions[s] != missions[slug];
        assert unchanged(missions[s]);
      }
    }

    /** Only the backlog of `slug` and its items have changed: the others still hold. */
    twostate lemma BacklogChanged(slug: string)
      requires old(BacklogHolds(backlog, backlogView, items))
      requires slug in backlog && backlog == old(backlog)[slug := backlog[slug]]
      requires backlogView == old(backlogView) && old(items) <= items
      requires forall b | b in old(items) && b.home != slug :: unchanged(b)
      ensures BacklogHoldsBut(slug, backlog, backlogView, items)
    {
      forall s | s in backlog && s != slug ensures ItemsHold(backlog[s], s, backlogView[s]) {
        assert backlog[s] == old(backlog)[s];
      }
    }

    /** What the mission holds now is written down. */
    ghost method ReviseMission(slug: string, after: R.Mission)
      requires BacklogHolds(backlog, backlogView, items) && MissionsHoldBut(slug, missions, missionView, ms, ds)
      requires slug in missions && missions[slug].Holds(after)
      modifies this`missionView
      ensures Valid() && Model() == old(Model()).(missions := old(missionView)[slug := after])
    {
      missionView := missionView[slug := after];
    }

    ghost method ReviseBacklog(slug: string, after: seq<R.Item>)
      requires MissionsHold(missions, missionView, ms, ds) && BacklogHoldsBut(slug, backlog, backlogView, items)
      requires slug in backlog && ItemsHold(backlog[slug], slug, after)
      requires forall i | 0 <= i < |backlog[slug]| :: backlog[slug][i] in items
      modifies this`backlogView
      ensures Valid() && Model() == old(Model()).(backlog := old(backlogView)[slug := after])
    {
      backlogView := backlogView[slug := after];
    }

    /** A new repository has an empty outbox, one that was left behind may have another. */
    ghost method InitRepo(slug: string, survives: bool)
      requires Valid()
      modifies this`repos
      ensures Valid()
      ensures Model() == old(Model()).(repos :=
                old(repos)[slug := if survives then R.Outbox(old(Model()), slug) else []])
    {
      repos := repos[slug := if survives then R.Outbox(Model(), slug) else []];
    }

    ghost method DeleteRepo(slug: string)
      requires Valid()
      modifies this`repos
      ensures Valid() && Model() == old(Model()).(repos := old(repos) - {slug})
    {
      repos := repos - {slug};
    }

    ghost method Record(slug: string, msg: R.Message, push: R.Push)
      requires Valid()
      modifies this`repos
      ensures Valid() && Model() == R.Record(old(Model()), slug, msg, push)
    {
      repos := R.Record(Model(), slug, msg, push).repos;
    }

    ghost method Emit(effect: R.Effect)
      requires Valid()
      modifies this`effects
      ensures Valid() && Model() == R.Emit(old(Model()), effect)
    {
      effects := effects + [effect];
    }

    // -------------------------------------------------------------- changes of the stores

    method Found(slug: string, name: string)
      requires Valid() && slug !in missions
      modifies this`missions, this`missionView, this`ms
      ensures Valid() && Grown()
      ensures Model() == old(Model()).(missions := old(missionView)[slug := R.Mission(name, [])])
    {
      var f := new Mission(slug, name);
      Install(slug, f, R.Mission(name, []));
    }

    method Install(slug: string, f: Mission, ghost view: R.Mission)
      requires Valid() && slug !in missions && f.slug == slug && f.drones == [] && f.Holds(view)
      modifies this`missions, this`missionView, this`ms
      ensures Valid() && ms == old(ms) + {f}
      ensures Model() == old(Model()).(missions := old(missionView)[slug := view])
    {
      missions := missions[slug := f];
      missionView := missionView[slug := view];
      ms := ms + {f};
    }

    method Empty(slug: string)
      requires Valid()
      modifies this`backlog, this`backlogView
      ensures Valid() && Model() == old(Model()).(backlog := old(backlogView)[slug := []])
    {
      backlog := backlog[slug := []];
      backlogView := backlogView[slug := []];
    }

    method Dissolve(slug: string)
      requires Valid() && slug in missions
      modifies this`missions, this`missionView, this`drones
      ensures Valid()
      ensures Model() == old(Model()).(missions := old(missionView) - {slug},
                                       index := old(drones) - R.Devices(old(missionView)[slug].drones))
    {
      UnindexAll(missions[slug], missionView[slug]);
      Uninstall(slug);
    }

    /** Takes the devices of a mission off the index. */
    method UnindexAll(f: Mission, ghost view: R.Mission)
      requires f.Holds(view)
      modifies this`drones
      ensures drones == old(drones) - R.Devices(view.drones)
    {
      for i := 0 to |f.drones|
        modifies this`drones
        invariant drones == old(drones) - R.Devices(view.drones[..i])
      {
        assert R.Devices(view.drones[..i + 1]) == R.Devices(view.drones[..i]) + {view.drones[i].device} by {
          assert view.drones[..i + 1] == view.drones[..i] + [view.drones[i]];
        }
        drones := drones - {f.drones[i].deviceID};
      }
      assert view.drones[..|f.drones|] == view.drones;
    }

    method Uninstall(slug: string)
      requires Valid() && slug in missions
      modifies this`missions, this`missionView
      ensures Valid() && Model() == old(Model()).(missions := old(missionView) - {slug})
    {
      missions := missions - {slug};
      missionView := missionView - {slug};
    }

    method Index(deviceID: string, slug: string)
      requires Valid()
      modifies this`drones
      ensures Valid() && Model() == old(Model()).(index := old(drones)[deviceID := slug])
    {
      drones := drones[deviceID := slug];
    }

    method Unindex(deviceID: string)
      requires Valid()
      modifies this`drones
      ensures Valid() && Model() == old(Model()).(index := old(drones) - {deviceID})
    {
      drones := drones - {deviceID};
    }

    method Enlist(slug: string, deviceID: string)
      requires Valid() && slug in missions
      modifies this`ds, this`missionView, missions[slug]
      ensures Valid() && Grown()
      ensures var m := old(missionView)[slug];
              Model() == old(Model()).(missions := old(missionView)[slug := m.(drones := m.drones + [R.NewEntry(deviceID)])])
    {
      var f := missions[slug];
      ghost var m := missionView[slug];
      var d := f.Add(deviceID, m);
      ds := ds + {d};
      MissionChanged(slug);
      ReviseMission(slug, m.(drones := m.drones + [R.NewEntry(deviceID)]));
    }

    method Unlist(slug: string, deviceID: string)
      requires Valid() && slug in missions
      modifies this`missionView, missions[slug]
      ensures Valid()
      ensures var m := old(missionView)[slug];
              Model() == old(Model()).(missions := old(missionView)[slug := m.(drones := R.Without(m.drones, deviceID))])
    {
      var m := missions[slug];
      ghost var view := missionView[slug];
      m.Remove(deviceID, view, ds);
      MissionChanged(slug);
      ReviseMission(slug, view.(drones := R.Without(view.drones, deviceID)));
    }

    method Mark(slug: string, deviceID: string, key: string) returns (already: bool)
      requires Valid() && slug in missions
      modifies this`missionView, missions[slug].drones
      ensures Valid()
      ensures already == R.IsTrusted(old(missionView)[slug].drones, deviceID)
      ensures var m := old(missionView)[slug];
              Model() == old(Model()).(missions := old(missionView)[slug := m.(drones := R.Trusted(m.drones, deviceID, key))])
    {
      var f := missions[slug];
      ghost var view := missionView[slug];
      already := f.Trust(deviceID, key, view);
      MissionChanged(slug);
      ReviseMission(slug, view.(drones := R.Trusted(view.drones, deviceID, key)));
    }

    method Tell(slug: string, d: Drone, deviceID: string, reported: string, now: int) returns (lost: bool)
      requires Valid() && slug in missions && R.Find(missionView[slug].drones, deviceID) < |missions[slug].drones|
      requires d == missions[slug].drones[R.Find(missionView[slug].drones, deviceID)]
      modifies this`missionView, d
      ensures Valid()
      ensures lost == R.LosesState(old(missionView)[slug].drones, deviceID, reported, slug)
      ensures var m := old(missionView)[slug];
              Model() == old(Model()).(missions :=
                old(missionView)[slug := m.(drones := R.Reported(m.drones, deviceID, reported, slug, now))])
    {
      var f := missions[slug];
      ghost var view := missionView[slug];
      assert d.home == slug;
      lost := f.Report(d, deviceID, reported, now, view);
      MissionChanged(slug);
      ReviseMission(slug, view.(drones := R.Reported(view.drones, deviceID, reported, slug, now)));
    }

    method Append(slug: string, item: BacklogItem)
      requires Valid() && item.home == slug && item !in items
      modifies this`backlog, this`backlogView, this`items
      ensures Valid() && items == old(items) + {item}
      ensures Model() == old(Model()).(backlog := old(backlogView)[slug := R.ItemsOf(old(Model()), slug) + [item.View()]])
    {
      var blog := if slug in backlog then backlog[slug] else [];
      backlog := backlog[slug := blog + [item]];
      items := items + {item};
      BacklogChanged(slug);
      ReviseBacklog(slug, R.ItemsOf(Model(), slug) + [item.View()]);
    }

    method AddItem(slug: string, task: R.Task)
      requires Valid()
      modifies this`backlog, this`backlogView, this`items
      ensures Valid() && Grown()
      ensures Model() == old(Model()).(backlog :=
                old(backlogView)[slug := R.ItemsOf(old(Model()), slug) + [R.NewItem(task)]])
    {
      var item := new BacklogItem(task.id, task.kind, "in-progress", task.payload, slug);
      Append(slug, item);
    }

    method Overwrite(slug: string, plan: seq<R.PlanEntry>)
      requires Valid() && slug in backlog
      modifies this`backlogView, items
      ensures Valid()
      ensures Model() == old(Model()).(backlog := old(backlogView)[slug := R.Merge(old(backlogView)[slug], plan)])
    {
      ghost var view := backlogView[slug];
      MergePlan(backlog[slug], plan, slug, view);
      assert MissionsHold(missions, missionView, ms, ds);
      BacklogChanged(slug);
      ReviseBacklog(slug, R.Merge(view, plan));
    }

    // -------------------------------------------------------------- HTTP handlers

    method CreateMission(slug: string, made: string, name: string, keys: seq<string>,
                         repoMade: bool, ghost survives: bool, configured: bool, cleaned: bool) returns (reply: R.Reply)
      requires Valid()
      modifies this`missions, this`missionView, this`ms, this`backlog, this`backlogView, this`repos, this`effects
      ensures Valid() && Grown()
      ensures R.Outcome(Model(), reply) == R.Create(old(Model()), slug, made, name, keys, repoMade, survives, configured, cleaned)
    {
      if |slug| == 0 {
        return R.BadRequest;
      }
      if made != slug {
        return R.BadRequest;
      }
      if slug in missions {
        return R.BadRequest;
      }
      if !repoMade {
        return R.ServerError;
      }
      InitRepo(slug, survives);
      AllowAll(keys, slug);
      if !configured {
        if cleaned {
          DeleteRepo(slug);
        }
        return R.ServerError;
      }
      Found(slug, name);
      Empty(slug);
      Emit(R.Publish(R.MissionCreated(slug, name)));
      return R.OK;
    }

    method AllowAll(keys: seq<string>, slug: string)
      requires Valid()
      modifies this`effects
      ensures Valid() && Model() == old(Model()).(effects := old(effects) + R.Allows(keys, slug))
    {
      for i := 0 to |keys|
        modifies this`effects
        invariant Valid() && effects == old(effects) + R.Allows(keys[..i], slug)
      {
        assert old(effects) + R.Allows(keys[..i + 1], slug)
            == (old(effects) + R.Allows(keys[..i], slug)) + [R.Allow(keys[i], slug)];
        Emit(R.Allow(keys[i], slug));
      }
      assert keys[..|keys|] == keys;
    }

    method DeleteMission(slug: string, repoDeleted: bool) returns (reply: R.Reply)
      requires Valid()
      modifies this`missions, this`missionView, this`drones, this`repos, this`effects
      ensures Valid()
      ensures R.Outcome(Model(), reply) == R.Delete(old(Model()), slug, repoDeleted)
    {
      if slug !in missions {
        return R.OK;
      }
      if repoDeleted {
        DeleteRepo(slug);
      }
      Dissolve(slug);
      Emit(R.Publish(R.MissionRemoved(slug)));
      return R.OK;
    }

    method IsDroneActive(deviceID: string, now: int) returns (active: bool)
      ensures active == R.IsActive(activeDrones, deviceID, now)
      ensures active <==> deviceID in activeDrones && now - activeDrones[deviceID] <= 60_000_000_000
    {
      if deviceID !in activeDrones {
        return false;
      }
      var minuteAgo := now - R.MINUTE;
      return !(activeDrones[deviceID] < minuteAgo);
    }

    method AssignDrone(slug: string, deviceID: string, now: int, sent: bool) returns (reply: R.Reply)
      requires Valid()
      modifies this`missionView, this`ds, this`drones, this`effects, ms
      ensures Valid() && Grown()
      ensures R.Outcome(Model(), reply) == R.Assign(old(Model()), slug, deviceID, now, sent)
    {
      if slug !in missions {
        return R.BadRequest;
      }
      var active := IsDroneActive(deviceID, now);
      if !active {
        return R.BadRequest;
      }
      if deviceID in drones {
        return R.BadRequest;
      }
      Emit(R.Send(deviceID, R.InitializeTrust));
      if !sent {
        return R.ServerError;
      }
      Enlist(slug, deviceID);
      Index(deviceID, slug);
      Emit(R.Publish(R.DroneAssigned(slug, deviceID)));
      return R.OK;
    }

    method RemoveDrone(slug: string, deviceID: string, push: R.Push, sent: bool) returns (reply: R.Reply)
      requires Valid()
      modifies this`missionView, this`drones, this`repos, this`effects, ms
      ensures Valid()
      ensures R.Outcome(Model(), reply) == R.Remove(old(Model()), slug, deviceID, push, sent)
    {
      if slug !in missions {
        return R.BadRequest;
      }
      if deviceID !in drones {
        return R.BadRequest;
      }
      Record(slug, R.DroneRemoved(deviceID), push);
      if push != R.Delivered {
        return R.BadRequest;
      }
      Emit(R.Send(deviceID, R.LeaveMission));
      if !sent {
        return R.ServerError;
      }
      Unlist(slug, deviceID);
      Unindex(deviceID);
      Emit(R.Publish(R.DroneLeft(slug, deviceID)));
      return R.OK;
    }

    /** Every drone of the mission is told; a failed command is only logged. */
    method TellBacklog(slug: string)
      requires Valid() && slug in missions
      modifies this`effects
      ensures Valid()
      ensures Model() == old(Model()).(effects := old(effects) + R.BacklogCommands(old(missionView)[slug].drones))
    {
      var f := missions[slug];
      ghost var view := missionView[slug].drones;
      for i := 0 to |f.drones|
        modifies this`effects
        invariant Valid() && effects == old(effects) + R.BacklogCommands(view[..i])
      {
        assert old(effects) + R.BacklogCommands(view[..i + 1])
            == (old(effects) + R.BacklogCommands(view[..i])) + [R.Send(view[i].device, R.UpdateBacklog)];
        Emit(R.Send(f.drones[i].deviceID, R.UpdateBacklog));
      }
      assert view[..|f.drones|] == view;
    }

    method Deliver(slug: string, task: R.Task)
      requires Valid() && slug in missions
      modifies this`backlog, this`backlogView, this`items, this`effects
      ensures Valid() && Grown()
      ensures Model() == old(Model()).(
                backlog := old(backlogView)[slug := R.ItemsOf(old(Model()), slug) + [R.NewItem(task)]],
                effects := old(effects) + R.BacklogCommands(old(missionView)[slug].drones) + [R.Publish(R.ItemAdded(slug, task))])
    {
      TellBacklog(slug);
      AddItem(slug, task);
      Emit(R.Publish(R.ItemAdded(slug, task)));
    }

    method AddTask(slug: string, task: R.Task, push: R.Push) returns (reply: R.Reply)
      requires Valid()
      modifies this`backlog, this`backlogView, this`items, this`repos, this`effects
      ensures Valid() && Grown()
      ensures R.Outcome(Model(), reply) == R.Add(old(Model()), slug, task, push)
    {
      if slug !in missions {
        return R.BadRequest;
      }
      Record(slug, R.TaskCreated(task), push);
      if push != R.Delivered {
        return R.ServerError;
      }
      Deliver(slug, task);
      return R.OK;
    }

    /** A drone is shown with its stored status, unless it is online and older than a minute. */
    method GetMission(slug: string, now: int) returns (info: Option<MissionInfo>)
      requires Valid()
      ensures info.None? <==> slug !in Model().missions
      ensures info.Some? ==>
                var m := Model().missions[slug];
                && info.value.slug == slug && info.value.name == m.name && |info.value.drones| == |m.drones|
                && forall i | 0 <= i < |m.drones| ::
                     && info.value.drones[i].device == m.drones[i].device
                     && info.value.drones[i].trusted == m.drones[i].trusted
                     && info.value.drones[i].status ==
                        if m.drones[i].status == R.Online && now - m.drones[i].updatedAt > 60_000_000_000 then R.Offline
                        else m.drones[i].status
      ensures info.Some? ==>
                forall i | 0 <= i < |info.value.drones| ::
                  info.value.drones[i].status == R.ShownStatus(Model().missions[slug].drones[i], now)
    {
      if slug !in missions {
        return None;
      }
      var m := missions[slug];
      var response: seq<DroneInfo> := [];
      for i := 0 to |m.drones|
        invariant |response| == i
        invariant forall j | 0 <= j < i ::
                    response[j] == DroneInfo(missionView[slug].drones[j].device, missionView[slug].drones[j].trusted,
                                             R.ShownStatus(missionView[slug].drones[j], now))
      {
        var d := m.drones[i];
        assert d.View() == missionView[slug].drones[i];
        var status := d.status;
        if d.status == R.Online && d.statusUpdatedAt < now - R.MINUTE {
          status := R.Offline;
        }
        response := response + [DroneInfo(d.deviceID, d.trusted, status)];
      }
      return Some(MissionInfo(slug, m.name, response));
    }

    /** Answers for deleted missions too. */
    method GetBacklog(slug: string) returns (found: bool, response: seq<BacklogItem>)
      requires Valid()
      ensures found <==> slug in Model().backlog
      ensures found ==> ItemsHold(response, slug, Model().backlog[slug])
    {
      if slug !in backlog {
        return false, [];
      }
      return true, backlog[slug];
    }

    // -------------------------------------------------------------- MQTT events

    /** Walks over the missions in any order. */
    method ResolveMissionSlug(deviceID: string) returns (slug: string)
      requires Valid() && "" !in missions
      ensures R.Scan(Model(), deviceID, slug)
    {
      var todo := missions.Keys;
      while todo != {}
        invariant todo <= missions.Keys
        invariant forall s | s in missions && s !in todo :: R.Lookup(missionView[s].drones, deviceID).None?
        decreases todo
      {
        var s :| s in todo;
        var d := missions[s].Find(deviceID, missionView[s]);
        if d != null {
          return s;
        }
        todo := todo - {s};
      }
      return "";
    }

    method GetDrone(deviceID: string) returns (slug: string, drone: Drone?)
      requires Valid() && "" !in missions
      ensures R.Scan(Model(), deviceID, slug)
      ensures slug != "" ==> var i := R.Find(missionView[slug].drones, deviceID);
                             slug in missions && i < |missions[slug].drones| && drone == missions[slug].drones[i]
    {
      var todo := missions.Keys;
      while todo != {}
        invariant todo <= missions.Keys
        invariant forall s | s in missions && s !in todo :: R.Lookup(missionView[s].drones, deviceID).None?
        decreases todo
      {
        var s :| s in todo;
        var d := missions[s].Find(deviceID, missionView[s]);
        if d != null {
          return s, d;
        }
        todo := todo - {s};
      }
      return "", null;
    }

    /** The part of the event handler that runs before it starts one of the handlers below. */
    method NoteSeen(deviceID: string, now: int)
      requires Valid()
      modifies this`activeDrones
      ensures Valid() && Model() == R.Seen(old(Model()), deviceID, now)
    {
      activeDrones := activeDrones[deviceID := now];
    }

    method HandleTrust(deviceID: string, key: string, push: R.Push, sent: bool)
      requires Valid() && Safety.IndexSound(Model())
      modifies this`missionView, this`repos, this`effects, ds
      ensures Valid() && Model() == R.Trust(old(Model()), deviceID, key, push, sent)
    {
      if deviceID !in drones {
        return;
      }
      var missionSlug := drones[deviceID];
      assert missionSlug in missions;  // never nil
      var already := Mark(missionSlug, deviceID, key);
      if already {
        return;
      }
      Record(missionSlug, R.DroneAdded(deviceID), push);
      if push != R.Delivered {
        return;
      }
      Emit(R.Allow(key, missionSlug));
      Emit(R.Send(deviceID, R.JoinMission(missionSlug)));
      if !sent {
        return;
      }
      Emit(R.Publish(R.DroneGotTrusted(missionSlug, deviceID)));
    }

    method HandlePlan(deviceID: string, plan: seq<R.PlanEntry>) returns (missionSlug: string)
      requires Valid() && "" !in missions
      modifies this`backlogView, this`effects, items
      ensures Valid() && R.Scan(old(Model()), deviceID, missionSlug)
      ensures Model() == R.Plan(old(Model()), missionSlug, plan)
    {
      missionSlug := ResolveMissionSlug(deviceID);
      if missionSlug == "" {
        return;
      }
      if missionSlug in backlog {
        Overwrite(missionSlug, plan);
      }
      Emit(R.Publish(R.PlanReceived(missionSlug, plan)));
    }

    method HandleState(deviceID: string, reported: string, now: int) returns (missionSlug: string)
      requires Valid() && "" !in missions
      modifies this`missionView, this`effects, ds
      ensures Valid() && R.Scan(old(Model()), deviceID, missionSlug)
      ensures Model() == R.Report(old(Model()), deviceID, reported, missionSlug, now)
    {
      var drone: Drone?;
      missionSlug, drone := GetDrone(deviceID);
      if missionSlug == "" {
        return;
      }
      var lost := Tell(missionSlug, drone, deviceID, reported, now);
      if lost {
        Emit(R.Publish(R.DroneFailed(missionSlug, deviceID)));
      }
    }

    // -------------------------------------------------------------- serving

    method ServeRequest(e: R.Event) returns (reply: R.Reply)
      requires Valid() && Replies.IsRequest(e)
      modifies this, ms
      ensures Valid() && Grown() && Model() == R.Step(old(Model()), e) && reply == Replies.ReplyTo(old(Model()), e)
    {
      match e {
        case CreateMission(slug, made, name, keys, repoMade, survives, configured, cleaned) =>
          reply := CreateMission(slug, made, name, keys, repoMade, survives, configured, cleaned);
        case DeleteMission(slug, repoDeleted) =>
          reply := DeleteMission(slug, repoDeleted);
        case AssignDrone(slug, device, now, sent) =>
          reply := AssignDrone(slug, device, now, sent);
        case RemoveDrone(slug, device, push, sent) =>
          reply := RemoveDrone(slug, device, push, sent);
        case AddTask(slug, task, push) =>
          reply := AddTask(slug, task, push);
      }
    }

    method ServeTrust(e: R.Event)
      requires Valid() && Safety.Safe(Model()) && (e.DeviceSeen? || e.TrustMessage?)
      modifies this, ds
      ensures Valid() && Grown() && Model() == R.Step(old(Model()), e)
    {
      match e {
        case DeviceSeen(device, now) =>
          NoteSeen(device, now);
        case TrustMessage(device, key, push, sent) =>
          HandleTrust(device, key, push, sent);
      }
    }

    /** `done` tells what the scan for the device answered. */
    method ServePlan(device: string, plan: seq<R.PlanEntry>) returns (done: R.Event)
      requires Valid() && Safety.Safe(Model())
      modifies this`backlogView, this`effects, items
      ensures Valid() && done.PlanMessage? && done.device == device && done.plan == plan
      ensures R.Legal(old(Model()), done) && Model() == R.Step(old(Model()), done)
    {
      var found := HandlePlan(device, plan);
      done := R.PlanMessage(device, plan, found);
    }

    method ServeState(device: string, reported: string, now: int) returns (done: R.Event)
      requires Valid() && Safety.Safe(Model())
      modifies this`missionView, this`effects, ds
      ensures Valid() && done.StateMessage?
      ensures done.device == device && done.reported == reported && done.now == now
      ensures R.Legal(old(Model()), done) && Model() == R.Step(old(Model()), done)
    {
      var found := HandleState(device, reported, now);
      done := R.StateMessage(device, reported, found, now);
    }

    /** One request or message; `done` tells also what the scan for the device answered. */
    method Dispatch(e: R.Event) returns (done: R.Event, reply: Option<R.Reply>)
      requires Valid() && Safety.Safe(Model())
      modifies this, ms, ds, items
      ensures Valid() && Grown()
      ensures R.Legal(old(Model()), done) && Model() == R.Step(old(Model()), done)
      ensures Answers(e, done) && RepliesTo(old(Model()), done, reply)
    {
      done, reply := e, None;
      if e.DeviceSeen? || e.TrustMessage? {
        ServeTrust(e);
      } else if e.PlanMessage? {
        done := ServePlan(e.device, e.plan);
      } else if e.StateMessage? {
        done := ServeState(e.device, e.reported, e.now);
      } else {
        var told := ServeRequest(e);
        reply := Some(told);
      }
    }

    /** The same, again and again. */
    method Serve(e: R.Event) returns (done: R.Event, reply: Option<R.Reply>)
      requires Valid() && Safety.Safe(Model())
      modifies this, ms, ds, items
      ensures Valid() && Safety.Safe(Model()) && Grown()
      ensures R.Legal(old(Model()), done) && Model() == R.Step(old(Model()), done)
      ensures Answers(e, done) && RepliesTo(old(Model()), done, reply)
    {
      done, reply := Dispatch(e);
      Safety.SafeStep(old(Model()), done);
    }
  }

  /** What was done is what was asked for; only the answer of the scan for a device is added. */
  ghost predicate Answers(asked: R.Event, done: R.Event) {
    match asked
    case PlanMessage(device, plan, _) => done.PlanMessage? && done.device == device && done.plan == plan
    case StateMessage(device, reported, _, now) =>
      done.StateMessage? && done.device == device && done.reported == reported && done.now == now
    case _ => done == asked
  }

  /** A request is replied to, a message is not. */
  ghost predicate RepliesTo(st: R.State, done: R.Event, reply: Option<R.Reply>) {
    reply == if Replies.IsRequest(done) then Some(Replies.ReplyTo(st, done)) else None
  }

  /** Whatever arrives, in whatever order, the objects go through a run of exactly this, and each request is
      replied to. */
  method ServeAll(requests: seq<R.Event>)
    returns (service: Service, ghost states: seq<R.State>, done: seq<R.Event>, replies: seq<Option<R.Reply>>)
    ensures R.Run(states, done) && |done| == |requests| == |replies|
    ensures service.Valid() && service.Model() == states[|done|]
    ensures forall i | 0 <= i < |done| :: Answers(requests[i], done[i]) && RepliesTo(states[i], done[i], replies[i])
  {
    service := new Service();
    states, done, replies := [R.INITIAL], [], [];
    for i := 0 to |requests|
      invariant service.Valid() && Safety.Safe(service.Model())
      invariant fresh(service) && (forall m | m in service.ms :: fresh(m))
      invariant (forall d | d in service.ds :: fresh(d)) && forall b | b in service.items :: fresh(b)
      invariant |done| == |replies| == i && R.Run(states, done) && service.Model() == states[i]
      invariant forall j | 0 <= j < i :: Answers(requests[j], done[j]) && RepliesTo(states[j], done[j], replies[j])
    {
      var e, reply := service.Serve(requests[i]);
      R.RunGoesOn(states, done, e);
      states, done, replies := states + [service.Model()], done + [e], replies + [reply];
    }
  }
}
