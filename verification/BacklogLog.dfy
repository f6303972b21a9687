/**
 A mission's backlog against the tasks in its outbox, and the merge of a plan into it.
 */
module BacklogLog {
  import opened Options
  import opened Registry
  import opened Steps
  import opened Safety
  import opened LogReplay
  import opened Subsequences

  /** What a backlog item and a task line have in common. */
  datatype Body = Body(id: string, kind: string, payload: string)

  function ItemBody(item: Item): Body {
    Body(item.id, item.kind, item.payload)
  }

  function TaskBody(task: Task): Body {
    Body(task.id, task.kind, task.payload)
  }

  function Bodies(items: seq<Item>): seq<Body> {
    seq(|items|, i requires 0 <= i < |items| => ItemBody(items[i]))
  }

  function Created(log: seq<Message>): seq<Body> {
    if log == [] then []
    else
      var before := Created(log[..|log| - 1]);
      match log[|log| - 1]
      case TaskCreated(task) => before + [TaskBody(task)]
      case _ => before
  }

  lemma CreatedAppend(log: seq<Message>, msg: Message)
    ensures Created(log + [msg]) ==
            if msg.TaskCreated? then Created(log) + [TaskBody(msg.task)] else Created(log)
  {
  }

  // ---------------------------------------------------------------- plan merge

  /** `k` is the position of the last plan entry for `id`, or -1 when there is none. */
  ghost predicate LastFor(plan: seq<PlanEntry>, id: string, k: int) {
    && -1 <= k < |plan|
    && (k >= 0 ==> plan[k].id == id)
    && forall j | k < j < |plan| :: plan[j].id != id
  }

  lemma {:induction false} LastStatusIs(plan: seq<PlanEntry>, id: string, status: string, k: int)
    requires LastFor(plan, id, k)
    ensures LastStatus(plan, id, status) == if k < 0 then status else plan[k].status
  {
    if plan != [] && k < |plan| - 1 {
      LastStatusIs(plan[..|plan| - 1], id, status, k);
    }
  }

  /** A merge changes statuses only: each item gets the status of the last plan entry with its
      id and keeps its own when the plan does not mention it. */
  lemma MergeIs(items: seq<Item>, plan: seq<PlanEntry>, i: nat, k: int)
    requires i < |items| && LastFor(plan, items[i].id, k)
    ensures |Merge(items, plan)| == |items|
    ensures Merge(items, plan)[i].id == items[i].id
    ensures Merge(items, plan)[i].kind == items[i].kind && Merge(items, plan)[i].payload == items[i].payload
    ensures Merge(items, plan)[i].status == if k < 0 then items[i].status else plan[k].status
  {
    LastStatusIs(plan, items[i].id, items[i].status, k);
  }

  lemma MergeKeepsBodies(items: seq<Item>, plan: seq<PlanEntry>)
    ensures Bodies(Merge(items, plan)) == Bodies(items)
  {
  }

  // ---------------------------------------------------------------- backlog and outbox

  ghost predicate Recorded(st: State) {
    forall slug | slug in st.missions :: Subsequence(Bodies(ItemsOf(st, slug)), Created(Outbox(st, slug)))
  }

  /** The backlog is all of the tasks that the outbox announces. */
  ghost predicate Whole(st: State, slug: string) {
    Bodies(ItemsOf(st, slug)) == Created(Outbox(st, slug))
  }

  /** The line of a new item lands and the handler, told that it did not, does not list the item. */
  ghost predicate ForgetsTask(st: State, e: Event, slug: string) {
    Tasks(st, e, slug) && e.push.DeliveredWithError?
  }

  /** The mission is created over an outbox, left behind by an earlier one, that announces tasks. */
  ghost predicate RevivesTasks(st: State, e: Event, slug: string) {
    Creates(st, e, slug) && e.survives && Created(Outbox(st, slug)) != []
  }

  /** One of these was among the first `k` steps, and the mission has not been deleted since. */
  ghost predicate LostSince(states: seq<State>, events: seq<Event>, k: nat, slug: string)
    requires k <= |events| && |states| == |events| + 1
  {
    exists i :: 0 <= i < k && (ForgetsTask(states[i], events[i], slug) || RevivesTasks(states[i], events[i], slug))
                && forall m | i < m < k :: !Deletes(states[m], events[m], slug)
  }

  lemma LostStep(states: seq<State>, events: seq<Event>, k: nat, slug: string)
    requires k < |events| && |states| == |events| + 1
    ensures LostSince(states, events, k + 1, slug) <==>
            || ForgetsTask(states[k], events[k], slug)
            || RevivesTasks(states[k], events[k], slug)
            || (LostSince(states, events, k, slug) && !Deletes(states[k], events[k], slug))
  {
    if LostSince(states, events, k, slug) && !Deletes(states[k], events[k], slug) {
      var i :| 0 <= i < k && (ForgetsTask(states[i], events[i], slug) || RevivesTasks(states[i], events[i], slug))
               && forall m | i < m < k :: !Deletes(states[m], events[m], slug);
      assert forall m | i < m < k + 1 :: !Deletes(states[m], events[m], slug);
    }
  }

  lemma LostIsLive(states: seq<State>, events: seq<Event>, k: nat, slug: string)
    requires Run(states, events) && k <= |events| && LostSince(states, events, k, slug)
    ensures slug in states[k].missions
  {
    var i :| 0 <= i < k && (ForgetsTask(states[i], events[i], slug) || RevivesTasks(states[i], events[i], slug))
             && forall m | i < m < k :: !Deletes(states[m], events[m], slug);
    assert Follows(states, events, i);
    StepMissions(states[i], events[i], slug);
    StaysLive(states, events, i + 1, k, slug);
  }

  lemma NextItemBodies(st: State, e: Event, slug: string)
    requires slug in st.missions
    ensures Bodies(NextItems(st, e, slug)) ==
            if Tasks(st, e, slug) && e.push.Delivered? then Bodies(ItemsOf(st, slug)) + [TaskBody(e.task)]
            else Bodies(ItemsOf(st, slug))
  {
    if e.PlanMessage? {
      MergeKeepsBodies(ItemsOf(st, slug), e.plan);
    }
  }

  lemma TaskLine(st: State, e: Event, slug: string)
    ensures NewLine(st, e, slug).Some? && NewLine(st, e, slug).value.TaskCreated?
            <==> Tasks(st, e, slug) && !e.push.Lost?
    ensures Tasks(st, e, slug) && !e.push.Lost? ==> NewLine(st, e, slug).value.task == e.task
  {
  }

  lemma NextLogBodies(st: State, e: Event, slug: string)
    ensures Created(NextLog(st, e, slug)) ==
            if Tasks(st, e, slug) && !e.push.Lost? then Created(Outbox(st, slug)) + [TaskBody(e.task)]
            else Created(Outbox(st, slug))
  {
    TaskLine(st, e, slug);
    match NewLine(st, e, slug) {
      case None =>
      case Some(line) =>
        CreatedAppend(Outbox(st, slug), line);
        assert NextLog(st, e, slug) == Outbox(st, slug) + [line];
    }
  }

  lemma RecordedStep(st: State, e: Event)
    requires Stored(st) && Recorded(st)
    ensures Recorded(Step(st, e))
  {
    var st' := Step(st, e);
    forall slug | slug in st'.missions
      ensures Subsequence(Bodies(ItemsOf(st', slug)), Created(Outbox(st', slug)))
    {
      StepMissions(st, e, slug);
      if slug in st.missions {
        StepLog(st, e, slug);
        StepItems(st, e, slug);
        NextItemBodies(st, e, slug);
        NextLogBodies(st, e, slug);
        if Tasks(st, e, slug) {
          var body := TaskBody(e.task);
          KeepLast(Bodies(ItemsOf(st, slug)), Created(Outbox(st, slug)), body);
          SkipLast(Bodies(ItemsOf(st, slug)), Created(Outbox(st, slug)), body);
        }
      } else {
        assert Bodies(ItemsOf(st', slug)) == [];
        Empty(Created(Outbox(st', slug)));
      }
    }
  }

  lemma WholeStep(st: State, e: Event, slug: string)
    requires Stored(st) && Recorded(st) && slug in Step(st, e).missions
    ensures Whole(Step(st, e), slug) <==>
            if slug in st.missions then Whole(st, slug) && !ForgetsTask(st, e, slug) else !RevivesTasks(st, e, slug)
  {
    StepMissions(st, e, slug);
    if slug in st.missions {
      StepLog(st, e, slug);
      StepItems(st, e, slug);
      NextItemBodies(st, e, slug);
      NextLogBodies(st, e, slug);
      WholeAppend(Bodies(ItemsOf(st, slug)), Created(Outbox(st, slug)), NextTask(e));
    } else {
      assert Bodies([]) == [];
    }
  }

  function NextTask(e: Event): Body {
    if e.AddTask? then TaskBody(e.task) else Body("", "", "")
  }

  lemma WholeAppend(part: seq<Body>, whole: seq<Body>, x: Body)
    requires Subsequence(part, whole)
    ensures part + [x] == whole + [x] <==> part == whole
    ensures part != whole + [x]
  {
    var at :| Picks(part, whole, at);
    Shorter(part, whole, at);
    if part + [x] == whole + [x] {
      assert (part + [x])[..|part|] == part && (whole + [x])[..|whole|] == whole;
    }
  }

  /** In every run the backlog of a live mission is, item by item and in order, a part of the
      tasks its outbox announces. */
  lemma {:induction false} BacklogIsRecorded(states: seq<State>, events: seq<Event>, k: nat)
    requires Run(states, events) && k < |states|
    ensures Recorded(states[k])
  {
    if k > 0 {
      assert Follows(states, events, k - 1);
      BacklogIsRecorded(states, events, k - 1);
      SafeRun(states, events, k - 1);
      RecordedStep(states[k - 1], events[k - 1]);
    }
  }

  lemma WholeNext(states: seq<State>, events: seq<Event>, k: nat, slug: string)
    requires Run(states, events) && k < |events| && slug in states[k + 1].missions
    ensures Whole(states[k + 1], slug) <==>
            if slug in states[k].missions then Whole(states[k], slug) && !ForgetsTask(states[k], events[k], slug)
            else !RevivesTasks(states[k], events[k], slug)
  {
    assert Follows(states, events, k);
    SafeRun(states, events, k);
    BacklogIsRecorded(states, events, k);
    WholeStep(states[k], events[k], slug);
  }

  /** In every run and every live mission, whatever happens in others: the backlog is all of the tasks in the outbox if
      and only if since the mission was created no line of an item landed behind a reported error, and it was not
      created over an outbox that announced tasks. */
  lemma {:induction false} BacklogIsWhole(states: seq<State>, events: seq<Event>, k: nat, slug: string)
    requires Run(states, events) && k < |states| && slug in states[k].missions
    ensures Whole(states[k], slug) <==> !LostSince(states, events, k, slug)
  {
    assert Follows(states, events, k - 1);
    WholeNext(states, events, k - 1, slug);
    LostStep(states, events, k - 1, slug);
    StepMissions(states[k - 1], events[k - 1], slug);
    if slug in states[k - 1].missions {
      BacklogIsWhole(states, events, k - 1, slug);
    } else if LostSince(states, events, k - 1, slug) {
      LostIsLive(states, events, k - 1, slug);
    }
  }

  /** In a run without failures the backlog of every live mission is whole. */
  lemma WholeWithoutFailures(states: seq<State>, events: seq<Event>, k: nat, slug: string)
    requires Run(states, events) && k < |states| && slug in states[k].missions
    requires forall i | 0 <= i < k :: GoesThrough(events[i])
    ensures Whole(states[k], slug)
  {
    forall i | 0 <= i < k ensures !RevivesTasks(states[i], events[i], slug) && !ForgetsTask(states[i], events[i], slug) {
      NothingLeftBehind(states, events, i);
    }
    BacklogIsWhole(states, events, k, slug);
  }

  // ---------------------------------------------------------------- deleted missions

  lemma PlanFrozen(st: State, e: Event, slug: string)
    requires e.PlanMessage? && Legal(st, e) && slug !in st.missions && slug in st.backlog
    ensures slug in Step(st, e).backlog && Step(st, e).backlog[slug] == st.backlog[slug]
  {
  }

  lemma FrozenStep(st: State, e: Event, slug: string)
    requires slug !in st.missions && slug in st.backlog && Legal(st, e)
    ensures slug in Step(st, e).backlog
    ensures Step(st, e).backlog[slug] == if Creates(st, e, slug) then [] else st.backlog[slug]
  {
    if e.PlanMessage? {
      PlanFrozen(st, e, slug);
    }
  }

  /** From the deletion of a mission on, its backlog is frozen until the slug is created again. */
  lemma {:induction false} DeletedBacklogIsFrozen(states: seq<State>, events: seq<Event>, i: nat, j: nat, slug: string)
    requires Run(states, events) && i < j < |states| && Deletes(states[i], events[i], slug)
    requires forall m | i < m < j :: !Creates(states[m], events[m], slug)
    ensures slug !in states[j].missions && slug in states[j].backlog && slug in states[i].backlog
    ensures states[j].backlog[slug] == states[i].backlog[slug]
    decreases j
  {
    assert Follows(states, events, j - 1);
    SafeRun(states, events, j - 1);
    StepMissions(states[j - 1], events[j - 1], slug);
    if j > i + 1 {
      DeletedBacklogIsFrozen(states, events, i, j - 1, slug);
      SafeRun(states, events, i);
      FrozenStep(states[j - 1], events[j - 1], slug);
    }
  }
}
