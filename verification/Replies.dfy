/** What a client is told: the reply to each request, in terms of what the request does. */
module Replies {
  import opened Registry
  import opened Steps

  predicate IsRequest(e: Event) {
    e.CreateMission? || e.DeleteMission? || e.AssignDrone? || e.RemoveDrone? || e.AddTask?
  }

  function ReplyTo(st: State, e: Event): Reply
    requires IsRequest(e)
  {
    match e
    case CreateMission(slug, made, name, keys, repoMade, survives, configured, cleaned) =>
      Create(st, slug, made, name, keys, repoMade, survives, configured, cleaned).reply
    case DeleteMission(slug, repoDeleted) => Delete(st, slug, repoDeleted).reply
    case AssignDrone(slug, device, now, sent) => Assign(st, slug, device, now, sent).reply
    case RemoveDrone(slug, device, push, sent) => Remove(st, slug, device, push, sent).reply
    case AddTask(slug, task, push) => Add(st, slug, task, push).reply
  }

  /** OK exactly when the mission comes to be; a server error when the slug was good and git failed. */
  lemma CreateReply(st: State, e: Event)
    requires e.CreateMission?
    ensures ReplyTo(st, e).OK? <==> Creates(st, e, e.slug)
    ensures ReplyTo(st, e).BadRequest? <==> e.slug == "" || e.made != e.slug || e.slug in st.missions
  {
  }

  /** Deleting is always OK, also when there is no such mission or its repository stays. */
  lemma DeleteReply(st: State, e: Event)
    requires e.DeleteMission?
    ensures ReplyTo(st, e).OK?
  {
  }

  /** OK exactly when the drone joins; a server error when only the command failed. */
  lemma AssignReply(st: State, e: Event)
    requires e.AssignDrone?
    ensures ReplyTo(st, e).OK? <==> Assigns(st, e, e.slug, e.device)
    ensures ReplyTo(st, e).ServerError? <==>
            e.slug in st.missions && SeenLately(st, e.device, e.now) && e.device !in st.index && !e.sent
  {
  }

  /** OK exactly when the drone leaves; a server error when the line was published and the command failed, but a bad
      request when publishing reported an error. */
  lemma RemoveReply(st: State, e: Event)
    requires e.RemoveDrone?
    ensures ReplyTo(st, e).OK? <==> Removes(st, e, e.slug, e.device)
    ensures ReplyTo(st, e).ServerError? <==> Unlists(st, e, e.slug) && e.push.Delivered? && !e.sent
  {
  }

  /** OK exactly when the item is listed; a server error when publishing reported an error. */
  lemma TaskReply(st: State, e: Event)
    requires e.AddTask?
    ensures ReplyTo(st, e).OK? <==> Tasks(st, e, e.slug) && e.push.Delivered?
    ensures ReplyTo(st, e).ServerError? <==> Tasks(st, e, e.slug) && !e.push.Delivered?
  {
  }
}
