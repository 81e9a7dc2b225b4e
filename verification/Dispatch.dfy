/** When exactly a session hands out a task, by push or by pull. */
module Dispatch {
  import opened Prelude
  import opened Topics
  import opened Store
  import opened Messages
  import opened ServerSession
  import Safety

  ghost predicate HasQueued(st: Store, node: string) {
    exists id: nat :: QueuedAt(st, node, id)
  }

  /** The claimed task is the oldest queued one of the node. */
  ghost predicate ClaimsOldest(st: Store, node: string, s: Session) {
    s.pc.Publishing? && QueuedAt(st, node, s.pc.task.taskId)
    && forall id: nat | QueuedAt(st, node, id) :: s.pc.task.taskId <= id
  }

  /** A push happens exactly when the session is registered, subscribed to its task topic and free,
      and a task is queued. */
  lemma PushExactly(node: string, st: Store, s: Session, now: U64)
    requires StoreOk(st) && s.pc.Dispatching?
    ensures var s' := Advance(node, st, s, now).session;
            && (s'.pc.Publishing? <==> s.registered && s.slot.None? && OnTask in s.subscriptions && HasQueued(st, node))
            && (s'.pc.Publishing? ==> s'.pc.pushed && ClaimsOldest(st, node, s'))
  {
    Safety.ClaimOutcomes(st, node, now);
  }

  /** A pull is answered with a task exactly when it names the session's node, asks for at least
      one, and the session is registered and free, and a task is queued; with one task then,
      whatever the limit, and with the empty response or an error otherwise. */
  lemma PullExactly(node: string, st: Store, s: Session, nodeId: string, limit: U32, now: U64)
    requires StoreOk(st) && s.pc.Select?
    ensures var e := ReceiveControl(node, st, s, TaskPullRequest(nodeId, limit), now);
            && (e.session.pc.Publishing? <==>
                  nodeId == node && limit > 0 && s.registered && s.slot.None? && HasQueued(st, node))
            && (e.session.pc.Publishing? ==> !e.session.pc.pushed && e.sent == [] && ClaimsOldest(st, node, e.session))
            && (!e.session.pc.Publishing? ==> e.sent == [Control(if nodeId != node then Error(PullNodeMismatch) else TaskPullResponse([]))])
  {
    Safety.ClaimOutcomes(st, node, now);
  }

  /** So a session that has subscribed to nothing still gets a task when it pulls: subscriptions
      matter for pushes only. */
  lemma PullIgnoresSubscriptions(node: string, st: Store, now: U64)
    requires StoreOk(st) && HasQueued(st, node)
    ensures var s := Session(Select, {}, true, None);
            var e := ReceiveControl(node, st, s, TaskPullRequest(node, 1), now);
            && e.session.pc.Publishing?
            && Advance(node, e.store, e.session, now).sent
               == [Control(TaskPullResponse([ToAssignment(e.session.pc.task, e.session.pc.serial)]))]
  {
    PullExactly(node, st, Session(Select, {}, true, None), node, 1, now);
  }
}
