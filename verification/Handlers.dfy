/** The server's node session as the object it is: handlers that update the subscriptions, the
    registration flag and the in-flight slot in place, and call the database between sends. Each
    handler, undisturbed, does exactly the steps that `ServerSession` takes one by one. */
module Handlers {
  import opened Prelude
  import opened Topics
  import opened Tasks
  import opened Messages
  import opened ServerSession
  import Spec = Store
  import Tables = Database

  lemma RouteNames(node: string)
    ensures forall kind | kind != Elsewhere :: Route(node, TopicName(node, kind)) == kind
  {
    forall kind | kind != Elsewhere ensures Route(node, TopicName(node, kind)) == kind {
      RouteExact(node, TopicName(node, kind));
    }
  }

  lemma RouteAppend(node: string, frames: seq<Frame<string>>, frame: Frame<string>)
    ensures RouteFrames(node, frames + [frame]) == RouteFrames(node, frames) + [RouteFrame(node, frame)]
  {
  }

  lemma SubscribedExactly(node: string, topics: set<string>, kind: Topic)
    requires kind != Elsewhere
    ensures kind in RouteTopics(node, topics) <==> TopicName(node, kind) in topics
  {
    forall topic ensures Route(node, topic) == kind <==> topic == TopicName(node, kind) { RouteExact(node, topic); }
  }

  class NodeSession {
    const nodeId: string
    const db: Tables.Database
    var subscriptions: set<string>
    var registered: bool
    var inFlight: Option<InFlightTask>
    var sent: seq<Frame<string>>

    function View(pc: Pc): Session
      reads this
    {
      Session(pc, RouteTopics(nodeId, subscriptions), registered, inFlight)
    }

    /** Tables, session and everything sent so far, with the handler standing at `pc`. */
    function At(pc: Pc): Effect
      reads this, db
    {
      Effect(db.Contents(), View(pc), RouteFrames(nodeId, sent))
    }

    constructor (nodeId: string, db: Tables.Database)
      ensures this.nodeId == nodeId && this.db == db && View(Select) == OPENED && sent == []
    {
      this.nodeId, this.db := nodeId, db;
      subscriptions, registered, inFlight, sent := {}, false, None, [];
    }

    method Send(frame: Frame<string>)
      modifies this`sent
      ensures sent == old(sent) + [frame]
      ensures RouteFrames(nodeId, sent) == old(RouteFrames(nodeId, sent)) + [RouteFrame(nodeId, frame)]
    {
      RouteAppend(nodeId, sent, frame);
      sent := sent + [frame];
    }

    method SendControl(payload: Payload)
      modifies this`sent
      ensures RouteFrames(nodeId, sent) == old(RouteFrames(nodeId, sent)) + [Control(payload)]
    {
      RouteNames(nodeId);
      Send(Publish(TopicName(nodeId, OnControl), payload));
    }

    /** Publishes a claimed task and occupies the slot with it. */
    method PublishAndOccupy(task: PendingTask, pushed: bool, serial: nat, claimedAt: U64, clock: nat -> U64)
      modifies this
      ensures At(Select) == Settle(nodeId, old(At(Publishing(task, pushed, serial, claimedAt))), clock)
    {
      hide RouteFrames, RouteTopics, Route, TopicName;
      RouteNames(nodeId);
      ghost var e := At(Publishing(task, pushed, serial, claimedAt));
      SettleStep(nodeId, e, clock);
      if pushed { Send(Publish(TopicName(nodeId, OnTask), Assign(ToAssignment(task, serial)))); }
      else { SendControl(TaskPullResponse([ToAssignment(task, serial)])); }
      ghost var published := At(Assigning(task, serial, claimedAt));
      SettleStep(nodeId, published, clock);
      assert published.sent + [] == published.sent;
      inFlight := Some(InFlightTask(task.taskId, task.timeoutSecs, clock(1), false, false, serial, claimedAt));
      Settled(nodeId, At(Select), clock);
    }

    /** `try_dispatch_next_task`: claim, publish, occupy the slot. */
    method TryDispatchNextTask(clock: nat -> U64)
      requires db.Valid()
      modifies this, db
      ensures db.Valid() && At(Select) == Settle(nodeId, old(At(Dispatching)), clock)
    {
      hide RouteFrames, RouteTopics, Route, TopicName;
      ghost var before := At(Dispatching);
      SettleStep(nodeId, before, clock);
      assert before.sent + [] == before.sent;
      SubscribedExactly(nodeId, subscriptions, OnTask);
      if !registered || inFlight.Some? || TopicName(nodeId, OnTask) !in subscriptions {
        Settled(nodeId, At(Select), clock);
        return;
      }
      var outcome := db.ClaimTask(nodeId, clock(3));
      if outcome.Claimed? {
        var task := outcome.task;
        PublishAndOccupy(task, true, db.tasks[task.taskId].retryCount + 1, clock(3), clock);
      } else {
        Settled(nodeId, At(Select), clock);
      }
    }

    /** What a received frame leads to, undisturbed. */
    function Handled(frame: Frame<string>, clock: nat -> U64): Effect
      reads this, db
    {
      var e := Receive(nodeId, db.Contents(), View(Select), RouteFrame(nodeId, frame), clock(5));
      Settle(nodeId, Effect(e.store, e.session, RouteFrames(nodeId, sent) + e.sent), clock)
    }

    method RespondToTaskPull(request: Payload, clock: nat -> U64)
      requires request.TaskPullRequest? && db.Valid()
      modifies this, db
      ensures db.Valid()
      ensures At(Select) == old(Handled(Publish(TopicName(nodeId, OnControl), request), clock))
    {
      hide RouteFrames, RouteTopics, Route, TopicName;
      RouteNames(nodeId);
      ghost var before := RouteFrames(nodeId, sent);
      assert before + [] == before;
      if request.nodeId != nodeId {
        SendControl(Error(PullNodeMismatch));
        Settled(nodeId, At(Select), clock);
        return;
      }
      if Min(request.limit, MAX_TASK_PULL_RESPONSE_ITEMS) == 0 || !registered || inFlight.Some? {
        SendControl(TaskPullResponse([]));
        Settled(nodeId, At(Select), clock);
        return;
      }
      var outcome := db.ClaimTask(nodeId, clock(5));
      if outcome.Claimed? {
        var task := outcome.task;
        PublishAndOccupy(task, false, db.tasks[task.taskId].retryCount + 1, clock(5), clock);
      } else {
        SendControl(TaskPullResponse([]));
        Settled(nodeId, At(Select), clock);
      }
    }

    /** `handle_cancel_signal`. */
    method HandleCancelSignal(taskId: nat, reason: Option<string>, clock: nat -> U64)
      requires db.Valid()
      modifies this, db
      ensures db.Valid()
      ensures var (s, frames) := TakeSignal(old(View(Select)), CancelTaskSignal(taskId, reason));
              At(Select) == Settle(nodeId, Effect(old(db.Contents()), s, old(RouteFrames(nodeId, sent)) + frames), clock)
    {
      hide RouteFrames, RouteTopics;
      ghost var before := RouteFrames(nodeId, sent);
      assert before + [] == before;
      if inFlight.Some? && inFlight.value.taskId == taskId {
        if !inFlight.value.cancelRequested {
          SendControl(TaskCancel(taskId, reason, inFlight.value.serial));
          inFlight := Some(inFlight.value.(cancelRequested := true));
        }
        inFlight := Some(inFlight.value.(ignoreResult := true));
        Settled(nodeId, At(Select), clock);
        return;
      }
      TryDispatchNextTask(clock);
    }

    /** The heartbeat: `handle_in_flight_timeout`, then a ping. */
    method HeartbeatTick(clock: nat -> U64)
      requires db.Valid()
      modifies this, db
      ensures db.Valid()
      ensures var e := ServerSession.HeartbeatTick(nodeId, old(db.Contents()), old(View(Select)), clock(5));
              At(Select) == Settle(nodeId, Effect(e.store, e.session, old(RouteFrames(nodeId, sent)) + e.sent), clock)
    {
      hide RouteFrames, RouteTopics;
      var now := clock(5);
      ghost var before := RouteFrames(nodeId, sent);
      assert before + [] == before;
      if inFlight.Some? && inFlight.value.timeoutSecs.Some? && !inFlight.value.ignoreResult {
        var slot := inFlight.value;
        if now >= SaturatingAdd(slot.dispatchedAt, slot.timeoutSecs.value) {
          var _ := db.RetryTask(slot.taskId, nodeId, TIMEOUT_REASON);
          SettleStep(nodeId, At(Expired), clock);
          SendControl(TaskCancel(slot.taskId, Some(TIMEOUT_REASON), slot.serial));
          inFlight := Some(slot.(cancelRequested := true, ignoreResult := true));
          now := clock(1);
        }
      }
      Send(PingReq(now));
      Settled(nodeId, At(Select), clock);
    }

    method HandleClientHello(reg: NodeRegistration, clock: nat -> U64)
      requires db.Valid() && reg.nodeId == nodeId
      modifies this, db
      ensures db.Valid()
      ensures At(Select) == Settle(nodeId, old(Effect(Spec.RequeueIncompleteTasks(db.Contents(), nodeId, REREGISTERED_REASON),
                                                      View(Registering(reg)), RouteFrames(nodeId, sent))), clock)
    {
      hide RouteFrames, RouteTopics, Route, TopicName, Spec.RequeueIncompleteTasks;
      ghost var before := RouteFrames(nodeId, sent);
      assert before + [] == before;
      db.RequeueIncompleteTasks(nodeId, REREGISTERED_REASON);
      SettleStep(nodeId, At(Registering(reg)), clock);
      db.RegisterNode(reg, clock(4));
      registered := true;
      TryDispatchNextTask(clock);
    }

    method HandleHello(payload: Payload, clock: nat -> U64)
      requires db.Valid()
      modifies this, db
      ensures db.Valid()
      ensures At(Select) == old(Handled(Publish(TopicName(nodeId, OnHello), payload), clock))
    {
      RouteNames(nodeId);
      hide RouteFrames, RouteTopics, Route, TopicName, Spec.RequeueIncompleteTasks, Spec.UpdateNodeCommands, CatalogFromPb, Settle;
      ghost var before := RouteFrames(nodeId, sent);
      assert before + [] == before;
      match payload
      case ClientHello(id, hostname, platform, poll) =>
        if id != nodeId {
          SendControl(Error(HelloNodeMismatch));
          Settled(nodeId, At(Select), clock);
          return;
        }
        HandleClientHello(NodeRegistration(id, hostname, platform, poll, []), clock);
      case CommandCatalog(commands) =>
        var updated := db.UpdateNodeCommands(nodeId, CatalogFromPb(commands), clock(5));
        if !updated { SendControl(Error(CatalogBeforeRegistration)); }
        Settled(nodeId, At(Select), clock);
      case _ =>
        SendControl(Error(HelloTopicPayload));
        Settled(nodeId, At(Select), clock);
    }

    method HandleAck(payload: Payload, clock: nat -> U64)
      requires db.Valid()
      modifies this, db
      ensures db.Valid()
      ensures At(Select) == old(Handled(Publish(TopicName(nodeId, OnAck), payload), clock))
    {
      hide RouteFrames, RouteTopics, Route, TopicName;
      RouteNames(nodeId);
      ghost var before := RouteFrames(nodeId, sent);
      assert before + [] == before;
      if !payload.TaskAck? { SendControl(Error(AckTopicPayload)); }
      else if inFlight.None? { SendControl(Error(AckWithoutTask)); }
      else if inFlight.value.taskId != payload.taskId { SendControl(Error(UnexpectedAckId)); }
      else if !inFlight.value.ignoreResult {
        var _ := db.AcknowledgeTask(payload.taskId, nodeId, clock(5));
      }
      Settled(nodeId, At(Select), clock);
    }

    method HandleResult(payload: Payload, clock: nat -> U64)
      requires db.Valid()
      modifies this, db
      ensures db.Valid()
      ensures At(Select) == old(Handled(Publish(TopicName(nodeId, OnResult), payload), clock))
    {
      hide RouteFrames, RouteTopics, Route, TopicName;
      RouteNames(nodeId);
      ghost var before := RouteFrames(nodeId, sent);
      assert before + [] == before;
      if !payload.TaskResult? {
        SendControl(Error(ResultTopicPayload));
        Settled(nodeId, At(Select), clock);
        return;
      }
      if inFlight.None? || inFlight.value.taskId != payload.taskId {
        if !ShouldBeIgnored(db.Contents(), payload.taskId) {
          SendControl(Error(if inFlight.None? then ResultWithoutTask else UnexpectedResultId));
        }
        Settled(nodeId, At(Select), clock);
        return;
      }
      if !inFlight.value.ignoreResult {
        var _ := db.SubmitTaskResult(payload.taskId, nodeId, payload.result, clock(5));
      }
      inFlight := None;
      TryDispatchNextTask(clock);
    }

    /** `handle_publish`: tests the topic against the node's own, one after the other. */
    method HandlePublish(topic: string, payload: Payload, clock: nat -> U64)
      requires db.Valid()
      modifies this, db
      ensures db.Valid() && At(Select) == old(Handled(Publish(topic, payload), clock))
    {
      ghost var before := RouteFrames(nodeId, sent);
      assert before + [] == before;
      RouteNames(nodeId);
      hide RouteFrames, RouteTopics, TopicName, Receive;
      ghost var routed := RouteFrame(nodeId, Publish(topic, payload));
      if topic == TopicName(nodeId, OnHello) {
        HandleHello(payload, clock);
      } else if topic == TopicName(nodeId, OnControl) {
        if payload.TaskPullRequest? { RespondToTaskPull(payload, clock); }
        else {
          IgnoredControl(nodeId, At(Select), payload, clock);
          if !(payload.Error? || payload.TaskCancel? || payload.SessionInfo? || payload.TaskPullResponse?) {
            SendControl(Error(ControlTopicPayload));
          }
        }
      } else if topic == TopicName(nodeId, OnAck) {
        HandleAck(payload, clock);
      } else if topic == TopicName(nodeId, OnResult) {
        HandleResult(payload, clock);
      } else {
        assert Receive(nodeId, db.Contents(), View(Select), routed, clock(5)) == Effect(db.Contents(), View(Select), []) by {
          ElsewhereIgnored(nodeId, db.Contents(), View(Select), routed, clock(5));
        }
        Settled(nodeId, At(Select), clock);
      }
    }

    /** `handle_binary_message`. */
    method HandleBinaryMessage(frame: Frame<string>, clock: nat -> U64)
      requires db.Valid()
      modifies this, db
      ensures db.Valid() && At(Select) == old(Handled(frame, clock))
    {
      ghost var before := RouteFrames(nodeId, sent);
      assert before + [] == before;
      match frame
      case Subscribe(topics) => HandleSubscribe(topics, clock);
      case Publish(topic, payload) => HandlePublish(topic, payload, clock);
      case PingReq(unixSecs) =>
        Send(PingResp(unixSecs));
        Settled(nodeId, At(Select), clock);
      case _ => Settled(nodeId, At(Select), clock);
    }

    method AddSubscriptions(topics: seq<string>)
      modifies this`subscriptions
      ensures RouteTopics(nodeId, subscriptions)
              == old(RouteTopics(nodeId, subscriptions)) + set t | t in RouteFrame(nodeId, Subscribe(topics)).topics
    {
      var i := 0;
      while i < |topics|
        invariant 0 <= i <= |topics|
        invariant subscriptions == old(subscriptions) + set t | t in topics[..i]
      {
        subscriptions := subscriptions + {topics[i]};
        i := i + 1;
      }
      RoutedSubscribe(nodeId, old(subscriptions), topics);
    }

    method HandleSubscribe(topics: seq<string>, clock: nat -> U64)
      requires db.Valid()
      modifies this, db
      ensures db.Valid() && At(Select) == old(Handled(Subscribe(topics), clock))
    {
      ghost var before := RouteFrames(nodeId, sent);
      ghost var e := ReceiveSubscribe(db.Contents(), View(Select), RouteFrame(nodeId, Subscribe(topics)).topics);
      hide RouteFrames, RouteTopics, Route, TopicName, Settle;
      RouteNames(nodeId);
      AddSubscriptions(topics);
      assert e.session == View(Dispatching);
      Send(SubAck);
      SubscribedExactly(nodeId, subscriptions, OnControl);
      if TopicName(nodeId, OnControl) in subscriptions { SendControl(SessionInfo); }
      assert RouteFrames(nodeId, sent) == before + e.sent;
      TryDispatchNextTask(clock);
    }

    /** The end of `handle_node_socket`, after `remove_session`. */
    method CloseSession()
      requires db.Valid()
      modifies db
      ensures db.Valid() && db.Contents() == Spec.RequeueIncompleteTasks(old(db.Contents()), nodeId, CLOSED_REASON)
    {
      db.RequeueIncompleteTasks(nodeId, CLOSED_REASON);
    }
  }

  lemma IgnoredControl(node: string, e: Effect, payload: Payload, clock: nat -> U64)
    requires e.session.pc.Select? && !payload.TaskPullRequest?
    ensures var r := Receive(node, e.store, e.session, Publish(OnControl, payload), clock(5));
            && r.store == e.store && r.session == e.session
            && r.sent == if payload.Error? || payload.TaskCancel? || payload.SessionInfo? || payload.TaskPullResponse?
                         then [] else [Control(Error(ControlTopicPayload))]
    ensures forall sent :: Settle(node, Effect(e.store, e.session, sent), clock) == Effect(e.store, e.session, sent)
  {
  }

  lemma ElsewhereIgnored(node: string, st: Spec.Store, s: Session, frame: Frame<Topic>, now: U64)
    requires frame.Publish? && (frame.topic == OnTask || frame.topic == Elsewhere)
    ensures Receive(node, st, s, frame, now) == Effect(st, s, [])
  {
  }

  lemma RoutedSubscribe(node: string, before: set<string>, topics: seq<string>)
    ensures var after := before + set t | t in topics[..|topics|];
            RouteTopics(node, after)
            == RouteTopics(node, before) + set t | t in RouteFrame(node, Subscribe(topics)).topics
  {
    var routed := RouteFrame(node, Subscribe(topics)).topics;
    forall i | 0 <= i < |topics| ensures Route(node, topics[i]) in routed { assert routed[i] == Route(node, topics[i]); }
    forall t | t in routed ensures t in RouteTopics(node, before + set t | t in topics[..|topics|]) {
      var i :| 0 <= i < |routed| && routed[i] == t;
      assert topics[i] in topics[..|topics|];
    }
  }
}
