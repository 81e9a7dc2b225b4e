/** What the server sends of its own accord, and whether the session had subscribed to it. */
module Subscriptions {
  import opened Prelude
  import opened Topics
  import opened Tasks
  import opened Store
  import opened Messages
  import opened ServerSession
  import opened ClientSession
  import opened Protocol
  import opened Links
  import opened Sent
  import Theorems

  /** Assignments on the task topic, cancels, and the session info. Everything else that a session
      publishes answers a frame of the client. */
  predicate Pushed(frame: Frame<Topic>) {
    frame.Publish?
    && ((frame.topic == OnTask && frame.payload.Assign?)
        || (frame.topic == OnControl && (frame.payload.TaskCancel? || frame.payload.SessionInfo?)))
  }

  // ----- any client

  /** A claim that is being pushed belongs to a session subscribed to the task topic. */
  predicate PushOk(s: Session) {
    s.pc.Publishing? && s.pc.pushed ==> OnTask in s.subscriptions
  }

  /** A cancel is due: by the signal of the slot's task, if none was sent yet, or by its timeout. */
  predicate CancelDue(sys: System, step: Step)
    requires Enabled(sys, step)
  {
    || (step.ServerAdvances? && sys.links[step.node].session.pc.Expired?)
    || (step.ServerSignaled?
        && var s, signal := sys.links[step.node].session, sys.links[step.node].signals[0];
           s.slot.Some? && signal.CancelTaskSignal? && signal.taskId == s.slot.value.taskId && !s.slot.value.cancelRequested)
  }

  lemma ReceivePushes(node: string, st: Store, s: Session, frame: Frame<Topic>, now: U64)
    requires s.pc.Select?
    ensures var e := Receive(node, st, s, frame, now);
            && PushOk(e.session) && s.subscriptions <= e.session.subscriptions
            && forall f | f in e.sent && Pushed(f) :: f.payload.SessionInfo? && OnControl in e.session.subscriptions
  {
    hide CatalogFromPb, RequeueIncompleteTasks, ClaimTask, UpdateNodeCommands, AcknowledgeTask, SubmitTaskResult;
  }

  lemma AdvancePushes(node: string, st: Store, s: Session, now: U64)
    requires InHandler(s) && PushOk(s)
    ensures var e := Advance(node, st, s, now);
            && PushOk(e.session) && e.session.subscriptions == s.subscriptions
            && (forall f | f in e.sent && Pushed(f) ::
                  if s.pc.Expired? then f.payload.TaskCancel? else f.topic == OnTask && OnTask in s.subscriptions)
            && (s.pc.Expired? ==> exists f :: f in e.sent && Pushed(f) && f.payload.TaskCancel?)
  {
    hide ClaimTask, RegisterNode;
    var e := Advance(node, st, s, now);
    if s.pc.Expired? { assert e.sent[0] in e.sent; }
  }

  lemma TicksPush(node: string, st: Store, s: Session, now: U64, signal: Signal)
    requires s.pc.Select?
    ensures var e := HeartbeatTick(node, st, s, now);
            PushOk(e.session) && e.session.subscriptions == s.subscriptions && forall f | f in e.sent :: !Pushed(f)
    ensures var (s', sent) := TakeSignal(s, signal);
            && PushOk(s') && s'.subscriptions == s.subscriptions
            && forall f | f in sent :: Pushed(f) && f.payload.TaskCancel?
  {
  }

  lemma SignalPushes(s: Session, signal: Signal)
    requires s.pc.Select?
    ensures TakeSignal(s, signal).1 != []
            <==> s.slot.Some? && signal.CancelTaskSignal? && signal.taskId == s.slot.value.taskId && !s.slot.value.cancelRequested
  {
  }

  ghost predicate PushesOk(sys: System) {
    forall node | node in sys.links :: PushOk(sys.links[node].session)
  }

  /** The exact condition: a step pushes something its session has not subscribed to if and only if a
      cancel is due and the control topic is not subscribed. */
  lemma StepPushes(sys: System, step: Step)
    requires Enabled(sys, step) && SessionStep(step) && PushOk(sys.links[step.node].session)
    ensures var s' := Apply(sys, step).links[step.node].session;
            && PushOk(s')
            && ((exists f :: f in FramesSent(sys, step) && Pushed(f) && f.topic !in s'.subscriptions)
                <==> CancelDue(sys, step) && OnControl !in s'.subscriptions)
  {
    hide Receive, Advance, HeartbeatTick, TakeSignal, Completed1, PushOk;
    var link := sys.links[step.node];
    match step
    case ServerHeartbeat(node, now) => TicksPush(node, sys.store, link.session, now, TryDispatch);
    case ServerReceives(node, now) => ReceivePushes(node, sys.store, link.session, link.toServer[0], now);
    case ServerAdvances(node, now) => AdvancePushes(node, sys.store, link.session, now);
    case ServerSignaled(node) =>
      TicksPush(node, sys.store, link.session, 0, link.signals[0]);
      SignalPushes(link.session, link.signals[0]);
      var sent := TakeSignal(link.session, link.signals[0]).1;
      if sent != [] { assert sent[0] in sent; }
  }

  lemma StepKeepsPushes(sys: System, step: Step)
    requires Enabled(sys, step) && PushesOk(sys)
    ensures PushesOk(Apply(sys, step))
  {
    hide Apply, Enabled;
    var sys' := Apply(sys, step);
    forall node | node in sys'.links ensures PushOk(sys'.links[node].session) {
      if SessionStep(step) && step.node == node {
        LinkOfOwnStep(sys, step, node);
        StepPushes(sys, step);
      } else { OtherSessions(sys, step, node); }
    }
  }

  lemma {:induction false} TraceKeepsPushes(from: System, steps: seq<Step>, sys: System)
    requires Trace(from, steps, sys) && PushesOk(from)
    ensures PushesOk(sys)
    decreases |steps|
  {
    hide Enabled, Apply, PushesOk;
    if steps != [] {
      StepKeepsPushes(from, steps[0]);
      TraceKeepsPushes(Apply(from, steps[0]), steps[1..], sys);
    }
  }

  /** Any client, any run: a session is pushed something it has not subscribed to if and only if a
      cancel is due while the control topic is not subscribed; assignments are never. */
  lemma PushedUnsubscribed(steps: seq<Step>, sys: System, step: Step)
    requires Trace(INIT, steps, sys) && Enabled(sys, step) && SessionStep(step)
    ensures step.node in Apply(sys, step).links
    ensures (exists f :: f in FramesSent(sys, step) && Pushed(f) && f.topic !in Apply(sys, step).links[step.node].session.subscriptions)
            <==> CancelDue(sys, step) && OnControl !in sys.links[step.node].session.subscriptions
  {
    hide Trace, Apply, FramesSent, Pushed, Enabled;
    TraceKeepsPushes(INIT, steps, sys);
    LinkOfOwnStep(sys, step, step.node);
    StepPushes(sys, step);
    if CancelDue(sys, step) { CancelKeepsSubscriptions(sys, step); }
  }

  lemma CancelKeepsSubscriptions(sys: System, step: Step)
    requires Enabled(sys, step) && SessionStep(step) && CancelDue(sys, step)
    ensures Apply(sys, step).links[step.node].session.subscriptions == sys.links[step.node].session.subscriptions
  {
    hide RegisterNode, ClaimTask;
  }

  // ----- the repository's client

  predicate Subscribed(s: Session) { OnTask in s.subscriptions && OnControl in s.subscriptions }

  /** The session has read nothing yet. */
  predicate Untouched(s: Session) {
    !s.registered && s.slot.None? && (s.pc.Select? || s.pc.Dispatching?)
  }

  /** The first frame on the connection is the subscription to both topics. */
  predicate FirstSubscribes(link: Link) {
    !link.session.pc.Closing? ==>
      || Subscribed(link.session)
      || (Untouched(link.session)
          && if link.toServer == [] then link.client == Greets(0) || link.client.Gone?
             else link.toServer[0] == Subscribe([OnTask, OnControl]))
  }

  lemma ReceiveSubscribes(node: string, st: Store, s: Session, now: U64)
    ensures Subscribed(Receive(node, st, s, Subscribe([OnTask, OnControl]), now).session)
  {
    assert OnTask in [OnTask, OnControl] && [OnTask, OnControl][1] == OnControl;
  }

  lemma UntouchedStep(node: string, st: Store, s: Session, now: U64, signal: Signal)
    requires Untouched(s)
    ensures s.pc.Select? ==> Untouched(HeartbeatTick(node, st, s, now).session) && Untouched(TakeSignal(s, signal).0)
    ensures InHandler(s) ==> Untouched(Advance(node, st, s, now).session)
  {
  }

  lemma SessionKeepsFirst(sys: System, step: Step)
    requires Enabled(sys, step) && SessionStep(step) && PushOk(sys.links[step.node].session)
    requires FirstSubscribes(sys.links[step.node])
    ensures FirstSubscribes(Apply(sys, step).links[step.node])
  {
    hide Receive, Advance, HeartbeatTick, TakeSignal, Completed1, PushOk, Untouched;
    var link := sys.links[step.node];
    match step
    case ServerHeartbeat(node, now) =>
      TicksPush(node, sys.store, link.session, now, TryDispatch);
      if !Subscribed(link.session) { UntouchedStep(node, sys.store, link.session, now, TryDispatch); }
    case ServerReceives(node, now) =>
      ReceivePushes(node, sys.store, link.session, link.toServer[0], now);
      ReceiveSubscribes(node, sys.store, link.session, now);
    case ServerAdvances(node, now) =>
      AdvancePushes(node, sys.store, link.session, now);
      if !Subscribed(link.session) { UntouchedStep(node, sys.store, link.session, now, TryDispatch); }
    case ServerSignaled(node) =>
      TicksPush(node, sys.store, link.session, 0, link.signals[0]);
      if !Subscribed(link.session) { UntouchedStep(node, sys.store, link.session, 0, link.signals[0]); }
  }

  lemma ClientKeepsFirst(sys: System, step: Step)
    requires Enabled(sys, step) && ClientStep(step) && FirstSubscribes(sys.links[step.node])
    ensures FirstSubscribes(Apply(sys, step).links[step.node])
  {
    hide ClientReceive, ProgressTick, Untouched;
  }

  ghost predicate FirstOk(sys: System) {
    PushesOk(sys) && forall node | node in sys.links :: FirstSubscribes(sys.links[node])
  }

  lemma StepKeepsFirst(sys: System, step: Step)
    requires Enabled(sys, step) && !step.Forge? && FirstOk(sys)
    ensures FirstOk(Apply(sys, step))
  {
    hide Apply, Enabled, PushOk, FirstSubscribes;
    var sys' := Apply(sys, step);
    StepKeepsPushes(sys, step);
    forall node | node in sys'.links ensures FirstSubscribes(sys'.links[node]) {
      if OwnStep(step, node) {
        LinkOfOwnStep(sys, step, node);
        if SessionStep(step) { SessionKeepsFirst(sys, step); } else { ClientKeepsFirst(sys, step); }
      } else {
        OtherLinks(sys, step, node);
        if step.Open? && step.node == node { FreshFirst(step.config); } else { OtherFirst(sys.links[node], sys'.links[node]); }
      }
    }
  }

  lemma FreshFirst(config: ClientConfig)
    ensures FirstSubscribes(Link(OPENED, [], [], [], config, Greets(0)))
  {
  }

  lemma OtherFirst(link: Link, link': Link)
    requires FirstSubscribes(link) && link' == link.(session := link'.session, signals := link'.signals)
    requires link'.session == link.session || link'.session.pc.Closing?
    ensures FirstSubscribes(link')
  {
  }

  lemma {:induction false} TraceKeepsFirst(from: System, steps: seq<Step>, sys: System)
    requires Trace(from, steps, sys) && NoForgery(steps) && FirstOk(from)
    ensures FirstOk(sys)
    decreases |steps|
  {
    hide Enabled, Apply, FirstOk;
    if steps != [] {
      StepKeepsFirst(from, steps[0]);
      TraceKeepsFirst(Apply(from, steps[0]), steps[1..], sys);
    }
  }

  /** With the repository's client nothing is ever pushed without a subscription. */
  lemma OwnClientSubscribesFirst(steps: seq<Step>, sys: System, step: Step)
    requires Trace(INIT, steps, sys) && NoForgery(steps) && Enabled(sys, step) && SessionStep(step)
    ensures step.node in Apply(sys, step).links
    ensures forall f | f in FramesSent(sys, step) && Pushed(f) :: f.topic in Apply(sys, step).links[step.node].session.subscriptions
  {
    hide Trace, Apply, FramesSent, Pushed;
    TraceKeepsFirst(INIT, steps, sys);
    PushedUnsubscribed(steps, sys, step);
    assert FirstSubscribes(sys.links[step.node]);
  }

  // ----- a client that does not subscribe

  lemma Extend(steps: seq<Step>, sys: System, step: Step) returns (steps': seq<Step>, sys': System)
    requires Trace(INIT, steps, sys) && Enabled(sys, step)
    ensures sys' == Apply(sys, step) && Trace(INIT, steps', sys')
  {
    sys' := Apply(sys, step);
    steps' := steps + [step];
    OneStep(sys, step);
    hide Apply, Enabled;
    Theorems.TraceThen(INIT, steps, sys, [step], sys');
  }

  lemma OneStep(sys: System, step: Step)
    requires Enabled(sys, step)
    ensures Trace(sys, [step], Apply(sys, step))
  {
    hide Apply;
    assert [step][1..] == [];
  }

  /** The client sends a frame, and the waiting session reads it. */
  lemma Feed(steps: seq<Step>, sys: System, node: string, frame: Frame<Topic>, now: U64) returns (steps': seq<Step>, sys': System)
    requires Trace(INIT, steps, sys) && Connected(sys, node)
    requires sys.links[node].session.pc.Select? && sys.links[node].toServer == []
    ensures Trace(INIT, steps', sys')
    ensures var link := sys.links[node]; var e := Receive(node, sys.store, link.session, frame, now);
            && sys'.store == e.store && sys'.notices == sys.notices
            && sys'.links == sys.links[node := link.(session := e.session, toClient := link.toClient + e.sent)]
  {
    hide Trace, Receive, Completed1;
    var steps1, sys1 := Extend(steps, sys, Forge(node, frame));
    assert sys1.links[node].toServer == [frame] && [frame][1..] == [];
    steps', sys' := Extend(steps1, sys1, ServerReceives(node, now));
    assert sys'.links == sys.links[node := sys'.links[node]];
  }

  /** A session without any subscription, registered and free, and one command to ask for. */
  lemma RegisteredUnsubscribed(node: string, command: PbCommandDescriptor) returns (steps: seq<Step>, sys: System)
    ensures Trace(INIT, steps, sys) && node in sys.links
    ensures sys.links[node].session == Session(Select, {}, true, None) && sys.links[node].toServer == [] && sys.links[node].signals == []
    ensures sys.store.tasks == map[] && sys.store.nextId == 1 && sys.notices == multiset{}
    ensures node in sys.store.nodes && sys.store.nodes[node].commands == [FromPb(command)]
  {
    hide Trace;
    steps, sys := [], INIT;
    InitTrace();
    steps, sys := Extend(steps, sys, Open(node, ClientConfig(node, "", "", 0, [])));
    steps, sys := Feed(steps, sys, node, Publish(OnHello, ClientHello(node, "", "", 0)), 0);
    assert sys.store == EMPTY;
    steps, sys := Extend(steps, sys, ServerAdvances(node, 0));
    steps, sys := Extend(steps, sys, ServerAdvances(node, 0));
    assert sys.links[node].session == Session(Select, {}, true, None);
    steps, sys := Feed(steps, sys, node, Publish(OnHello, CommandCatalog([command])), 0);
    assert CatalogFromPb([command]) == [FromPb(command)];
  }

  lemma InitTrace()
    ensures Trace(INIT, [], INIT)
  {
  }

  /** A task is queued for it. */
  lemma QueuedUnsubscribed(node: string, command: PbCommandDescriptor) returns (steps: seq<Step>, sys: System)
    ensures Trace(INIT, steps, sys) && node in sys.links && node in sys.store.nodes
    ensures sys.links[node].session == Session(Select, {}, true, None) && sys.links[node].toServer == [] && sys.links[node].signals == []
    ensures QueuedAt(sys.store, node, 1) && LeastQueued(sys.store, node, 0) == Some(1)
  {
    hide Trace;
    steps, sys := RegisteredUnsubscribed(node, command);
    var request := CreateTaskRequest(node, command.name, [], None);
    steps, sys := Extend(steps, sys, HttpCreate(request, TaskAudit("", None), 0));
    assert QueuedAt(sys.store, node, 1) && sys.store.nextId == 2;
  }

  /** Pulled, it is held. */
  lemma HoldsUnsubscribed(node: string, command: PbCommandDescriptor) returns (steps: seq<Step>, sys: System)
    ensures Trace(INIT, steps, sys) && node in sys.links
    ensures var link := sys.links[node];
            && link.session.pc.Select? && link.session.subscriptions == {} && link.signals == []
            && link.session.slot.Some? && link.session.slot.value.taskId == 1 && !link.session.slot.value.cancelRequested
    ensures ActiveAt(sys.store, node, 1)
  {
    hide Trace, LeastQueued;
    steps, sys := QueuedUnsubscribed(node, command);
    steps, sys := Feed(steps, sys, node, Publish(OnControl, TaskPullRequest(node, 1)), 0);
    steps, sys := Extend(steps, sys, ServerAdvances(node, 0));
    steps, sys := Extend(steps, sys, ServerAdvances(node, 0));
  }

  /** Canceled, its signal has arrived. */
  lemma SignaledUnsubscribed(node: string, command: PbCommandDescriptor, reason: Option<string>)
      returns (steps: seq<Step>, sys: System)
    ensures Trace(INIT, steps, sys) && Connected(sys, node)
    ensures var link := sys.links[node];
            && link.session.pc.Select? && link.session.subscriptions == {}
            && link.session.slot.Some? && link.session.slot.value.taskId == 1 && !link.session.slot.value.cancelRequested
            && link.signals != [] && link.signals[0].CancelTaskSignal? && link.signals[0].taskId == 1
  {
    hide Trace, CanceledRow;
    steps, sys := HoldsUnsubscribed(node, command);
    var row := CanceledRow(sys.store.tasks[1], reason, TaskAudit("", None), 0);
    steps, sys := Extend(steps, sys, HttpCancel(1, reason, TaskAudit("", None), 0));
    var notice := NotifyCancel(row.nodeId, 1, row.cancelReason);
    assert notice in sys.notices && row.nodeId == node by { CanceledNode(node, reason); }
    steps, sys := Extend(steps, sys, HttpNotify(notice));
  }

  lemma CanceledNode(node: string, reason: Option<string>)
    ensures forall row: TaskRow :: CanceledRow(row, reason, TaskAudit("", None), 0).nodeId == row.nodeId
  {
  }

  /** The condition is met: a client that says hello, reports a command and pulls, but never
      subscribes, is sent the cancel of the task it was given. */
  lemma CancelWithoutSubscription(node: string, command: PbCommandDescriptor, reason: Option<string>)
      returns (steps: seq<Step>, sys: System, step: Step)
    ensures Trace(INIT, steps, sys) && Enabled(sys, step) && SessionStep(step) && step.node == node
    ensures CancelDue(sys, step) && sys.links[node].session.subscriptions == {}
    ensures exists f :: f in FramesSent(sys, step) && Pushed(f) && f.payload.TaskCancel? && f.payload.taskId == 1
  {
    hide Trace;
    steps, sys := SignaledUnsubscribed(node, command, reason);
    step := ServerSignaled(node);
    var sent := FramesSent(sys, step);
    assert sent[0] in sent && Pushed(sent[0]);
  }
}
