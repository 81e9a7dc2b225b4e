/** How a session answers a frame: when exactly with which error, what a subscription changes, and
    that the repository's client is always understood. */
module Answers {
  import opened Prelude
  import opened Topics
  import opened Tasks
  import opened Store
  import opened Messages
  import opened ServerSession
  import opened ClientSession
  import opened Protocol
  import opened Links
  import opened Invariant
  import opened Tokens
  import opened Handshake
  import opened Sent
  import opened Records
  import Catalog

  // ----- any client

  /** The frame is one that error `e` is the answer to. */
  predicate Refused(node: string, st: Store, s: Session, frame: Frame<Topic>, e: NodeError) {
    frame.Publish?
    && var payload := frame.payload;
    match e
    case HelloNodeMismatch => frame.topic == OnHello && payload.ClientHello? && payload.nodeId != node
    case CatalogBeforeRegistration => frame.topic == OnHello && payload.CommandCatalog? && node !in st.nodes
    case HelloTopicPayload => frame.topic == OnHello && !payload.ClientHello? && !payload.CommandCatalog?
    case PullNodeMismatch => frame.topic == OnControl && payload.TaskPullRequest? && payload.nodeId != node
    case ControlTopicPayload =>
      frame.topic == OnControl
      && (payload.ClientHello? || payload.Assign? || payload.TaskResult? || payload.TaskAck? || payload.CommandCatalog? || payload.NoPayload?)
    case AckTopicPayload => frame.topic == OnAck && !payload.TaskAck?
    case AckWithoutTask => frame.topic == OnAck && payload.TaskAck? && s.slot.None?
    case UnexpectedAckId => frame.topic == OnAck && payload.TaskAck? && s.slot.Some? && s.slot.value.taskId != payload.taskId
    case ResultTopicPayload => frame.topic == OnResult && !payload.TaskResult?
    case ResultWithoutTask =>
      frame.topic == OnResult && payload.TaskResult? && s.slot.None? && Unfinished(st, payload.taskId)
    case UnexpectedResultId =>
      frame.topic == OnResult && payload.TaskResult? && s.slot.Some? && s.slot.value.taskId != payload.taskId
      && Unfinished(st, payload.taskId)
  }

  /** No such task, or one that still takes a result. */
  predicate Unfinished(st: Store, id: nat) {
    id !in st.tasks || st.tasks[id].status.Dispatched? || st.tasks[id].status.Running?
  }

  /** What refusing with `error`, and only that, looks like. */
  predicate AnswersWith(node: string, st: Store, s: Session, frame: Frame<Topic>, error: NodeError, e: Effect) {
    && (Publish(OnControl, Error(error)) in e.sent <==> Refused(node, st, s, frame, error))
    && (Refused(node, st, s, frame, error) ==> e == Effect(st, s, [Publish(OnControl, Error(error))]))
  }

  lemma HelloErrors(node: string, st: Store, s: Session, payload: Payload, now: U64, error: NodeError)
    ensures AnswersWith(node, st, s, Publish(OnHello, payload), error, ReceiveHello(node, st, s, payload, now))
  {
    hide RequeueIncompleteTasks, CatalogFromPb;
  }

  lemma ControlErrors(node: string, st: Store, s: Session, payload: Payload, now: U64, error: NodeError)
    ensures AnswersWith(node, st, s, Publish(OnControl, payload), error, ReceiveControl(node, st, s, payload, now))
  {
    hide ClaimTask;
  }

  lemma AckErrors(node: string, st: Store, s: Session, payload: Payload, now: U64, error: NodeError)
    ensures AnswersWith(node, st, s, Publish(OnAck, payload), error, ReceiveAck(node, st, s, payload, now))
  {
    hide AcknowledgeTask;
  }

  lemma ResultErrors(node: string, st: Store, s: Session, payload: Payload, now: U64, error: NodeError)
    ensures AnswersWith(node, st, s, Publish(OnResult, payload), error, ReceiveResult(node, st, s, payload, now))
  {
    hide SubmitTaskResult;
  }

  /** Each error is sent exactly for its frames, alone, and then nothing else happens. */
  lemma ErrorsExactly(node: string, st: Store, s: Session, frame: Frame<Topic>, now: U64, error: NodeError)
    requires s.pc.Select?
    ensures var e := Receive(node, st, s, frame, now);
            && (Publish(OnControl, Error(error)) in e.sent <==> Refused(node, st, s, frame, error))
            && (Refused(node, st, s, frame, error) ==>
                  e.store == st && e.session == s && e.sent == [Publish(OnControl, Error(error))])
  {
    hide ReceiveHello, ReceiveControl, ReceiveAck, ReceiveResult;
    if frame.Publish? {
      HelloErrors(node, st, s, frame.payload, now, error);
      ControlErrors(node, st, s, frame.payload, now, error);
      AckErrors(node, st, s, frame.payload, now, error);
      ResultErrors(node, st, s, frame.payload, now, error);
    }
  }

  /** A subscription adds its topics to those there are, and is acknowledged; the session info follows
      if and only if the control topic is among them now; and the session tries to dispatch. */
  lemma SubscriptionAnswered(node: string, st: Store, s: Session, topics: seq<Topic>, now: U64)
    ensures var e := Receive(node, st, s, Subscribe(topics), now);
            && e.store == st && e.session == s.(subscriptions := e.session.subscriptions, pc := Dispatching)
            && (forall t :: t in e.session.subscriptions <==> t in s.subscriptions || t in topics)
            && e.sent == (if OnControl in e.session.subscriptions then [SubAck, Publish(OnControl, SessionInfo)] else [SubAck])
  {
  }

  /** A hello for this node puts active tasks back into the queue, for that reason, before the node's
      row takes the data of the hello and the session is registered. */
  lemma HelloRegisters(node: string, st: Store, s: Session, hello: Payload, now: U64, later: U64)
    requires s.pc.Select? && hello.ClientHello? && hello.nodeId == node
    ensures var e1 := Receive(node, st, s, Publish(OnHello, hello), now);
            && InHandler(e1.session) && e1.sent == [] && e1.session.registered == s.registered
            && e1.store.nodes == st.nodes
            && (forall id | id in st.tasks && ActiveAt(st, node, id) && st.tasks[id].finishedAt.None? ::
                  id in e1.store.tasks && e1.store.tasks[id].status.Queued?
                  && e1.store.tasks[id].retryReason == Some("node re-registered"))
            && var e2 := Advance(node, e1.store, e1.session, later);
            && e2.session.registered && e2.session.pc.Dispatching? && e2.sent == []
            && e2.session.subscriptions == s.subscriptions && e2.session.slot == s.slot
            && OnlyNode(e1.store, e2.store, node) && node in e2.store.nodes
            && var row := e2.store.nodes[node];
            && row.hostname == hello.hostname && row.platform == hello.platform
            && AsU64(row.pollIntervalSecs) == hello.pollIntervalSecs && AsU64(row.lastSeen) == later
            && row.commands == (if node in st.nodes then st.nodes[node].commands else [])
            && (if node in st.nodes then row.registeredAt == st.nodes[node].registeredAt else AsU64(row.registeredAt) == later)
  {
    hide RequeuedRow;
    var e1 := Receive(node, st, s, Publish(OnHello, hello), now);
    forall id | id in st.tasks && ActiveAt(st, node, id) && st.tasks[id].finishedAt.None?
      ensures id in e1.store.tasks && e1.store.tasks[id].status.Queued? && e1.store.tasks[id].retryReason == Some("node re-registered")
    {
      RequeueRecords(st, node, REREGISTERED_REASON, id);
    }
    RegisterRecords(e1.store, e1.session.pc.reg, later);
  }

  /** When a session closes, the tasks it leaves active go back into the queue, for that reason, and
      only those; then the node may connect again. */
  lemma CloseRequeues(sys: System, node: string, id: nat)
    requires Inv(sys) && Enabled(sys, Close(node)) && id in sys.store.tasks
    ensures var sys', row := Apply(sys, Close(node)), sys.store.tasks[id];
            && node !in sys'.links && id in sys'.store.tasks
            && var row' := sys'.store.tasks[id];
            if row.nodeId == node && (row.status.Dispatched? || row.status.Running?)
            then row'.status.Queued? && row'.retryCount == row.retryCount + 1 && row'.retryReason == Some("node session closed")
                 && SameRequest(row, row')
            else row' == row
  {
    hide RequeuedRow, Requeueable;
    RequeueRecords(sys.store, node, CLOSED_REASON, id);
    assert RowOk(sys.store.tasks[id]);
  }

  // ----- the repository's client

  /** What the client ever sends: subscriptions, pings and their answers, its own hello and catalog,
      requests for one task, acks and results. */
  predicate OwnFrame(config: ClientConfig, frame: Frame<Topic>) {
    match frame
    case Publish(topic, payload) =>
      || (topic == OnHello && payload.ClientHello? && payload.nodeId == config.nodeId && payload.hostname == config.hostname
          && payload.platform == config.platform && payload.pollIntervalSecs == config.pollIntervalSecs)
      || (topic == OnHello && payload.CommandCatalog? && Describes(payload.commands, config))
      || (topic == OnControl && payload.TaskPullRequest? && payload.nodeId == config.nodeId && payload.limit == 1)
      || (topic == OnAck && payload.TaskAck?)
      || (topic == OnResult && payload.TaskResult?)
    case Subscribe(topics) => topics == [OnTask, OnControl]
    case PingReq(_) => true
    case PingResp(_) => true
    case _ => false
  }

  /** The catalog lists the configured commands in order, without their programs. */
  predicate Describes(catalog: seq<PbCommandDescriptor>, config: ClientConfig) {
    |catalog| == |config.commands|
    && forall i | 0 <= i < |catalog| ::
         catalog[i].name == config.commands[i].name && catalog[i].description == config.commands[i].description
         && catalog[i].defaultArgs == config.commands[i].defaultArgs && catalog[i].allowExtraArgs == config.commands[i].allowExtraArgs
  }

  predicate OwnFrames(config: ClientConfig, frames: seq<Frame<Topic>>) {
    forall f | f in frames :: OwnFrame(config, f)
  }

  /** The client opens by subscribing to both topics, saying hello, listing its commands and asking
      for one task, in this order. */
  lemma Opening(config: ClientConfig)
    ensures GREETINGS == 4 && Greeting(config, 0) == Subscribe([OnTask, OnControl])
    ensures Greeting(config, 1)
         == Publish(OnHello, ClientHello(config.nodeId, config.hostname, config.platform, config.pollIntervalSecs))
    ensures Greeting(config, 2).Publish? && Greeting(config, 2).topic == OnHello && Greeting(config, 2).payload.CommandCatalog?
            && Describes(Greeting(config, 2).payload.commands, config)
    ensures Greeting(config, 3) == Publish(OnControl, TaskPullRequest(config.nodeId, 1))
  {
  }

  lemma GreetingIsOwn(config: ClientConfig, k: nat)
    requires k < GREETINGS
    ensures OwnFrame(config, Greeting(config, k))
  {
  }

  lemma ReadIsOwn(config: ClientConfig, running: Option<RunningTask>, frame: Frame<Topic>, spawnError: Option<string>, elapsedMs: U64)
    ensures OwnFrames(config, ClientReceive(config, running, frame, spawnError, elapsedMs).sent)
  {
    hide StartCommand, Describes;
  }

  lemma ReportIsOwn(config: ClientConfig, running: RunningTask, durationMs: U64)
    requires running.exited.Some?
    ensures OwnFrames(config, ProgressTick(config, running, durationMs))
  {
    hide FinishedResult, Describes;
  }

  /** The row of a registered node holds its client's data. */
  predicate RowOf(st: Store, config: ClientConfig) {
    config.nodeId in st.nodes
    && var row := st.nodes[config.nodeId];
    row.hostname == config.hostname && row.platform == config.platform && AsU64(row.pollIntervalSecs) == config.pollIntervalSecs
  }

  predicate Introduced(st: Store, link: Link) {
    !link.session.pc.Closing? ==>
      && (link.session.pc.Registering? ==>
            var reg := link.session.pc.reg;
            reg.nodeId == link.config.nodeId && reg.hostname == link.config.hostname && reg.platform == link.config.platform
            && reg.pollIntervalSecs == link.config.pollIntervalSecs && reg.commands == [])
      && (link.session.registered ==> RowOf(st, link.config))
  }

  ghost predicate OwnInv(sys: System) {
    Catalog.CatalogInv(sys)
    && forall node | node in sys.links ::
         OwnFrames(sys.links[node].config, sys.links[node].toServer) && Introduced(sys.store, sys.links[node])
  }

  /** Names and numbers of a node change by its registration only. */
  predicate DataKept(st: Store, st': Store, node: string) {
    node in st.nodes ==>
      node in st'.nodes && st'.nodes[node].hostname == st.nodes[node].hostname
      && st'.nodes[node].platform == st.nodes[node].platform && st'.nodes[node].pollIntervalSecs == st.nodes[node].pollIntervalSecs
  }

  lemma ReceiveIntroduces(of: string, st: Store, s: Session, config: ClientConfig, frame: Frame<Topic>, now: U64)
    requires s.pc.Select? && config.nodeId == of && OwnFrame(config, frame)
    ensures var e := Receive(of, st, s, frame, now);
            && (forall node :: DataKept(st, e.store, node))
            && e.session.registered == s.registered
            && (e.session.pc.Registering? ==>
                  var reg := e.session.pc.reg;
                  reg.nodeId == of && reg.hostname == config.hostname && reg.platform == config.platform
                  && reg.pollIntervalSecs == config.pollIntervalSecs && reg.commands == [])
  {
    hide CatalogFromPb, RequeuedRow, Requeueable, ClaimedRow, AckedRow, FinishedRow, LeastQueued, Describes;
  }

  lemma AdvanceIntroduces(of: string, st: Store, s: Session, now: U64)
    requires InHandler(s)
    ensures var e := Advance(of, st, s, now);
            && (forall node | !(s.pc.Registering? && s.pc.reg.nodeId == node) :: DataKept(st, e.store, node))
            && !e.session.pc.Registering?
            && (e.session.registered <==> s.registered || s.pc.Registering?)
            && (s.pc.Registering? ==>
                  var reg := s.pc.reg;
                  reg.nodeId in e.store.nodes && e.store.nodes[reg.nodeId].hostname == reg.hostname
                  && e.store.nodes[reg.nodeId].platform == reg.platform
                  && AsU64(e.store.nodes[reg.nodeId].pollIntervalSecs) == reg.pollIntervalSecs)
  {
    hide ClaimedRow, LeastQueued;
  }

  lemma SessionStepOwn(sys: System, step: Step)
    requires OwnInv(sys) && Enabled(sys, step) && SessionStep(step)
    ensures var link' := Apply(sys, step).links[step.node];
            OwnFrames(link'.config, link'.toServer) && Introduced(Apply(sys, step).store, link')
    ensures forall node | node != step.node :: DataKept(sys.store, Apply(sys, step).store, node)
  {
    hide Catalog.CatalogInv, OwnFrame, Receive, Advance, HeartbeatTick, TakeSignal, Completed1;
    var of := step.node;
    var link, st := sys.links[of], sys.store;
    Catalog.LinkFacts(sys, of);
    match step
    case ServerHeartbeat(_, now) => Catalog.TicksNodes(of, st, link.session, now, TryDispatch); TicksHandshake(of, st, link.session, now, TryDispatch);
    case ServerSignaled(_) => Catalog.TicksNodes(of, st, link.session, 0, link.signals[0]); TicksHandshake(of, st, link.session, 0, link.signals[0]);
    case ServerAdvances(_, now) =>
      AdvanceIntroduces(of, st, link.session, now);
      assert link.session.pc.Registering? || DataKept(st, Advance(of, st, link.session, now).store, of);
    case ServerReceives(_, now) =>
      assert OwnFrame(link.config, link.toServer[0]);
      ReceiveIntroduces(of, st, link.session, link.config, link.toServer[0], now);
      assert DataKept(st, Receive(of, st, link.session, link.toServer[0], now).store, of);
  }

  lemma ClientStepOwn(sys: System, step: Step)
    requires OwnInv(sys) && Enabled(sys, step) && ClientStep(step)
    ensures var link' := Apply(sys, step).links[step.node];
            OwnFrames(link'.config, link'.toServer) && Introduced(Apply(sys, step).store, link')
  {
    hide Catalog.CatalogInv, OwnFrame, ClientReceive, ProgressTick, Greeting;
    var link := sys.links[step.node];
    match step
    case ClientGreets(_) => GreetingIsOwn(link.config, link.client.sent);
    case ClientReceives(_, spawnError, elapsedMs) =>
      ReadIsOwn(link.config, link.client.running, link.toClient[0], spawnError, elapsedMs);
    case ClientReports(_, durationMs) => ReportIsOwn(link.config, link.client.running.value, durationMs);
    case ClientHeartbeat(_, now) => assert OwnFrame(link.config, PingReq(now)) by { PingIsOwn(link.config, now); }
    case _ =>
  }

  lemma PingIsOwn(config: ClientConfig, now: U64)
    ensures OwnFrame(config, PingReq(now))
  {
  }

  lemma OtherOwn(sys: System, step: Step, node: string)
    requires OwnInv(sys) && Enabled(sys, step) && node in Apply(sys, step).links && !OwnStep(step, node)
    ensures var link' := Apply(sys, step).links[node];
            OwnFrames(link'.config, link'.toServer) && Introduced(Apply(sys, step).store, link')
  {
    hide Catalog.CatalogInv, OwnFrames, Apply, Enabled;
    OtherLinks(sys, step, node);
    if Connected(sys, node) { Catalog.LinkFacts(sys, node); }
    if step.Open? && step.node == node { FreshOwn(step.config); }
    else {
      if SessionStep(step) { SessionStepOwn(sys, step); assert DataKept(sys.store, Apply(sys, step).store, node); }
      else {
        if !step.ServerHeartbeat? && !step.ServerReceives? && !step.ServerAdvances? { Catalog.CommitNodes(sys, step); }
      }
    }
  }

  lemma FreshOwn(config: ClientConfig)
    ensures OwnFrames(config, []) && forall st :: Introduced(st, Link(OPENED, [], [], [], config, Greets(0)))
  {
  }

  lemma StepKeepsOwn(sys: System, step: Step)
    requires OwnInv(sys) && Enabled(sys, step) && !step.Forge?
    ensures OwnInv(Apply(sys, step))
  {
    hide Catalog.CatalogInv, OwnFrames, Introduced, Apply, Enabled;
    Catalog.StepKeepsCatalogs(sys, step);
    if SessionStep(step) { SessionStepOwn(sys, step); }
    if ClientStep(step) { ClientStepOwn(sys, step); }
    forall node | node in Apply(sys, step).links
      ensures var link' := Apply(sys, step).links[node];
              OwnFrames(link'.config, link'.toServer) && Introduced(Apply(sys, step).store, link')
    {
      if !OwnStep(step, node) { OtherOwn(sys, step, node); }
    }
  }

  lemma {:induction false} TraceKeepsOwn(from: System, steps: seq<Step>, sys: System)
    requires OwnInv(from) && Trace(from, steps, sys) && NoForgery(steps)
    ensures OwnInv(sys)
    decreases |steps|
  {
    hide OwnInv, Enabled, Apply;
    if steps != [] {
      StepKeepsOwn(from, steps[0]);
      TraceKeepsOwn(Apply(from, steps[0]), steps[1..], sys);
    }
  }

  lemma Introductions(steps: seq<Step>, sys: System)
    requires Trace(INIT, steps, sys) && NoForgery(steps)
    ensures OwnInv(sys)
  {
    Catalog.InitCatalogs();
    TraceKeepsOwn(INIT, steps, sys);
  }

  /** While a session of the repository's client is registered, the node's row holds what that client
      says of itself. */
  lemma RegisteredAsConfigured(steps: seq<Step>, sys: System, node: string)
    requires Trace(INIT, steps, sys) && NoForgery(steps) && Connected(sys, node) && sys.links[node].session.registered
    ensures node in sys.store.nodes
    ensures var row, config := sys.store.nodes[node], sys.links[node].config;
            row.hostname == config.hostname && row.platform == config.platform && AsU64(row.pollIntervalSecs) == config.pollIntervalSecs
  {
    hide Trace, Catalog.CatalogInv, OwnFrames;
    Introductions(steps, sys);
    Catalog.LinkFacts(sys, node);
    assert Introduced(sys.store, sys.links[node]);
  }

  lemma OthersSendNoError(sys: System, step: Step, frame: Frame<Topic>)
    requires Enabled(sys, step) && !step.ServerReceives? && frame in FramesSent(sys, step)
    ensures !(frame.Publish? && frame.payload.Error?)
  {
    hide ClaimTask, RegisterNode, RetryTask;
  }

  lemma ReceiveErrors(node: string, st: Store, s: Session, frame: Frame<Topic>, now: U64, sent: Frame<Topic>)
    requires s.pc.Select? && sent in Receive(node, st, s, frame, now).sent && sent.Publish? && sent.payload.Error?
    ensures Refused(node, st, s, frame, sent.payload.error)
  {
    hide RequeueIncompleteTasks, CatalogFromPb, ClaimTask, AcknowledgeTask, SubmitTaskResult;
  }

  /** The repository's client is never answered with an error, whatever else happens. */
  lemma NeverRefused(steps: seq<Step>, sys: System, step: Step, sent: Frame<Topic>)
    requires Trace(INIT, steps, sys) && NoForgery(steps) && Enabled(sys, step) && sent in FramesSent(sys, step)
    ensures !(sent.Publish? && sent.payload.Error?)
  {
    hide Trace, Catalog.CatalogInv, Receive, Introduced;
    if !step.ServerReceives? { OthersSendNoError(sys, step, sent); }
    else if sent.Publish? && sent.payload.Error? {
      Introductions(steps, sys);
      var node := step.node;
      var link := sys.links[node];
      Catalog.LinkFacts(sys, node);
      var frame := link.toServer[0];
      assert OwnFrame(link.config, frame);
      ReceiveErrors(node, sys.store, link.session, frame, step.now, sent);
      hide OwnInv;
      if Catalog.IsCatalog(frame) { CatalogKnown(sys, node, step.now); }
      else { HonestReply(sys, node); }
    }
  }

  lemma CatalogKnown(sys: System, node: string, now: U64)
    requires Catalog.CatalogInv(sys) && Enabled(sys, ServerReceives(node, now)) && Catalog.IsCatalog(sys.links[node].toServer[0])
    ensures node in sys.store.nodes
  {
    hide DrainInv;
    Catalog.LinkFacts(sys, node);
    assert Catalog.HelloAhead(sys.links[node], 0);
  }

  lemma HonestReply(sys: System, node: string)
    requires Catalog.CatalogInv(sys) && Connected(sys, node) && sys.links[node].session.pc.Select? && sys.links[node].toServer != []
    ensures ReplyOf(sys.links[node].toServer[0]) != [] ==>
              sys.links[node].session.slot.Some? && sys.links[node].session.slot.value.taskId == ReplyOf(sys.links[node].toServer[0])[0].taskId
  {
    hide Inv, LogFresh, LinkTokens, HandshakeOk, Catalog.CatalogsOk, Catalog.RowKnown, ReplyOf;
    assert LinkTokens(sys.links[node]);
    HeadReply(sys.links[node]);
  }
}
