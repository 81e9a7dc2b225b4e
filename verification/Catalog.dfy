/** The command catalog over whole runs: the repository's client is registered by the time its
    catalog is read, so the catalog is always accepted; and from then on, until the node connects
    again, the server accepts exactly the requests that client would start. */
module Catalog {
  import opened Prelude
  import opened Topics
  import opened Tasks
  import opened Store
  import opened Messages
  import opened ServerSession
  import opened ClientSession
  import opened Protocol
  import opened Links
  import opened Invariant
  import opened Tokens
  import opened Handshake
  import Safety

  predicate IsCatalog(frame: Frame<Topic>) {
    frame.Publish? && frame.topic == OnHello && frame.payload.CommandCatalog?
  }

  predicate Known(s: Session) { s.registered || s.pc.Registering? }

  /** A hello was received already, or is ahead of position `j`. */
  predicate HelloAhead(link: Link, j: nat) {
    Known(link.session)
    || exists i :: 0 <= i < j && i < |link.toServer| && IsHello(link.config.nodeId)(link.toServer[i])
  }

  predicate CatalogsOk(link: Link) {
    !link.session.pc.Closing? ==>
      && (link.session.pc.Registering? ==> link.session.pc.reg.commands == [])
      && forall j | 0 <= j < |link.toServer| && IsCatalog(link.toServer[j]) ::
           link.toServer[j] == Greeting(link.config, 2) && HelloAhead(link, j)
  }

  predicate RowKnown(st: Store, node: string, s: Session) {
    !s.pc.Closing? && s.registered ==> node in st.nodes
  }

  ghost predicate CatalogInv(sys: System) {
    DrainInv(sys)
    && forall node | node in sys.links :: CatalogsOk(sys.links[node]) && RowKnown(sys.store, node, sys.links[node].session)
  }

  /** The node is in the table, with this catalog. */
  predicate Stored(st: Store, node: string, catalog: seq<CommandDescriptor>) {
    node in st.nodes && st.nodes[node].commands == catalog
  }

  function CatalogOf(config: ClientConfig): seq<CommandDescriptor> {
    CatalogFromPb(AdvertisedCatalog(config))
  }

  // ----- the nodes table

  /** Nodes stay in the table, and their commands change by a catalog of the same node alone. */
  predicate NodeKept(st: Store, st': Store, node: string) {
    node in st.nodes ==> node in st'.nodes && st'.nodes[node].commands == st.nodes[node].commands
  }

  lemma HelloNodes(of: string, st: Store, s: Session, payload: Payload, now: U64, node: string)
    requires s.pc.Select?
    ensures var e := ReceiveHello(of, st, s, payload, now);
            && (e.session.pc.Registering? ==> e.session.pc.reg.commands == [])
            && if node == of && payload.CommandCatalog? && node in st.nodes
               then Stored(e.store, node, CatalogFromPb(payload.commands)) && e.session == s && e.sent == []
               else NodeKept(st, e.store, node)
  {
    hide CatalogFromPb, RequeuedRow, Requeueable;
  }

  lemma ControlNodes(of: string, st: Store, s: Session, payload: Payload, now: U64, node: string)
    requires s.pc.Select?
    ensures var e := ReceiveControl(of, st, s, payload, now);
            NodeKept(st, e.store, node) && !e.session.pc.Registering?
  {
    hide ClaimedRow, LeastQueued;
  }

  lemma RepliesNodes(of: string, st: Store, s: Session, payload: Payload, now: U64)
    requires s.pc.Select?
    ensures var e := ReceiveAck(of, st, s, payload, now); e.store.nodes == st.nodes && !e.session.pc.Registering?
    ensures var e := ReceiveResult(of, st, s, payload, now); e.store.nodes == st.nodes && !e.session.pc.Registering?
  {
    hide AckedRow, FinishedRow;
  }

  lemma ReceiveNodes(of: string, st: Store, s: Session, frame: Frame<Topic>, now: U64, node: string)
    requires s.pc.Select?
    ensures var e := Receive(of, st, s, frame, now);
            && (e.session.pc.Registering? ==> e.session.pc.reg.commands == [])
            && if node == of && IsCatalog(frame) && node in st.nodes
               then Stored(e.store, node, CatalogFromPb(frame.payload.commands)) && e.session == s && e.sent == []
               else NodeKept(st, e.store, node)
  {
    hide CatalogFromPb, ReceiveHello, ReceiveControl, ReceiveAck, ReceiveResult;
    if frame.Publish? {
      HelloNodes(of, st, s, frame.payload, now, node);
      ControlNodes(of, st, s, frame.payload, now, node);
      RepliesNodes(of, st, s, frame.payload, now);
    }
  }

  lemma AdvanceNodes(of: string, st: Store, s: Session, now: U64, node: string)
    requires InHandler(s) && (s.pc.Registering? ==> s.pc.reg.commands == [])
    ensures var e := Advance(of, st, s, now);
            && NodeKept(st, e.store, node)
            && (s.pc.Registering? ==> s.pc.reg.nodeId in e.store.nodes)
  {
    hide ClaimedRow, LeastQueued;
  }

  lemma TicksNodes(of: string, st: Store, s: Session, now: U64, signal: Signal)
    requires s.pc.Select?
    ensures HeartbeatTick(of, st, s, now).store.nodes == st.nodes
    ensures !HeartbeatTick(of, st, s, now).session.pc.Registering? && !TakeSignal(s, signal).0.pc.Registering?
  {
    hide RetriedRow;
  }

  lemma TaskNodes(st: Store, request: CreateTaskRequest, audit: TaskAudit, now: U64, id: nat, reason: Option<string>, node: string)
    ensures CreateTask(st, request, audit, now).0.nodes == st.nodes
    ensures CancelTask(st, id, reason, audit, now).0.nodes == st.nodes
    ensures RequeueIncompleteTasks(st, node, CLOSED_REASON).nodes == st.nodes
  {
    hide QueuedRow, CanceledRow, RequeuedRow, Requeueable, FindCommand;
  }

  lemma CommitNodes(sys: System, step: Step)
    requires Enabled(sys, step) && !step.ServerHeartbeat? && !step.ServerReceives? && !step.ServerAdvances?
    ensures Apply(sys, step).store.nodes == sys.store.nodes
  {
    hide ClientReceive, ProgressTick, TakeSignal, Receive, Advance, HeartbeatTick, Completed1, Greeting,
         CreateTask, CancelTask, RequeueIncompleteTasks;
    match step
    case HttpCreate(request, audit, now) => TaskNodes(sys.store, request, audit, now, 0, None, "");
    case HttpCancel(id, reason, audit, now) =>
      TaskNodes(sys.store, CreateTaskRequest("", "", [], None), audit, now, id, reason, "");
    case Close(node) => TaskNodes(sys.store, CreateTaskRequest("", "", [], None), TaskAudit("", None), 0, 0, None, node);
    case _ =>
  }

  // ----- links

  lemma {:induction false} Counted(frames: seq<Frame<Topic>>, p: Frame<Topic> -> bool)
    requires Count(frames, p) > 0
    ensures exists i :: 0 <= i < |frames| && p(frames[i])
  {
    if !p(frames[0]) {
      Counted(frames[1..], p);
      var i :| 0 <= i < |frames[1..]| && p(frames[1..][i]);
      assert p(frames[i + 1]);
    }
  }

  /** Frames of the client other than its catalog change nothing. */
  lemma SendKeeps(link: Link, sent: seq<Frame<Topic>>, client: ClientPhase, toClient: seq<Frame<Topic>>)
    requires CatalogsOk(link)
    requires forall frame | frame in sent && IsCatalog(frame) :: frame == Greeting(link.config, 2) && HelloAhead(link, |link.toServer|)
    ensures CatalogsOk(link.(toServer := link.toServer + sent, client := client, toClient := toClient))
  {
    hide IsHello, Greeting;
    var link' := link.(toServer := link.toServer + sent, client := client, toClient := toClient);
    if !link.session.pc.Closing? {
      forall j | 0 <= j < |link'.toServer| && IsCatalog(link'.toServer[j])
        ensures link'.toServer[j] == Greeting(link'.config, 2) && HelloAhead(link', j)
      {
        if j >= |link.toServer| { assert link'.toServer[j] in sent; }
        var k := if j < |link.toServer| then j else |link.toServer|;
        assert HelloAhead(link, k);
        if !Known(link.session) {
          var i :| 0 <= i < k && i < |link.toServer| && IsHello(link.config.nodeId)(link.toServer[i]);
          assert link'.toServer[i] == link.toServer[i];
        }
      }
    }
  }

  lemma GreetKeeps(link: Link, k: nat)
    requires CatalogsOk(link) && HandshakeOk(link) && link.client == Greets(k) && k < GREETINGS
    ensures CatalogsOk(link.(toServer := link.toServer + [Greeting(link.config, k)], client := AfterGreeting(k)))
  {
    if k == 2 && !link.session.pc.Closing? && !Known(link.session) { Counted(link.toServer, IsHello(link.config.nodeId)); }
    if !link.session.pc.Closing? { SendKeeps(link, [Greeting(link.config, k)], AfterGreeting(k), link.toClient); }
  }

  /** The client's phase after its greeting `k`. */
  function AfterGreeting(k: nat): ClientPhase { if k + 1 == GREETINGS then Looping(None) else Greets(k + 1) }

  lemma RepliesAreNoCatalogs(config: ClientConfig, running: Option<RunningTask>, frame: Frame<Topic>,
                             spawnError: Option<string>, elapsedMs: U64)
    ensures forall f | f in ClientReceive(config, running, frame, spawnError, elapsedMs).sent :: !IsCatalog(f)
  {
    hide StartCommand;
  }

  lemma ReportIsNoCatalog(config: ClientConfig, running: RunningTask, durationMs: U64)
    requires running.exited.Some?
    ensures forall f | f in ProgressTick(config, running, durationMs) :: !IsCatalog(f)
  {
    hide FinishedResult;
  }

  /** The head is read: whoever had a hello ahead of it still has, or the hello was the head. */
  lemma ReadKeeps(link: Link, s': Session, toClient: seq<Frame<Topic>>)
    requires CatalogsOk(link) && link.toServer != [] && !link.session.pc.Closing?
    requires s'.registered == link.session.registered && (Known(link.session) || IsHello(link.config.nodeId)(link.toServer[0]) ==> Known(s'))
    requires s'.pc.Registering? ==> s'.pc.reg.commands == []
    ensures CatalogsOk(link.(session := s', toServer := link.toServer[1..], toClient := toClient))
  {
    hide IsHello, Greeting;
    var link' := link.(session := s', toServer := link.toServer[1..], toClient := toClient);
    forall j | 0 <= j < |link'.toServer| && IsCatalog(link'.toServer[j])
      ensures link'.toServer[j] == Greeting(link'.config, 2) && HelloAhead(link', j)
    {
      assert link'.toServer[j] == link.toServer[j + 1] && HelloAhead(link, j + 1);
      if !Known(s') {
        var i :| 0 <= i < j + 1 && i < |link.toServer| && IsHello(link.config.nodeId)(link.toServer[i]);
        assert link'.toServer[i - 1] == link.toServer[i];
      }
    }
  }

  lemma SessionKeeps(link: Link, s': Session, signals: seq<Signal>, toClient: seq<Frame<Topic>>)
    requires CatalogsOk(link)
    requires s'.pc.Closing? || (!link.session.pc.Closing? && (Known(link.session) ==> Known(s'))
                                && (s'.pc.Registering? ==> s'.pc.reg.commands == []))
    ensures CatalogsOk(link.(session := s', signals := signals, toClient := toClient))
  {
    hide IsHello, Greeting;
    if !s'.pc.Closing? {
      forall j | 0 <= j < |link.toServer| && IsCatalog(link.toServer[j]) && !Known(s')
        ensures HelloAhead(link.(session := s', signals := signals, toClient := toClient), j)
      {
        assert HelloAhead(link, j);
      }
    }
  }

  // ----- system steps

  ghost predicate LinkCatalogs(sys: System, node: string) {
    node in sys.links ==> CatalogsOk(sys.links[node]) && RowKnown(sys.store, node, sys.links[node].session)
  }

  lemma SessionStepCatalogs(sys: System, step: Step)
    requires CatalogInv(sys) && Enabled(sys, step)
    requires SessionStep(step)
    ensures LinkCatalogs(Apply(sys, step), step.node)
    ensures forall node :: NodeKept(sys.store, Apply(sys, step).store, node)
                           || (step.ServerReceives? && step.node == node && IsCatalog(sys.links[node].toServer[0]))
  {
    hide DrainInv, CatalogsOk, Receive, Advance, HeartbeatTick, TakeSignal, Completed1, IsHello, IsCatalog;
    var of := step.node;
    var link, st := sys.links[of], sys.store;
    var s := link.session;
    LinkFacts(sys, of);
    var link' := Apply(sys, step).links[of];
    match step
    case ServerHeartbeat(_, now) =>
      TicksNodes(of, st, s, now, TryDispatch);
      TicksHandshake(of, st, s, now, TryDispatch);
      SessionKeeps(link, link'.session, link'.signals, link'.toClient);
    case ServerSignaled(_) =>
      TicksNodes(of, st, s, 0, link.signals[0]);
      TicksHandshake(of, st, s, 0, link.signals[0]);
      SessionKeeps(link, link'.session, link'.signals, link'.toClient);
    case ServerAdvances(_, now) =>
      forall node ensures NodeKept(st, Advance(of, st, s, now).store, node) { AdvanceNodes(of, st, s, now, node); }
      AdvanceNodes(of, st, s, now, of);
      AdvanceHandshake(of, st, s, now);
      SessionKeeps(link, link'.session, link'.signals, link'.toClient);
    case ServerReceives(_, now) =>
      var frame := link.toServer[0];
      forall node ensures NodeKept(st, Receive(of, st, s, frame, now).store, node) || (node == of && IsCatalog(frame)) {
        ReceiveNodes(of, st, s, frame, now, node);
      }
      ReceiveNodes(of, st, s, frame, now, of);
      ReceiveHandshake(of, st, s, frame, now);
      ReadKeeps(link, link'.session, link'.toClient);
  }

  lemma LinkFacts(sys: System, node: string)
    requires CatalogInv(sys) && Connected(sys, node)
    ensures var link := sys.links[node];
            && CatalogsOk(link) && RowKnown(sys.store, node, link.session) && HandshakeOk(link) && link.config.nodeId == node
            && (link.session.pc.Registering? ==> link.session.pc.reg.nodeId == node && link.session.pc.reg.commands == [])
            && !link.session.pc.Closing?
  {
    hide StoreOk, Fifo, LogOk, NoticesOk, HeldOk, ShapeOk, ActiveOk, CancelOk, WakeOk, SignalsOk, LinkTokens;
    assert SessionOk(sys.store, node, sys.links[node].session, sys.links[node].signals, sys.notices);
  }

  lemma ClientStepCatalogs(sys: System, step: Step)
    requires CatalogInv(sys) && Enabled(sys, step)
    requires ClientStep(step)
    ensures LinkCatalogs(Apply(sys, step), step.node)
  {
    hide FullInv, HandshakeOk, CatalogsOk, ClientReceive, ProgressTick, Greeting, IsCatalog;
    var link := sys.links[step.node];
    var link' := Apply(sys, step).links[step.node];
    assert CatalogsOk(link);
    assert link.toServer + [] == link.toServer;
    match step
    case ClientGreets(_) => GreetKeeps(link, link.client.sent);
    case ClientReceives(_, spawnError, elapsedMs) =>
      RepliesAreNoCatalogs(link.config, link.client.running, link.toClient[0], spawnError, elapsedMs);
      SendKeeps(link, ClientReceive(link.config, link.client.running, link.toClient[0], spawnError, elapsedMs).sent, link'.client, link'.toClient);
    case ClientReports(_, durationMs) =>
      ReportIsNoCatalog(link.config, link.client.running.value, durationMs);
      SendKeeps(link, ProgressTick(link.config, link.client.running.value, durationMs), link'.client, link.toClient);
    case ClientHeartbeat(_, now) =>
      PingIsNoCatalog(now);
      SendKeeps(link, [PingReq(now)], link'.client, link.toClient);
    case _ => SendKeeps(link, [], link'.client, link.toClient);
  }

  lemma PingIsNoCatalog(now: U64)
    ensures !IsCatalog(PingReq(now))
  {
  }

  lemma FreshCatalogs(config: ClientConfig)
    ensures CatalogsOk(Link(OPENED, [], [], [], config, Greets(0)))
  {
  }

  lemma StepKeepsCatalogs(sys: System, step: Step)
    requires CatalogInv(sys) && Enabled(sys, step) && !step.Forge?
    ensures CatalogInv(Apply(sys, step))
  {
    hide DrainInv, Apply, CatalogsOk;
    StepKeepsDrain(sys, step);
    if SessionStep(step) { SessionStepCatalogs(sys, step); }
    if ClientStep(step) { ClientStepCatalogs(sys, step); }
    var sys' := Apply(sys, step);
    NodesKept(sys, step);
    forall node | node in sys'.links ensures LinkCatalogs(sys', node) {
      if !OwnStep(step, node) {
        OtherLinks(sys, step, node);
        if step.Open? && step.node == node { FreshCatalogs(step.config); }
        else { UntouchedKeeps(sys.links[node], sys'.links[node]); }
      }
    }
  }

  lemma UntouchedKeeps(link: Link, link': Link)
    requires CatalogsOk(link) && link' == link.(session := link'.session, signals := link'.signals)
    requires link'.session == link.session || link'.session.pc.Closing?
    ensures CatalogsOk(link')
  {
    hide IsHello, Greeting, IsCatalog;
    if !link'.session.pc.Closing? { SessionKeeps(link, link'.session, link'.signals, link'.toClient); }
  }

  lemma NodesKept(sys: System, step: Step)
    requires CatalogInv(sys) && Enabled(sys, step)
    ensures forall node | node in sys.store.nodes :: node in Apply(sys, step).store.nodes
    ensures forall node :: NodeKept(sys.store, Apply(sys, step).store, node)
                           || (step.ServerReceives? && step.node == node && IsCatalog(sys.links[node].toServer[0]))
  {
    hide CatalogInv, Apply, IsCatalog;
    if step.ServerHeartbeat? || step.ServerAdvances? || step.ServerReceives? { SessionStepCatalogs(sys, step); }
    else { CommitNodes(sys, step); }
    forall node | node in sys.store.nodes ensures node in Apply(sys, step).store.nodes {
      if !NodeKept(sys.store, Apply(sys, step).store, node) { CatalogReceived(sys, node, step.now); }
    }
  }

  /** When a catalog is read the node is known: it is stored, and not answered with an error. */
  lemma CatalogReceived(sys: System, node: string, now: U64)
    requires CatalogInv(sys) && Enabled(sys, ServerReceives(node, now)) && IsCatalog(sys.links[node].toServer[0])
    ensures node in sys.links
    ensures var sys' := Apply(sys, ServerReceives(node, now));
            && Stored(sys'.store, node, CatalogOf(sys.links[node].config))
            && node in sys'.links && sys'.links[node].toClient == sys.links[node].toClient
  {
    hide DrainInv, Receive, Completed1, CatalogFromPb, AdvertisedCatalog;
    LinkFacts(sys, node);
    var link := sys.links[node];
    assert HelloAhead(link, 0) && link.toServer[0] == Greeting(link.config, 2);
    ReceiveNodes(node, sys.store, link.session, link.toServer[0], now, node);
    assert link.toClient + [] == link.toClient;
  }

  /** What the table says of the node is what its present client, if any, reports. */
  predicate Reported(sys: System, node: string, catalog: seq<CommandDescriptor>) {
    Stored(sys.store, node, catalog) && (node in sys.links ==> CatalogOf(sys.links[node].config) == catalog)
  }

  lemma StepKeepsReported(sys: System, step: Step, node: string, catalog: seq<CommandDescriptor>)
    requires CatalogInv(sys) && Enabled(sys, step) && !step.Forge? && !(step.Open? && step.node == node)
    requires Reported(sys, node, catalog)
    ensures Reported(Apply(sys, step), node, catalog)
  {
    hide CatalogInv, CatalogOf, Apply, IsCatalog;
    NodesKept(sys, step);
    if !NodeKept(sys.store, Apply(sys, step).store, node) { CatalogReceived(sys, node, step.now); }
    ConfigKept(sys, step, node);
  }

  lemma ConfigKept(sys: System, step: Step, node: string)
    requires Enabled(sys, step) && !(step.Open? && step.node == node)
    ensures node in Apply(sys, step).links ==>
              node in sys.links && Apply(sys, step).links[node].config == sys.links[node].config
  {
    if node in Apply(sys, step).links {
      if !OwnStep(step, node) { hide Apply, Enabled; OtherLinks(sys, step, node); }
      else { hide Receive, Advance, HeartbeatTick, TakeSignal, ClientReceive, ProgressTick, Completed1, Greeting; }
    }
  }

  lemma {:induction false} TraceKeepsCatalogs(from: System, steps: seq<Step>, sys: System)
    requires CatalogInv(from) && Trace(from, steps, sys) && NoForgery(steps)
    ensures CatalogInv(sys)
    decreases |steps|
  {
    hide CatalogInv, Enabled, Apply;
    if steps != [] {
      StepKeepsCatalogs(from, steps[0]);
      TraceKeepsCatalogs(Apply(from, steps[0]), steps[1..], sys);
    }
  }

  lemma {:induction false} TraceKeepsReported(from: System, steps: seq<Step>, sys: System, node: string, catalog: seq<CommandDescriptor>)
    requires CatalogInv(from) && Trace(from, steps, sys) && NoForgery(steps) && Reported(from, node, catalog)
    requires forall i | 0 <= i < |steps| :: !(steps[i].Open? && steps[i].node == node)
    ensures Reported(sys, node, catalog)
    decreases |steps|
  {
    hide CatalogInv, Enabled, Apply, Reported;
    if steps != [] {
      StepKeepsReported(from, steps[0], node, catalog);
      StepKeepsCatalogs(from, steps[0]);
      TraceKeepsReported(Apply(from, steps[0]), steps[1..], sys, node, catalog);
    }
  }

  lemma InitCatalogs()
    ensures CatalogInv(INIT)
  {
    Safety.InitOk();
  }

  /** Once the catalog of a client has been read, in whatever run, and until the node connects again,
      through further hellos, disconnects, crashes and everything other nodes do: the table holds
      this catalog, and a request for the node is accepted if and only if this client would start it. */
  lemma CatalogHolds(before: seq<Step>, mid: System, node: string, now: U64, after: seq<Step>, end: System,
                     request: CreateTaskRequest, audit: TaskAudit, at: U64, elapsedMs: U64)
    requires Trace(INIT, before, mid) && NoForgery(before)
    requires Enabled(mid, ServerReceives(node, now)) && IsCatalog(mid.links[node].toServer[0])
    requires Trace(Apply(mid, ServerReceives(node, now)), after, end) && NoForgery(after)
    requires forall i | 0 <= i < |after| :: !(after[i].Open? && after[i].node == node)
    ensures Stored(end.store, node, CatalogOf(mid.links[node].config))
    ensures Apply(mid, ServerReceives(node, now)).links[node].toClient == mid.links[node].toClient
    ensures request.nodeId == node ==>
              (CreateTask(end.store, request, audit, at).1.Created?
               <==> StartCommand(mid.links[node].config, request.commandName, request.args, None, elapsedMs).Started?)
  {
    hide CatalogInv, Apply, Enabled, IsCatalog, CreateTask, StartCommand;
    InitCatalogs();
    TraceKeepsCatalogs(INIT, before, mid);
    CatalogReceived(mid, node, now);
    StepKeepsCatalogs(mid, ServerReceives(node, now));
    var config := mid.links[node].config;
    var next := Apply(mid, ServerReceives(node, now));
    ConfigKept(mid, ServerReceives(node, now), node);
    TraceKeepsReported(next, after, end, node, CatalogOf(config));
    if request.nodeId == node { WhitelistAgreement(config, end.store, request, audit, at, elapsedMs); }
  }
}
