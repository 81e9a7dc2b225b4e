/** The whole system: the tables, one link per connected node (session, signal queue, the two
    directions of the connection, client), the HTTP handlers that have committed but not yet
    notified, and every step any of them can take. Steps of different parts interleave freely.

    A node has at most one link: a new connection is served only after the previous session of the
    same node has finished its closing requeue, or the server has restarted. */
module Protocol {
  import opened Prelude
  import opened Topics
  import opened Tasks
  import opened Store
  import opened Messages
  import opened ServerSession
  import opened ClientSession

  /** `Greets(k)`: k of the frames before the loop are sent. `Gone`: the client has left, but what
      it sent may still be read by the server. */
  datatype ClientPhase = Greets(sent: nat) | Looping(running: Option<RunningTask>) | Gone

  datatype Link = Link(
    session: Session, signals: seq<Signal>,
    toClient: seq<Frame<Topic>>, toServer: seq<Frame<Topic>>,
    config: ClientConfig, client: ClientPhase)

  /** An HTTP handler between its commit and its notification. */
  datatype Notice = NotifyNode(node: string) | NotifyCancel(node: string, taskId: nat, reason: Option<string>)

  /** One entry per row that became Succeeded or Failed: the serial of the result message that did
      it, and the serial of the dispatch that was open in the table. */
  datatype Completion = Completion(node: string, taskId: nat, serial: nat, open: nat)

  datatype System = System(
    store: Store, links: map<string, Link>, notices: multiset<Notice>, log: seq<Completion>)

  const INIT := System(EMPTY, map[], multiset{}, [])

  datatype Step =
    // connection life cycle and clocks
    | Open(node: string, config: ClientConfig)
    | Break(node: string)
    | Close(node: string)
    | Crash
    | ClientLeaves(node: string)
    | ServerHeartbeat(node: string, now: U64)
    | ClientHeartbeat(node: string, now: U64)
    // HTTP handlers
    | HttpCreate(request: CreateTaskRequest, audit: TaskAudit, now: U64)
    | HttpCancel(id: nat, reason: Option<string>, audit: TaskAudit, now: U64)
    | HttpNotify(notice: Notice)
    // the server session
    | ServerReceives(node: string, now: U64)
    | ServerSignaled(node: string)
    | ServerAdvances(node: string, now: U64)
    // the client
    | ClientGreets(node: string)
    | ClientReceives(node: string, spawnError: Option<string>, elapsedMs: U64)
    | ProcessExits(node: string, exit: ProcessExit)
    | ClientReports(node: string, durationMs: U64)
    // a client that does not follow the protocol
    | Forge(node: string, frame: Frame<Topic>)

  predicate Connected(sys: System, node: string) {
    node in sys.links && !sys.links[node].session.pc.Closing?
  }

  predicate Enabled(sys: System, step: Step) {
    match step
    case Open(node, config) => node !in sys.links && config.nodeId == node
    case Break(node) => Connected(sys, node)
    case Close(node) => node in sys.links && sys.links[node].session.pc.Closing?
    case Crash => true
    case ClientLeaves(node) => node in sys.links && !sys.links[node].client.Gone?
    case ServerHeartbeat(node, _) => Connected(sys, node) && sys.links[node].session.pc.Select?
    case ClientHeartbeat(node, _) => node in sys.links && sys.links[node].client.Looping?
    case HttpCreate(_, _, _) => true
    case HttpCancel(_, _, _, _) => true
    case HttpNotify(notice) => notice in sys.notices
    case ServerReceives(node, _) => Connected(sys, node) && sys.links[node].session.pc.Select? && sys.links[node].toServer != []
    case ServerSignaled(node) => Connected(sys, node) && sys.links[node].session.pc.Select? && sys.links[node].signals != []
    case ServerAdvances(node, _) => Connected(sys, node) && InHandler(sys.links[node].session)
    case ClientGreets(node) => node in sys.links && sys.links[node].client.Greets? && sys.links[node].client.sent < GREETINGS
    case ClientReceives(node, _, _) => node in sys.links && sys.links[node].client.Looping? && sys.links[node].toClient != []
    case ProcessExits(node, _) =>
      node in sys.links && sys.links[node].client.Looping? && sys.links[node].client.running.Some?
      && sys.links[node].client.running.value.exited.None?
    case ClientReports(node, _) =>
      node in sys.links && sys.links[node].client.Looping? && sys.links[node].client.running.Some?
      && sys.links[node].client.running.value.exited.Some?
    case Forge(node, _) => node in sys.links
  }

  function PutLink(sys: System, node: string, link: Link): System {
    sys.(links := sys.links[node := link])
  }

  function PutEffect(sys: System, node: string, link: Link, e: Effect): System {
    sys.(store := e.store,
         links := sys.links[node := link.(session := e.session, toClient := link.toClient + e.sent)])
  }

  /** What a received frame adds to the log: its task, if its row was active and is completed now. */
  function Completed1(node: string, st: Store, st': Store, frame: Frame<Topic>): seq<Completion> {
    if frame.Publish? && frame.payload.TaskResult? then
      var id := frame.payload.taskId;
      if id in st.tasks && id in st'.tasks && !Completed(st.tasks[id]) && Completed(st'.tasks[id])
      then [Completion(node, id, frame.payload.serial, st.tasks[id].retryCount + 1)] else []
    else []
  }

  function Deliver(sys: System, notice: Notice): System {
    if !Connected(sys, notice.node) then sys
    else
      var link := sys.links[notice.node];
      var signal := if notice.NotifyNode? then TryDispatch else CancelTaskSignal(notice.taskId, notice.reason);
      PutLink(sys, notice.node, link.(signals := link.signals + [signal]))
  }

  function Apply(sys: System, step: Step): System
    requires Enabled(sys, step)
  {
    match step
    case Open(node, config) => PutLink(sys, node, Link(OPENED, [], [], [], config, Greets(0)))
    case Break(node) =>
      var link := sys.links[node];
      PutLink(sys, node, link.(session := link.session.(pc := Closing)))
    case Close(node) =>
      sys.(store := RequeueIncompleteTasks(sys.store, node, CLOSED_REASON), links := sys.links - {node})
    case Crash => sys.(links := map[], notices := multiset{})
    case ClientLeaves(node) => PutLink(sys, node, sys.links[node].(client := Gone))
    case ServerHeartbeat(node, now) =>
      var link := sys.links[node];
      PutEffect(sys, node, link, HeartbeatTick(node, sys.store, link.session, now))
    case ClientHeartbeat(node, now) =>
      var link := sys.links[node];
      PutLink(sys, node, link.(toServer := link.toServer + [PingReq(now)]))
    case HttpCreate(request, audit, now) =>
      var (st, outcome) := CreateTask(sys.store, request, audit, now);
      if outcome.Created? then sys.(store := st, notices := sys.notices + multiset{NotifyNode(request.nodeId)}) else sys
    case HttpCancel(id, reason, audit, now) =>
      var (st, outcome) := CancelTask(sys.store, id, reason, audit, now);
      if outcome.CanceledTask?
      then sys.(store := st, notices := sys.notices + multiset{NotifyCancel(outcome.row.nodeId, id, outcome.row.cancelReason)})
      else sys
    case HttpNotify(notice) => Deliver(sys.(notices := sys.notices - multiset{notice}), notice)
    case ServerReceives(node, now) =>
      var link := sys.links[node];
      var frame := link.toServer[0];
      var e := Receive(node, sys.store, link.session, frame, now);
      PutEffect(sys, node, link.(toServer := link.toServer[1..]), e)
        .(log := sys.log + Completed1(node, sys.store, e.store, frame))
    case ServerSignaled(node) =>
      var link := sys.links[node];
      var (session, sent) := TakeSignal(link.session, link.signals[0]);
      PutEffect(sys, node, link.(signals := link.signals[1..]), Effect(sys.store, session, sent))
    case ServerAdvances(node, now) =>
      var link := sys.links[node];
      PutEffect(sys, node, link, Advance(node, sys.store, link.session, now))
    case ClientGreets(node) =>
      var link := sys.links[node];
      var k := link.client.sent;
      PutLink(sys, node, link.(toServer := link.toServer + [Greeting(link.config, k)],
                               client := if k + 1 == GREETINGS then Looping(None) else Greets(k + 1)))
    case ClientReceives(node, spawnError, elapsedMs) =>
      var link := sys.links[node];
      var e := ClientReceive(link.config, link.client.running, link.toClient[0], spawnError, elapsedMs);
      PutLink(sys, node, link.(toClient := link.toClient[1..], toServer := link.toServer + e.sent, client := Looping(e.running)))
    case ProcessExits(node, exit) =>
      var link := sys.links[node];
      PutLink(sys, node, link.(client := Looping(Some(link.client.running.value.(exited := Some(exit))))))
    case ClientReports(node, durationMs) =>
      var link := sys.links[node];
      PutLink(sys, node, link.(toServer := link.toServer + ProgressTick(link.config, link.client.running.value, durationMs),
                               client := Looping(None)))
    case Forge(node, frame) =>
      var link := sys.links[node];
      PutLink(sys, node, link.(toServer := link.toServer + [frame]))
  }

  /** The node a step is about. A cancel that is refused and a crash are about none. */
  function StepNode(sys: System, step: Step): Option<string> {
    match step
    case Crash => None
    case HttpCreate(request, _, _) => Some(request.nodeId)
    case HttpCancel(id, _, _, _) =>
      if id in sys.store.tasks && !Terminal(sys.store.tasks[id]) then Some(sys.store.tasks[id].nodeId) else None
    case HttpNotify(notice) => Some(notice.node)
    case _ => Some(step.node)
  }

  /** `steps` can be taken from `sys`, one after the other, and end in `sys'`. */
  predicate Trace(sys: System, steps: seq<Step>, sys': System)
    decreases |steps|
  {
    if steps == [] then sys' == sys
    else Enabled(sys, steps[0]) && Trace(Apply(sys, steps[0]), steps[1..], sys')
  }

  /** Every client is the repository's own. */
  predicate NoForgery(steps: seq<Step>) {
    forall i | 0 <= i < |steps| :: !steps[i].Forge?
  }
}
