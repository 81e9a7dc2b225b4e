/** One node session of the server, cut into steps at every point where another task of the
    server can run: between any two accesses to the database, and between a claim, the publish
    that follows and the assignment of the in-flight slot. */
module ServerSession {
  import opened Prelude
  import opened Topics
  import opened Tasks
  import opened Store
  import opened Messages

  datatype Signal = TryDispatch | CancelTaskSignal(taskId: nat, reason: Option<string>)

  /** `serial` and `claimedAt` (the clock reading of the claim) are bookkeeping, see `Messages`. */
  datatype InFlightTask = InFlightTask(
    taskId: nat, timeoutSecs: Option<U64>, dispatchedAt: U64,
    cancelRequested: bool, ignoreResult: bool, serial: nat, claimedAt: U64)

  /** Where a handler stands. `Select` is the `select!` of the loop; `Closing` follows `break` and
      `remove_session`, with only the closing requeue left to do. */
  datatype Pc =
    | Select
    | Registering(reg: NodeRegistration)
    | Dispatching
    | Publishing(task: PendingTask, pushed: bool, serial: nat, claimedAt: U64)
    | Assigning(task: PendingTask, serial: nat, claimedAt: U64)
    | Expired
    | Closing

  datatype Session = Session(
    pc: Pc, subscriptions: set<Topic>, registered: bool, slot: Option<InFlightTask>)

  /** The locals of `handle_node_socket` when it enters the loop. */
  const OPENED := Session(Select, {}, false, None)

  /** The tables, the session and the frames sent by one step. */
  datatype Effect = Effect(store: Store, session: Session, sent: seq<Frame<Topic>>)

  const TIMEOUT_REASON := "task timeout expired"
  const REREGISTERED_REASON := "node re-registered"
  const CLOSED_REASON := "node session closed"
  const MAX_TASK_PULL_RESPONSE_ITEMS := 1

  function Control(payload: Payload): Frame<Topic> {
    Publish(OnControl, payload)
  }

  function Complain(st: Store, s: Session, error: NodeError): Effect {
    Effect(st, s, [Control(Error(error))])
  }

  // ----- the steps inside a handler

  /** The claim shared by pushing and pulling. */
  function Claiming(node: string, st: Store, s: Session, pushed: bool, now: U64): Effect {
    var (st', outcome) := ClaimTask(st, node, now);
    if outcome.Claimed? then
      var task := outcome.task;
      Effect(st', s.(pc := Publishing(task, pushed, st.tasks[task.taskId].retryCount + 1, now)), [])
    else
      Effect(st', s.(pc := Select), if pushed then [] else [Control(TaskPullResponse([]))])
  }

  function AssignmentFrame(task: PendingTask, pushed: bool, serial: nat): Frame<Topic> {
    if pushed then Publish(OnTask, Assign(ToAssignment(task, serial)))
    else Control(TaskPullResponse([ToAssignment(task, serial)]))
  }

  predicate Ready(s: Session) {
    s.registered && s.slot.None? && OnTask in s.subscriptions
  }

  predicate InHandler(s: Session) {
    !s.pc.Select? && !s.pc.Closing? && (s.pc.Expired? ==> s.slot.Some?)
  }

  /** One step of the handler in progress. */
  function Advance(node: string, st: Store, s: Session, now: U64): Effect
    requires InHandler(s)
  {
    match s.pc
    case Registering(reg) =>
      Effect(RegisterNode(st, reg, now), s.(registered := true, pc := Dispatching), [])
    case Dispatching =>
      if Ready(s) then Claiming(node, st, s, true, now) else Effect(st, s.(pc := Select), [])
    case Publishing(task, pushed, serial, claimedAt) =>
      Effect(st, s.(pc := Assigning(task, serial, claimedAt)), [AssignmentFrame(task, pushed, serial)])
    case Assigning(task, serial, claimedAt) =>
      var slot := InFlightTask(task.taskId, task.timeoutSecs, now, false, false, serial, claimedAt);
      Effect(st, s.(slot := Some(slot), pc := Select), [])
    case Expired =>
      var slot := s.slot.value;
      Effect(st, s.(slot := Some(slot.(cancelRequested := true, ignoreResult := true)), pc := Select),
             [Control(TaskCancel(slot.taskId, Some(TIMEOUT_REASON), slot.serial)), PingReq(now)])
  }

  // ----- heartbeat

  predicate TimedOut(slot: InFlightTask, now: U64) {
    slot.timeoutSecs.Some? && !slot.ignoreResult
    && SaturatingAdd(slot.dispatchedAt, slot.timeoutSecs.value) <= now
  }

  function HeartbeatTick(node: string, st: Store, s: Session, now: U64): Effect {
    if s.slot.Some? && TimedOut(s.slot.value, now)
    then Effect(RetryTask(st, s.slot.value.taskId, node, TIMEOUT_REASON), s.(pc := Expired), [])
    else Effect(st, s, [PingReq(now)])
  }

  // ----- signals

  function TakeSignal(s: Session, signal: Signal): (Session, seq<Frame<Topic>>) {
    if signal.CancelTaskSignal? && s.slot.Some? && s.slot.value.taskId == signal.taskId then
      var slot := s.slot.value;
      (s.(slot := Some(slot.(cancelRequested := true, ignoreResult := true))),
       if slot.cancelRequested then [] else [Control(TaskCancel(slot.taskId, signal.reason, slot.serial))])
    else
      (s.(pc := Dispatching), [])
  }

  // ----- frames from the client

  function ReceiveSubscribe(st: Store, s: Session, topics: seq<Topic>): Effect {
    var subscriptions := s.subscriptions + set t | t in topics;
    Effect(st, s.(subscriptions := subscriptions, pc := Dispatching),
           [SubAck] + if OnControl in subscriptions then [Control(SessionInfo)] else [])
  }

  function ReceiveHello(node: string, st: Store, s: Session, payload: Payload, now: U64): Effect {
    match payload
    case ClientHello(nodeId, hostname, platform, poll) =>
      if nodeId != node then Complain(st, s, HelloNodeMismatch)
      else Effect(RequeueIncompleteTasks(st, node, REREGISTERED_REASON),
                  s.(pc := Registering(NodeRegistration(nodeId, hostname, platform, poll, []))), [])
    case CommandCatalog(commands) =>
      var (st', updated) := UpdateNodeCommands(st, node, CatalogFromPb(commands), now);
      if updated then Effect(st', s, [])
      else Complain(st', s, CatalogBeforeRegistration)
    case _ => Complain(st, s, HelloTopicPayload)
  }

  function Min(a: int, b: int): int { if a < b then a else b }

  function ReceiveControl(node: string, st: Store, s: Session, payload: Payload, now: U64): Effect {
    match payload
    case TaskPullRequest(nodeId, limit) =>
      if nodeId != node then Complain(st, s, PullNodeMismatch)
      else if Min(limit, MAX_TASK_PULL_RESPONSE_ITEMS) == 0 || !s.registered || s.slot.Some?
      then Effect(st, s, [Control(TaskPullResponse([]))])
      else Claiming(node, st, s, false, now)
    case Error(_) => Effect(st, s, [])
    case TaskCancel(_, _, _) => Effect(st, s, [])
    case SessionInfo => Effect(st, s, [])
    case TaskPullResponse(_) => Effect(st, s, [])
    case _ => Complain(st, s, ControlTopicPayload)
  }

  function ReceiveAck(node: string, st: Store, s: Session, payload: Payload, now: U64): Effect {
    if !payload.TaskAck? then Complain(st, s, AckTopicPayload)
    else if s.slot.None? then Complain(st, s, AckWithoutTask)
    else if s.slot.value.taskId != payload.taskId then Complain(st, s, UnexpectedAckId)
    else if s.slot.value.ignoreResult then Effect(st, s, [])
    else Effect(AcknowledgeTask(st, payload.taskId, node, now), s, [])
  }

  /** `task_result_should_be_ignored`: the task exists and no longer accepts a result. */
  predicate ShouldBeIgnored(st: Store, id: nat) {
    id in st.tasks && !Active(st.tasks[id])
  }

  function ReceiveResult(node: string, st: Store, s: Session, payload: Payload, now: U64): Effect {
    if !payload.TaskResult? then Complain(st, s, ResultTopicPayload)
    else if s.slot.None? then
      if ShouldBeIgnored(st, payload.taskId) then Effect(st, s, [])
      else Complain(st, s, ResultWithoutTask)
    else if s.slot.value.taskId != payload.taskId then
      if ShouldBeIgnored(st, payload.taskId) then Effect(st, s, [])
      else Complain(st, s, UnexpectedResultId)
    else if s.slot.value.ignoreResult then Effect(st, s.(slot := None, pc := Dispatching), [])
    else Effect(SubmitTaskResult(st, payload.taskId, node, payload.result, now).0,
                s.(slot := None, pc := Dispatching), [])
  }

  function ReceivePublish(node: string, st: Store, s: Session, topic: Topic, payload: Payload, now: U64): Effect {
    match topic
    case OnHello => ReceiveHello(node, st, s, payload, now)
    case OnControl => ReceiveControl(node, st, s, payload, now)
    case OnAck => ReceiveAck(node, st, s, payload, now)
    case OnResult => ReceiveResult(node, st, s, payload, now)
    case _ => Effect(st, s, [])
  }

  function Receive(node: string, st: Store, s: Session, frame: Frame<Topic>, now: U64): (e: Effect)
    ensures s.pc.Select? ==> !e.session.pc.Expired? && !e.session.pc.Closing?
  {
    match frame
    case Subscribe(topics) => ReceiveSubscribe(st, s, topics)
    case Publish(topic, payload) => ReceivePublish(node, st, s, topic, payload, now)
    case PingReq(unixSecs) => Effect(st, s, [PingResp(unixSecs)])
    case _ => Effect(st, s, [])
  }

  // ----- a whole handler

  function Rank(pc: Pc): nat {
    match pc
    case Registering(_) => 4
    case Dispatching => 3
    case Publishing(_, _, _, _) => 2
    case Assigning(_, _, _) => 1
    case Expired => 1
    case _ => 0
  }

  /** The steps of a handler taken one after the other, with nothing in between, until the session
      is back in its `select!`. `clock(k)` is the reading taken when `k` steps at most are left. */
  function Settle(node: string, e: Effect, clock: nat -> U64): (e': Effect)
    requires e.session.pc.Expired? ==> e.session.slot.Some?
    ensures !e.session.pc.Closing? ==> e'.session.pc.Select?
    decreases Rank(e.session.pc)
  {
    if !InHandler(e.session) then e
    else
      var next := Advance(node, e.store, e.session, clock(Rank(e.session.pc)));
      Settle(node, Effect(next.store, next.session, e.sent + next.sent), clock)
  }

  lemma SettleStep(node: string, e: Effect, clock: nat -> U64)
    requires InHandler(e.session)
    ensures var next := Advance(node, e.store, e.session, clock(Rank(e.session.pc)));
            Settle(node, e, clock) == Settle(node, Effect(next.store, next.session, e.sent + next.sent), clock)
  {
  }

  lemma Settled(node: string, e: Effect, clock: nat -> U64)
    requires e.session.pc.Select?
    ensures Settle(node, e, clock) == e
  {
  }

  // ----- frames as they are on the wire, and as a session routes them

  function RouteFrame(node: string, frame: Frame<string>): Frame<Topic> {
    match frame
    case Subscribe(topics) => Subscribe(seq(|topics|, i requires 0 <= i < |topics| => Route(node, topics[i])))
    case Publish(topic, payload) => Publish(Route(node, topic), payload)
    case Connect => Connect
    case ConnAck => ConnAck
    case SubAck => SubAck
    case PingReq(unixSecs) => PingReq(unixSecs)
    case PingResp(unixSecs) => PingResp(unixSecs)
    case NoFrame => NoFrame
  }

  function RouteFrames(node: string, frames: seq<Frame<string>>): seq<Frame<Topic>> {
    seq(|frames|, i requires 0 <= i < |frames| => RouteFrame(node, frames[i]))
  }

  function RouteTopics(node: string, topics: set<string>): set<Topic> {
    set t | t in topics :: Route(node, t)
  }
}
