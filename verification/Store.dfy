/** What each database method does to the two tables, as a function of the tables before.
    Every method holds the connection lock from its first statement to its last, so each is one
    atomic step. */
module Store {
  import opened Prelude
  import opened Tasks

  /** `nextId` is the AUTOINCREMENT counter: ids only grow and rows are never deleted. */
  datatype Store = Store(nodes: map<string, NodeRow>, tasks: map<nat, TaskRow>, nextId: nat)

  const EMPTY := Store(map[], map[], 1)

  predicate StoreOk(s: Store) {
    s.nextId >= 1 && forall id | id in s.tasks ::
      1 <= id < s.nextId && s.tasks[id].nodeId in s.nodes && RowOk(s.tasks[id])
  }

  predicate Owned(s: Store, node: string, id: nat) {
    id in s.tasks && s.tasks[id].nodeId == node
  }

  predicate QueuedAt(s: Store, node: string, id: nat) {
    Owned(s, node, id) && s.tasks[id].status.Queued?
  }

  predicate ActiveAt(s: Store, node: string, id: nat) {
    Owned(s, node, id) && Active(s.tasks[id])
  }

  /** The two tables hold the same tasks for `node`. */
  ghost predicate SameRows(s: Store, s': Store, node: string) {
    forall id: nat :: (Owned(s, node, id) || Owned(s', node, id)) ==>
      id in s.tasks && id in s'.tasks && s.tasks[id] == s'.tasks[id]
  }

  /** SELECT … WHERE node_id AND status = 'queued' ORDER BY task_id LIMIT 1, from id `from` on. */
  function LeastQueued(s: Store, node: string, from: nat): (r: Option<nat>)
    ensures r.Some? ==> from <= r.value < s.nextId && QueuedAt(s, node, r.value)
    ensures r.Some? ==> forall id: nat | from <= id < r.value :: !QueuedAt(s, node, id)
    ensures r.None? ==> forall id: nat | from <= id < s.nextId :: !QueuedAt(s, node, id)
    decreases s.nextId - from
  {
    if s.nextId <= from then None
    else if QueuedAt(s, node, from) then Some(from)
    else LeastQueued(s, node, from + 1)
  }

  function PutRow(s: Store, id: nat, row: TaskRow): Store {
    s.(tasks := s.tasks[id := row])
  }

  // ----- nodes

  function RegisterNode(s: Store, reg: NodeRegistration, now: U64): Store {
    var known := reg.nodeId in s.nodes;
    var commands := if reg.commands != [] then reg.commands
                    else if known then s.nodes[reg.nodeId].commands else [];
    var registeredAt := if known then s.nodes[reg.nodeId].registeredAt else AsI64(now);
    s.(nodes := s.nodes[reg.nodeId := NodeRow(reg.hostname, reg.platform, AsI64(reg.pollIntervalSecs),
                                              registeredAt, AsI64(now), commands)])
  }

  /** The flag says whether a row was updated. */
  function UpdateNodeCommands(s: Store, node: string, commands: seq<CommandDescriptor>, now: U64): (Store, bool) {
    if node !in s.nodes then (s, false)
    else (s.(nodes := s.nodes[node := s.nodes[node].(commands := commands, lastSeen := AsI64(now))]), true)
  }

  // ----- tasks

  datatype CreateOutcome = NodeNotFound | UnsupportedCommand | ExtraArgsNotAllowed | Created(taskId: nat)

  /** `iter().find(|item| item.name == name)`. */
  function FindCommand(commands: seq<CommandDescriptor>, name: string): Option<CommandDescriptor> {
    if commands == [] then None
    else if commands[0].name == name then Some(commands[0])
    else FindCommand(commands[1..], name)
  }

  function CreateTask(s: Store, request: CreateTaskRequest, audit: TaskAudit, now: U64): (Store, CreateOutcome) {
    if request.nodeId !in s.nodes then (s, NodeNotFound)
    else
      match FindCommand(s.nodes[request.nodeId].commands, request.commandName)
      case None => (s, UnsupportedCommand)
      case Some(command) =>
        if !command.allowExtraArgs && request.args != [] then (s, ExtraArgsNotAllowed)
        else (PutRow(s, s.nextId, QueuedRow(request, audit, now)).(nextId := s.nextId + 1), Created(s.nextId))
  }

  datatype ClaimOutcome = UnknownNode | NoTask | Claimed(task: PendingTask)

  function TouchNode(s: Store, node: string, now: U64): Store
    requires node in s.nodes
  {
    s.(nodes := s.nodes[node := s.nodes[node].(lastSeen := AsI64(now))])
  }

  function ClaimTask(s: Store, node: string, now: U64): (Store, ClaimOutcome) {
    if node !in s.nodes then (s, UnknownNode)
    else
      var touched := TouchNode(s, node, now);
      match LeastQueued(s, node, 0)
      case None => (touched, NoTask)
      case Some(id) =>
        (PutRow(touched, id, ClaimedRow(s.tasks[id], now)), Claimed(ReadPending(id, s.tasks[id])))
  }

  function AcknowledgeTask(s: Store, id: nat, node: string, now: U64): Store {
    if Owned(s, node, id) && s.tasks[id].status.Dispatched?
    then PutRow(s, id, AckedRow(s.tasks[id], now)) else s
  }

  function RetryTask(s: Store, id: nat, node: string, reason: string): Store {
    if ActiveAt(s, node, id) then PutRow(s, id, RetriedRow(s.tasks[id], reason)) else s
  }

  predicate Requeueable(s: Store, node: string, id: nat) {
    ActiveAt(s, node, id) && s.tasks[id].finishedAt.None?
  }

  function RequeueIncompleteTasks(s: Store, node: string, reason: string): Store {
    s.(tasks := map id | id in s.tasks ::
         if Requeueable(s, node, id) then RequeuedRow(s.tasks[id], reason) else s.tasks[id])
  }

  datatype SubmitOutcome = TaskNotFound | NodeMismatch | Updated(row: TaskRow)

  function SubmitTaskResult(s: Store, id: nat, node: string, result: ExecutionResult, now: U64): (Store, SubmitOutcome) {
    if id !in s.tasks then (s, TaskNotFound)
    else if s.tasks[id].nodeId != node then (s, NodeMismatch)
    else if !Active(s.tasks[id]) then (s, Updated(s.tasks[id]))
    else
      var row := FinishedRow(s.tasks[id], result, now);
      (PutRow(s, id, row), Updated(row))
  }

  datatype CancelOutcome = NotFound | NotCancelable | CanceledTask(row: TaskRow)

  function CancelTask(s: Store, id: nat, reason: Option<string>, audit: TaskAudit, now: U64): (Store, CancelOutcome) {
    if id !in s.tasks then (s, NotFound)
    else if Terminal(s.tasks[id]) then (s, NotCancelable)
    else
      var row := CanceledRow(s.tasks[id], reason, audit, now);
      (PutRow(s, id, row), CanceledTask(row))
  }

  /** On a well-formed table the least queued task is the first of the node over all ids, and the
      extra `finished_at IS NULL` guard of the requeue keeps no active row back. */
  lemma GuardsAreExact(s: Store, node: string, reason: string)
    requires StoreOk(s)
    ensures LeastQueued(s, node, 0).None? <==> forall id: nat :: !QueuedAt(s, node, id)
    ensures forall id: nat :: Requeueable(s, node, id) <==> ActiveAt(s, node, id)
    ensures forall id: nat :: !ActiveAt(RequeueIncompleteTasks(s, node, reason), node, id)
  {
    assert forall id: nat | QueuedAt(s, node, id) :: 0 <= id < s.nextId;
  }
}
