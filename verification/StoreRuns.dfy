/** Properties of the tables over every interleaving of the database methods: nothing here
    assumes who calls them, in what order, or for which node. */
module StoreRuns {
  import opened Prelude
  import opened Tasks
  import opened Store
  import opened Messages

  datatype Op =
    | Register(reg: NodeRegistration, now: U64)
    | UpdateCommands(node: string, commands: seq<CommandDescriptor>, now: U64)
    | Create(request: CreateTaskRequest, audit: TaskAudit, now: U64)
    | Claim(node: string, now: U64)
    | Acknowledge(id: nat, node: string, now: U64)
    | Retry(id: nat, node: string, reason: string)
    | Requeue(node: string, reason: string)
    | Submit(id: nat, node: string, result: ExecutionResult, now: U64)
    | Cancel(id: nat, cancelReason: Option<string>, audit: TaskAudit, now: U64)

  function Apply(s: Store, op: Op): Store {
    match op
    case Register(reg, now) => RegisterNode(s, reg, now)
    case UpdateCommands(node, commands, now) => UpdateNodeCommands(s, node, commands, now).0
    case Create(request, audit, now) => CreateTask(s, request, audit, now).0
    case Claim(node, now) => ClaimTask(s, node, now).0
    case Acknowledge(id, node, now) => AcknowledgeTask(s, id, node, now)
    case Retry(id, node, reason) => RetryTask(s, id, node, reason)
    case Requeue(node, reason) => RequeueIncompleteTasks(s, node, reason)
    case Submit(id, node, result, now) => SubmitTaskResult(s, id, node, result, now).0
    case Cancel(id, reason, audit, now) => CancelTask(s, id, reason, audit, now).0
  }

  function Run(s: Store, ops: seq<Op>): Store {
    if ops == [] then s else Apply(Run(s, ops[..|ops| - 1]), ops[|ops| - 1])
  }

  // ----- row shapes

  lemma ApplyKeepsRowOk(s: Store, op: Op, id: nat)
    requires id in Apply(s, op).tasks && (id in s.tasks ==> RowOk(s.tasks[id]))
    ensures RowOk(Apply(s, op).tasks[id])
  {
  }

  lemma ApplyKeepsOk(s: Store, op: Op)
    requires StoreOk(s)
    ensures StoreOk(Apply(s, op))
  {
    hide RowOk;
    var s' := Apply(s, op);
    forall id | id in s'.tasks
      ensures 1 <= id < s'.nextId && s'.tasks[id].nodeId in s'.nodes && RowOk(s'.tasks[id])
    {
      ApplyKeepsRowOk(s, op, id);
    }
  }

  /** After any operations from the empty tables, every row has the null pattern of its status. */
  lemma {:induction false} RowShapes(ops: seq<Op>)
    ensures StoreOk(Run(EMPTY, ops))
  {
    if ops != [] {
      RowShapes(ops[..|ops| - 1]);
      ApplyKeepsOk(Run(EMPTY, ops[..|ops| - 1]), ops[|ops| - 1]);
    }
  }

  // ----- terminal states absorb

  lemma {:induction false} TerminalAbsorbs(s: Store, ops: seq<Op>, id: nat)
    requires StoreOk(s) && id in s.tasks && Terminal(s.tasks[id])
    ensures StoreOk(Run(s, ops)) && id in Run(s, ops).tasks && Run(s, ops).tasks[id] == s.tasks[id]
  {
    hide Apply, StoreOk;
    if ops != [] {
      var before := Run(s, ops[..|ops| - 1]);
      TerminalAbsorbs(s, ops[..|ops| - 1], id);
      ApplyKeepsOk(before, ops[|ops| - 1]);
      ApplySteps(before, ops[|ops| - 1], id);
    }
  }

  /** The transitions a row can make in one operation; its id, node and request never change. */
  predicate RowStep(row: TaskRow, row': TaskRow) {
    && row'.nodeId == row.nodeId && row'.commandName == row.commandName && row'.args == row.args
    && row'.createdAt == row.createdAt && row'.timeoutSecs == row.timeoutSecs
    && row'.createdVia == row.createdVia && row'.createdBy == row.createdBy
    && row'.retryCount == row.retryCount + (if row' != row && row'.status.Queued? then 1 else 0)
    && match row.status
       case Queued => row' == row || row'.status.Dispatched? || row'.status.Canceled?
       case Dispatched => row' == row || !row'.status.Dispatched?
       case Running => row' == row || (!row'.status.Dispatched? && !row'.status.Running?)
       case _ => row' == row
  }

  lemma ApplySteps(s: Store, op: Op, id: nat)
    requires StoreOk(s) && id in s.tasks
    // a row is never lost, changes only along the task life cycle, and not at all once it is over
    ensures id in Apply(s, op).tasks && RowStep(s.tasks[id], Apply(s, op).tasks[id])
  {
    hide RowOk;
    assert id < s.nextId;
  }

  // ----- isolation

  /** The node an operation works for; a cancel works for the task's node. */
  function OpNode(s: Store, op: Op): Option<string> {
    match op
    case Register(_, _) => None
    case UpdateCommands(_, _, _) => None
    case Create(request, _, _) => Some(request.nodeId)
    case Claim(node, _) => Some(node)
    case Acknowledge(_, node, _) => Some(node)
    case Retry(_, node, _) => Some(node)
    case Requeue(node, _) => Some(node)
    case Submit(_, node, _, _) => Some(node)
    case Cancel(id, _, _, _) => if id in s.tasks then Some(s.tasks[id].nodeId) else None
  }

  /** No operation for one node touches a task of another, whatever ids it names. */
  lemma ApplyIsolates(s: Store, op: Op, other: string)
    requires StoreOk(s) && OpNode(s, op) != Some(other)
    ensures SameRows(s, Apply(s, op), other)
  {
    hide RowOk;
  }

  // ----- attempt accounting

  predicate Claims(s: Store, op: Op, id: nat) {
    op.Claim? && op.node in s.nodes && LeastQueued(s, op.node, 0) == Some(id)
  }

  /** How many operations of the run claimed task `id`. */
  function ClaimCount(s: Store, ops: seq<Op>, id: nat): nat {
    if ops == [] then 0
    else
      var before := ops[..|ops| - 1];
      ClaimCount(s, before, id) + if Claims(Run(s, before), ops[|ops| - 1], id) then 1 else 0
  }

  /** A row was claimed once per retry, and once more while it carries a dispatch time: the open
      dispatch, or the one that completed or was canceled. */
  predicate CountFits(s: Store, id: nat, claims: nat) {
    claims == if id !in s.tasks then 0
              else s.tasks[id].retryCount + if s.tasks[id].dispatchedAt.Some? then 1 else 0
  }

  lemma ApplyKeepsCount(s: Store, op: Op, id: nat, claims: nat)
    requires StoreOk(s) && CountFits(s, id, claims)
    ensures CountFits(Apply(s, op), id, claims + if Claims(s, op, id) then 1 else 0)
  {
    if id !in s.tasks { assert !Claims(s, op, id); }
  }

  /** Claims and retries balance over every run, whatever the status: a queued task was claimed
      exactly `retryCount` times, an active or completed one exactly once more, and a canceled one
      once more if it was dispatched when the cancel came. */
  lemma {:induction false} AttemptAccounting(ops: seq<Op>, id: nat)
    ensures CountFits(Run(EMPTY, ops), id, ClaimCount(EMPTY, ops, id))
    ensures id in Run(EMPTY, ops).tasks ==>
              var row, claims := Run(EMPTY, ops).tasks[id], ClaimCount(EMPTY, ops, id);
              && (row.status.Queued? ==> claims == row.retryCount)
              && (Active(row) || Completed(row) ==> claims == row.retryCount + 1)
  {
    RowShapes(ops);
    if ops != [] {
      var before := ops[..|ops| - 1];
      AttemptAccounting(before, id);
      RowShapes(before);
      ApplyKeepsCount(Run(EMPTY, before), ops[|ops| - 1], id, ClaimCount(EMPTY, before, id));
    }
  }

  lemma ClaimCounted(ops: seq<Op>, node: string, now: U64)
    requires ClaimTask(Run(EMPTY, ops), node, now).1.Claimed?
    ensures var s := Run(EMPTY, ops);
            var task := ClaimTask(s, node, now).1.task;
            && ClaimCount(EMPTY, ops + [Claim(node, now)], task.taskId) == ClaimCount(EMPTY, ops, task.taskId) + 1
            && task.taskId in s.tasks && s.tasks[task.taskId].status.Queued?
            && task.retryCount == LowU32(s.tasks[task.taskId].retryCount)
  {
    hide Apply, Run, LeastQueued;
    assert (ops + [Claim(node, now)])[..|ops|] == ops;
  }

  /** The assignment published for the k-th claim of a task announces attempt k, as long as k fits
      in 32 bits; and exactly then. */
  lemma KthClaimIsAttemptK(ops: seq<Op>, node: string, now: U64)
    requires ClaimTask(Run(EMPTY, ops), node, now).1.Claimed?
    ensures var task := ClaimTask(Run(EMPTY, ops), node, now).1.task;
            var k := ClaimCount(EMPTY, ops + [Claim(node, now)], task.taskId);
            k >= 1 && (ToAssignment(task, k).attempt == k <==> k < TWO_TO_THE_32)
  {
    hide Run, ClaimTask, ClaimCount, LowU32, CountFits;
    ClaimCounted(ops, node, now);
    var id := ClaimTask(Run(EMPTY, ops), node, now).1.task.taskId;
    AttemptAccounting(ops, id);
    WrapExact(Run(EMPTY, ops).tasks[id].retryCount);
  }

  lemma WrapExact(rc: nat)
    ensures LowU32(LowU32(rc) + 1) == rc + 1 <==> rc + 1 < TWO_TO_THE_32
  {
  }

  // ----- timestamps

  /** The clock reading of an operation that a node's session performs. */
  function SessionReading(op: Op, node: string): Option<U64> {
    match op
    case Claim(n, now) => if n == node then Some(now) else None
    case Acknowledge(_, n, now) => if n == node then Some(now) else None
    case Submit(_, n, _, now) => if n == node then Some(now) else None
    case _ => None
  }

  predicate Requeues(op: Op, node: string) { op.Requeue? && op.node == node }

  /** No requeue of the node from `i` to before `j`: the operations of one session, at most. */
  predicate NoRequeue(ops: seq<Op>, i: nat, j: nat, node: string) {
    forall k | i <= k < j && k < |ops| :: !Requeues(ops[k], node)
  }

  /** From one requeue of a node to the next its clock readings do not go back. They may in between,
      where sessions begin and end, and those of HTTP handlers and other nodes are free. */
  ghost predicate ClocksNondecreasing(ops: seq<Op>) {
    forall i, j, node | 0 <= i < j < |ops| && NoRequeue(ops, i, j, node)
                        && SessionReading(ops[i], node).Some? && SessionReading(ops[j], node).Some? ::
      SessionReading(ops[i], node).value <= SessionReading(ops[j], node).value
  }

  /** `at` was read since the last requeue of the node. */
  ghost predicate ReadBefore(ops: seq<Op>, node: string, at: Option<I64>) {
    at.Some? ==> exists i :: 0 <= i < |ops| && SessionReading(ops[i], node) == Some(AsU64(at.value))
                             && NoRequeue(ops, i, |ops|, node)
  }

  predicate InOrder(a: Option<I64>, b: Option<I64>) {
    a.Some? && b.Some? ==> AsU64(a.value) <= AsU64(b.value)
  }

  predicate RowInOrder(row: TaskRow) {
    && InOrder(row.dispatchedAt, row.ackedAt)
    && (!row.status.Canceled? ==> InOrder(row.dispatchedAt, row.finishedAt) && InOrder(row.ackedAt, row.finishedAt))
  }

  ghost predicate TimesFit(row: TaskRow, ops: seq<Op>) {
    && RowInOrder(row)
    && (Active(row) ==> ReadBefore(ops, row.nodeId, row.dispatchedAt) && ReadBefore(ops, row.nodeId, row.ackedAt))
  }

  lemma ReadBeforeGrows(ops: seq<Op>, op: Op, node: string, at: Option<I64>)
    requires ReadBefore(ops, node, at) && !Requeues(op, node)
    ensures ReadBefore(ops + [op], node, at)
  {
    if at.Some? {
      var i :| 0 <= i < |ops| && SessionReading(ops[i], node) == Some(AsU64(at.value)) && NoRequeue(ops, i, |ops|, node);
      assert (ops + [op])[i] == ops[i] && NoRequeue(ops + [op], i, |ops + [op]|, node);
    }
  }

  lemma NewReading(ops: seq<Op>, op: Op, node: string, at: Option<I64>)
    requires ClocksNondecreasing(ops + [op]) && SessionReading(op, node).Some?
    requires ReadBefore(ops, node, at)
    ensures at.Some? ==> AsU64(at.value) <= SessionReading(op, node).value
  {
    var all := ops + [op];
    assert all[|ops|] == op;
    if at.Some? {
      var i :| 0 <= i < |ops| && SessionReading(ops[i], node) == Some(AsU64(at.value)) && NoRequeue(ops, i, |ops|, node);
      assert all[i] == ops[i] && NoRequeue(all, i, |ops|, node);
    }
  }

  lemma ReadNow(ops: seq<Op>, op: Op, node: string)
    requires SessionReading(op, node).Some?
    ensures ReadBefore(ops + [op], node, Some(AsI64(SessionReading(op, node).value)))
  {
    assert (ops + [op])[|ops|] == op && NoRequeue(ops + [op], |ops|, |ops + [op]|, node);
  }

  /** One row under one operation: the old row with old readings, or a SET clause at a new reading. */
  lemma RowKeepsTimes(row: TaskRow, ops: seq<Op>, op: Op, row': TaskRow, at: Option<U64>)
    requires RowOk(row) && TimesFit(row, ops) && ClocksNondecreasing(ops + [op])
    requires at == SessionReading(op, row.nodeId) && (Requeues(op, row.nodeId) ==> !Active(row'))
    requires || row' == row
             || (at.Some? && row' == ClaimedRow(row, at.value))
             || (at.Some? && Active(row) && row' == AckedRow(row, at.value))
             || (at.Some? && Active(row) && exists result :: row' == FinishedRow(row, result, at.value))
             || (row'.nodeId == row.nodeId && row'.dispatchedAt.None? && row'.ackedAt.None?)
             || (row'.nodeId == row.nodeId && row'.status.Canceled? && row'.dispatchedAt == row.dispatchedAt && row'.ackedAt == row.ackedAt)
    ensures TimesFit(row', ops + [op])
  {
    hide ReadBefore, ClocksNondecreasing;
    if Active(row) && !Requeues(op, row.nodeId) {
      ReadBeforeGrows(ops, op, row.nodeId, row.dispatchedAt);
      ReadBeforeGrows(ops, op, row.nodeId, row.ackedAt);
      if at.Some? {
        NewReading(ops, op, row.nodeId, row.dispatchedAt);
        NewReading(ops, op, row.nodeId, row.ackedAt);
      }
    }
    if at.Some? { ReadNow(ops, op, row.nodeId); }
    NothingRead(ops, op, row.nodeId);
  }

  lemma NothingRead(ops: seq<Op>, op: Op, node: string)
    ensures ReadBefore(ops + [op], node, None)
  {
  }

  lemma ApplyKeepsTimes(s: Store, ops: seq<Op>, op: Op, id: nat)
    requires StoreOk(s) && ClocksNondecreasing(ops + [op])
    requires id in s.tasks ==> TimesFit(s.tasks[id], ops)
    ensures id in Apply(s, op).tasks ==> TimesFit(Apply(s, op).tasks[id], ops + [op])
  {
    hide ClocksNondecreasing, ReadBefore;
    var s' := Apply(s, op);
    if id in s.tasks {
      assert RowOk(s.tasks[id]);
      if op.Submit? && s'.tasks[id] != s.tasks[id] {
        assert s'.tasks[id] == FinishedRow(s.tasks[id], op.result, op.now);
      }
      RowKeepsTimes(s.tasks[id], ops, op, s'.tasks[id], SessionReading(op, s.tasks[id].nodeId));
    }
  }

  lemma ClocksOfPrefix(ops: seq<Op>, op: Op)
    requires ClocksNondecreasing(ops + [op])
    ensures ClocksNondecreasing(ops)
  {
    var all := ops + [op];
    forall i, j, node | 0 <= i < j < |ops| && NoRequeue(ops, i, j, node)
                        && SessionReading(ops[i], node).Some? && SessionReading(ops[j], node).Some?
      ensures SessionReading(ops[i], node).value <= SessionReading(ops[j], node).value
    {
      assert all[i] == ops[i] && all[j] == ops[j] && NoRequeue(all, i, j, node);
    }
  }

  lemma {:induction false} TimestampsFit(ops: seq<Op>, id: nat)
    requires ClocksNondecreasing(ops) && id in Run(EMPTY, ops).tasks
    ensures TimesFit(Run(EMPTY, ops).tasks[id], ops)
  {
    var before := ops[..|ops| - 1];
    assert before + [ops[|ops| - 1]] == ops;
    RowShapes(before);
    ClocksOfPrefix(before, ops[|ops| - 1]);
    if id in Run(EMPTY, before).tasks { TimestampsFit(before, id); }
    ApplyKeepsTimes(Run(EMPTY, before), before, ops[|ops| - 1], id);
  }

  /** Dispatched, then acked and started at one instant, then finished: for every completed task,
      whether or not an ack came before the result. */
  lemma TimestampOrder(ops: seq<Op>, id: nat)
    requires ClocksNondecreasing(ops) && id in Run(EMPTY, ops).tasks && Completed(Run(EMPTY, ops).tasks[id])
    ensures var row := Run(EMPTY, ops).tasks[id];
            && row.dispatchedAt.Some? && row.ackedAt.Some? && row.startedAt == row.ackedAt && row.finishedAt.Some?
            && AsU64(row.dispatchedAt.value) <= AsU64(row.ackedAt.value) <= AsU64(row.finishedAt.value)
  {
    RowShapes(ops);
    TimestampsFit(ops, id);
  }
}
