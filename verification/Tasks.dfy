/** Task and node rows, the values the task API exchanges, and the status column. */
module Tasks {
  import opened Prelude

  datatype TaskStatus = Queued | Dispatched | Running | Succeeded | Failed | Canceled

  function StatusToStr(status: TaskStatus): string {
    match status
    case Queued => "queued"
    case Dispatched => "dispatched"
    case Running => "running"
    case Succeeded => "succeeded"
    case Failed => "failed"
    case Canceled => "canceled"
  }

  /** None stands for the "unknown task status" error. */
  function StatusFromStr(text: string): Option<TaskStatus> {
    if text == "queued" then Some(Queued)
    else if text == "dispatched" then Some(Dispatched)
    else if text == "running" then Some(Running)
    else if text == "succeeded" then Some(Succeeded)
    else if text == "failed" then Some(Failed)
    else if text == "canceled" then Some(Canceled)
    else None
  }

  /** A status column read back is the status written, and nothing else parses to it:
      rows may therefore hold the status itself. */
  lemma StatusColumnRoundTrip(status: TaskStatus, text: string)
    ensures StatusFromStr(StatusToStr(status)) == Some(status)
    ensures StatusFromStr(text) == Some(status) ==> text == StatusToStr(status)
  {
    assert "queued"[0] == 'q' && "failed"[0] == 'f' && "running"[0] == 'r';
    assert "canceled"[0] == 'c' && |"succeeded"| == 9 && |"dispatched"| == 10;
  }

  datatype CommandDescriptor = CommandDescriptor(
    name: string, description: string, defaultArgs: seq<string>, allowExtraArgs: bool)

  datatype ExecutionResult = ExecutionResult(
    success: bool, exitCode: Option<int>, stdout: string, stderr: string,
    stdoutTruncated: bool, stderrTruncated: bool, durationMs: U64, error: Option<string>)

  datatype NodeRegistration = NodeRegistration(
    nodeId: string, hostname: string, platform: string, pollIntervalSecs: U64,
    commands: seq<CommandDescriptor>)

  datatype NodeRow = NodeRow(
    hostname: string, platform: string, pollIntervalSecs: I64,
    registeredAt: I64, lastSeen: I64, commands: seq<CommandDescriptor>)

  datatype CreateTaskRequest = CreateTaskRequest(
    nodeId: string, commandName: string, args: seq<string>, timeoutSecs: Option<U64>)

  datatype TaskAudit = TaskAudit(source: string, actor: Option<string>)

  /** A row of `tasks`; its key is the task id. Nullable columns are options. */
  datatype TaskRow = TaskRow(
    nodeId: string, commandName: string, args: seq<string>, status: TaskStatus,
    createdAt: I64, createdVia: Option<string>, createdBy: Option<string>,
    dispatchedAt: Option<I64>, ackedAt: Option<I64>, startedAt: Option<I64>, finishedAt: Option<I64>,
    timeoutSecs: Option<I64>, retryCount: nat, retryReason: Option<string>,
    canceledAt: Option<I64>, cancelReason: Option<string>,
    canceledVia: Option<string>, canceledBy: Option<string>,
    result: Option<ExecutionResult>)

  predicate Active(row: TaskRow) {
    row.status.Dispatched? || row.status.Running?
  }

  predicate Completed(row: TaskRow) {
    row.status.Succeeded? || row.status.Failed?
  }

  predicate Terminal(row: TaskRow) {
    Completed(row) || row.status.Canceled?
  }

  /** What a claim hands to the session. */
  datatype PendingTask = PendingTask(
    taskId: nat, nodeId: string, commandName: string, args: seq<string>,
    createdAt: U64, timeoutSecs: Option<U64>, retryCount: U32)

  function ReadPending(id: nat, row: TaskRow): PendingTask {
    PendingTask(id, row.nodeId, row.commandName, row.args, AsU64(row.createdAt),
                OptAsU64(row.timeoutSecs), LowU32(row.retryCount))
  }

  // ----- the SET clauses of the UPDATE statements, one function each

  function QueuedRow(request: CreateTaskRequest, audit: TaskAudit, now: U64): TaskRow {
    TaskRow(request.nodeId, request.commandName, request.args, Queued,
            AsI64(now), Some(audit.source), audit.actor,
            None, None, None, None,
            OptAsI64(request.timeoutSecs), 0, None,
            None, None, None, None, None)
  }

  function ClaimedRow(row: TaskRow, now: U64): TaskRow {
    row.(status := Dispatched, dispatchedAt := Some(AsI64(now)),
         ackedAt := None, startedAt := None, finishedAt := None,
         canceledAt := None, cancelReason := None, canceledVia := None, canceledBy := None,
         result := None)
  }

  function AckedRow(row: TaskRow, now: U64): TaskRow {
    row.(status := Running, ackedAt := Some(AsI64(now)),
         startedAt := if row.startedAt.None? then Some(AsI64(now)) else row.startedAt)
  }

  function RetriedRow(row: TaskRow, reason: string): TaskRow {
    row.(status := Queued, dispatchedAt := None,
         ackedAt := None, startedAt := None, finishedAt := None,
         canceledAt := None, cancelReason := None, canceledVia := None, canceledBy := None,
         result := None, retryCount := row.retryCount + 1, retryReason := Some(reason))
  }

  /** Unlike `RetriedRow`, leaves `finishedAt` and `result` alone. */
  function RequeuedRow(row: TaskRow, reason: string): TaskRow {
    row.(status := Queued, dispatchedAt := None, ackedAt := None, startedAt := None,
         canceledAt := None, cancelReason := None, canceledVia := None, canceledBy := None,
         retryCount := row.retryCount + 1, retryReason := Some(reason))
  }

  function FinishedRow(row: TaskRow, result: ExecutionResult, now: U64): TaskRow {
    row.(status := if result.success then Succeeded else Failed,
         ackedAt := if row.ackedAt.None? then Some(AsI64(now)) else row.ackedAt,
         startedAt := if row.startedAt.None? then Some(AsI64(now)) else row.startedAt,
         finishedAt := Some(AsI64(now)), result := Some(result))
  }

  const STORED_CANCEL_REASON := "canceled by server"

  function CanceledRow(row: TaskRow, reason: Option<string>, audit: TaskAudit, now: U64): TaskRow {
    row.(status := Canceled, finishedAt := Some(AsI64(now)), canceledAt := Some(AsI64(now)),
         cancelReason := Some(if reason.None? then STORED_CANCEL_REASON else reason.value),
         canceledVia := Some(audit.source), canceledBy := audit.actor)
  }

  /** The null pattern each status implies. */
  predicate RowOk(row: TaskRow) {
    && row.ackedAt == row.startedAt
    && (row.retryReason.None? <==> row.retryCount == 0)
    && (row.status.Queued? ==> row.dispatchedAt.None?)
    && (row.status.Dispatched? ==> row.dispatchedAt.Some? && row.ackedAt.None?)
    && (row.status.Running? ==> row.dispatchedAt.Some? && row.ackedAt.Some?)
    && (Completed(row) ==> row.dispatchedAt.Some? && row.ackedAt.Some?)
    && (row.ackedAt.Some? ==> row.dispatchedAt.Some?)
    && (Terminal(row) <==> row.finishedAt.Some?)
    && (Completed(row) <==> row.result.Some?)
    && (Completed(row) ==> (row.result.value.success <==> row.status.Succeeded?))
    && (row.status.Canceled? <==> row.canceledAt.Some?)
    && (row.status.Canceled? <==> row.cancelReason.Some?)
    && (row.status.Canceled? <==> row.canceledVia.Some?)
    && (row.canceledBy.Some? ==> row.status.Canceled?)
    && (row.status.Canceled? ==> row.canceledAt == row.finishedAt)
  }
}
