/** Frames and payloads of one connection, and the conversions between rows and wire messages.
    `T` is the type of a topic: `string` on the wire, `Topic` once routed for one node.

    `serial` numbers the claims of a task (1 for the first). It is bookkeeping of the model: acks,
    results and cancels carry only the task id on the wire, and no step below reads a serial to
    decide anything. It lets the properties say which dispatch of a task a message stems from. */
module Messages {
  import opened Prelude
  import opened Tasks

  datatype PbCommandDescriptor = PbCommandDescriptor(
    name: string, description: string, defaultArgs: seq<string>, allowExtraArgs: bool)

  function ToPb(value: CommandDescriptor): PbCommandDescriptor {
    PbCommandDescriptor(value.name, value.description, value.defaultArgs, value.allowExtraArgs)
  }

  function FromPb(value: PbCommandDescriptor): CommandDescriptor {
    CommandDescriptor(value.name, value.description, value.defaultArgs, value.allowExtraArgs)
  }

  function CatalogFromPb(catalog: seq<PbCommandDescriptor>): seq<CommandDescriptor> {
    seq(|catalog|, i requires 0 <= i < |catalog| => FromPb(catalog[i]))
  }

  datatype TaskAssignment = TaskAssignment(
    taskId: nat, commandName: string, args: seq<string>, createdAt: U64,
    timeoutSecs: Option<U64>, attempt: U32, serial: nat)

  /** `From<&PendingTask>`; `retry_count + 1` wraps in a release build. */
  function ToAssignment(task: PendingTask, serial: nat): TaskAssignment {
    TaskAssignment(task.taskId, task.commandName, task.args, task.createdAt, task.timeoutSecs,
                   LowU32(task.retryCount + 1), serial)
  }

  /** The errors a session reports on the control topic. */
  datatype NodeError =
    | HelloNodeMismatch
    | CatalogBeforeRegistration
    | HelloTopicPayload
    | PullNodeMismatch
    | ControlTopicPayload
    | AckTopicPayload
    | AckWithoutTask
    | UnexpectedAckId
    | ResultTopicPayload
    | ResultWithoutTask
    | UnexpectedResultId

  datatype Payload =
    | ClientHello(nodeId: string, hostname: string, platform: string, pollIntervalSecs: U64)
    | Assign(assignment: TaskAssignment)
    | TaskResult(taskId: nat, result: ExecutionResult, serial: nat)
    | TaskAck(taskId: nat, serial: nat)
    | TaskCancel(taskId: nat, reason: Option<string>, serial: nat)
    | Error(error: NodeError)
    | SessionInfo
    | CommandCatalog(commands: seq<PbCommandDescriptor>)
    | TaskPullRequest(nodeId: string, limit: U32)
    | TaskPullResponse(tasks: seq<TaskAssignment>)
    | NoPayload

  datatype Frame<T> =
    | Connect
    | ConnAck
    | Subscribe(topics: seq<T>)
    | SubAck
    | Publish(topic: T, payload: Payload)
    | PingReq(unixSecs: U64)
    | PingResp(unixSecs: U64)
    | NoFrame
}
