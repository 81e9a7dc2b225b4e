/** The client: what it advertises, what it is willing to run, and its session loop. */
module ClientSession {
  import opened Prelude
  import opened Topics
  import opened Tasks
  import opened Store
  import opened Messages

  datatype LocalCommand = LocalCommand(
    name: string, description: string, program: string, defaultArgs: seq<string>, allowExtraArgs: bool)

  datatype ClientConfig = ClientConfig(
    nodeId: string, hostname: string, platform: string, pollIntervalSecs: U64, commands: seq<LocalCommand>)

  function Describe(command: LocalCommand): CommandDescriptor {
    CommandDescriptor(command.name, command.description, command.defaultArgs, command.allowExtraArgs)
  }

  /** `command_descriptors`, then each through `Into<PbCommandDescriptor>`. */
  function AdvertisedCatalog(config: ClientConfig): seq<PbCommandDescriptor> {
    seq(|config.commands|, i requires 0 <= i < |config.commands| => ToPb(Describe(config.commands[i])))
  }

  // ----- starting a command

  datatype StartOutcome = Started(program: string, argv: seq<string>) | Rejected(result: ExecutionResult)

  function FindLocal(commands: seq<LocalCommand>, name: string): Option<LocalCommand> {
    if commands == [] then None
    else if commands[0].name == name then Some(commands[0])
    else FindLocal(commands[1..], name)
  }

  function FailedStart(message: string, elapsedMs: U64): ExecutionResult {
    ExecutionResult(false, None, "", "", false, false, elapsedMs, Some(message))
  }

  /** `RunningCommand::start`; `spawnError` is what spawning the process would report. */
  function StartCommand(config: ClientConfig, name: string, args: seq<string>,
                        spawnError: Option<string>, elapsedMs: U64): StartOutcome {
    match FindLocal(config.commands, name)
    case None => Rejected(FailedStart("command is not configured on this client", elapsedMs))
    case Some(command) =>
      if !command.allowExtraArgs && args != []
      then Rejected(FailedStart("command does not allow extra args", elapsedMs))
      else if spawnError.Some? then Rejected(FailedStart(spawnError.value, elapsedMs))
      else Started(command.program, command.defaultArgs + if command.allowExtraArgs then args else [])
  }

  // ----- the whitelist agreement

  lemma {:induction false} FindCommutes(commands: seq<LocalCommand>, catalog: seq<CommandDescriptor>, name: string)
    requires |catalog| == |commands| && forall i | 0 <= i < |commands| :: catalog[i] == Describe(commands[i])
    ensures FindLocal(commands, name).None? <==> FindCommand(catalog, name).None?
    ensures FindLocal(commands, name).Some? ==>
              FindCommand(catalog, name) == Some(Describe(FindLocal(commands, name).value))
  {
    if commands != [] && commands[0].name != name {
      FindCommutes(commands[1..], catalog[1..], name);
    }
  }

  /** When the server's catalog is the one this client sent, creating a task succeeds exactly when
      the client would start it (given that spawning works): same command, duplicates included,
      and the argv is the default arguments followed by the request's. */
  lemma WhitelistAgreement(config: ClientConfig, st: Store, request: CreateTaskRequest,
                           audit: TaskAudit, now: U64, elapsedMs: U64)
    requires request.nodeId in st.nodes
    requires st.nodes[request.nodeId].commands == CatalogFromPb(AdvertisedCatalog(config))
    ensures var outcome := CreateTask(st, request, audit, now).1;
            var start := StartCommand(config, request.commandName, request.args, None, elapsedMs);
            && (outcome.Created? <==> start.Started?)
            && (start.Started? ==>
                  exists i :: 0 <= i < |config.commands| && config.commands[i].name == request.commandName
                              && start.program == config.commands[i].program
                              && (forall j | 0 <= j < i :: config.commands[j].name != request.commandName)
                              && start.argv == config.commands[i].defaultArgs + request.args)
            && (outcome.UnsupportedCommand? <==>
                  start == Rejected(FailedStart("command is not configured on this client", elapsedMs)))
            && (outcome.ExtraArgsNotAllowed? <==>
                  start == Rejected(FailedStart("command does not allow extra args", elapsedMs)))
  {
    var catalog := st.nodes[request.nodeId].commands;
    FindCommutes(config.commands, catalog, request.commandName);
    FindLocalIsFirst(config.commands, request.commandName);
    assert "command is not configured on this client"[11] != "command does not allow extra args"[11];
  }

  lemma {:induction false} FindLocalIsFirst(commands: seq<LocalCommand>, name: string)
    ensures var found := FindLocal(commands, name);
            match found
            case None => forall i | 0 <= i < |commands| :: commands[i].name != name
            case Some(command) => exists i :: 0 <= i < |commands| && commands[i] == command && command.name == name
                                              && forall j | 0 <= j < i :: commands[j].name != name
  {
    if commands != [] && commands[0].name != name {
      FindLocalIsFirst(commands[1..], name);
      var found := FindLocal(commands[1..], name);
      if found.Some? {
        var i :| 0 <= i < |commands[1..]| && commands[1..][i] == found.value
                 && forall j | 0 <= j < i :: commands[1..][j].name != name;
        assert commands[i + 1] == found.value;
        forall j | 0 <= j < i + 1 ensures commands[j].name != name {
          if j > 0 { assert commands[j] == commands[1..][j - 1]; }
        }
      }
    }
  }

  // ----- the session loop

  datatype ProcessExit = ProcessExit(
    success: bool, exitCode: Option<int>, stdout: string, stderr: string,
    stdoutTruncated: bool, stderrTruncated: bool)

  /** `exited` is what `try_wait` and `finish` would report now; `program` and `argv` are what the
      process was started with. */
  datatype RunningTask = RunningTask(
    taskId: nat, program: string, argv: seq<string>,
    cancelReason: Option<string>, exited: Option<ProcessExit>, serial: nat)

  datatype ClientEffect = ClientEffect(running: Option<RunningTask>, sent: seq<Frame<Topic>>)

  /** The frames sent between CONNACK and the loop, in order. */
  const GREETINGS := 4

  function Greeting(config: ClientConfig, k: nat): Frame<Topic>
    requires k < GREETINGS
  {
    match k
    case 0 => Subscribe([OnTask, OnControl])
    case 1 => Publish(OnHello, ClientHello(config.nodeId, config.hostname, config.platform, config.pollIntervalSecs))
    case 2 => Publish(OnHello, CommandCatalog(AdvertisedCatalog(config)))
    case 3 => PullRequest(config)
  }

  function PullRequest(config: ClientConfig): Frame<Topic> {
    Publish(OnControl, TaskPullRequest(config.nodeId, 1))
  }

  function ResultFrame(taskId: nat, result: ExecutionResult, serial: nat): Frame<Topic> {
    Publish(OnResult, TaskResult(taskId, result, serial))
  }

  function StartAssignment(config: ClientConfig, running: Option<RunningTask>, task: TaskAssignment,
                           spawnError: Option<string>, elapsedMs: U64): ClientEffect {
    if running.Some? then ClientEffect(running, [])
    else
      var ack := Publish(OnAck, TaskAck(task.taskId, task.serial));
      match StartCommand(config, task.commandName, task.args, spawnError, elapsedMs)
      case Started(program, argv) =>
        ClientEffect(Some(RunningTask(task.taskId, program, argv, None, None, task.serial)), [ack])
      case Rejected(result) => ClientEffect(None, [ack, ResultFrame(task.taskId, result, task.serial)])
  }

  /** The request names a configured command, and the first of that name takes its arguments. */
  predicate Startable(config: ClientConfig, name: string, args: seq<string>) {
    exists i :: 0 <= i < |config.commands| && config.commands[i].name == name
                && (forall j | 0 <= j < i :: config.commands[j].name != name)
                && (config.commands[i].allowExtraArgs || args == [])
  }

  /** The process is what the first command of that name configures, with its default arguments
      followed by the request's. */
  predicate Configured(config: ClientConfig, name: string, args: seq<string>, program: string, argv: seq<string>) {
    exists i :: 0 <= i < |config.commands| && config.commands[i].name == name
                && (forall j | 0 <= j < i :: config.commands[j].name != name)
                && program == config.commands[i].program && argv == config.commands[i].defaultArgs + args
  }

  predicate Named(config: ClientConfig, name: string) {
    exists i :: 0 <= i < |config.commands| && config.commands[i].name == name
  }

  /** What an ack means: an idle client acks whatever it is assigned, and a process then exists if and
      only if the assignment is startable and spawning works; it is the configured one. Otherwise a
      failure with its reason follows the ack at once. */
  lemma AckMeansStart(config: ClientConfig, task: TaskAssignment, spawnError: Option<string>, elapsedMs: U64)
    ensures var e := StartAssignment(config, None, task, spawnError, elapsedMs);
            && e.sent != [] && e.sent[0] == Publish(OnAck, TaskAck(task.taskId, task.serial))
            && (e.running.Some? <==> Startable(config, task.commandName, task.args) && spawnError.None?)
            && (e.running.Some? ==>
                  && |e.sent| == 1 && e.running.value.taskId == task.taskId && e.running.value.serial == task.serial
                  && e.running.value.cancelReason.None? && e.running.value.exited.None?
                  && Configured(config, task.commandName, task.args, e.running.value.program, e.running.value.argv))
            && (e.running.None? ==>
                  exists result: ExecutionResult ::
                    && e.sent[1..] == [Publish(OnResult, TaskResult(task.taskId, result, task.serial))]
                    && StartFailure(config, task, spawnError, elapsedMs, result))
  {
    FindLocalIsFirst(config.commands, task.commandName);
    var e := StartAssignment(config, None, task, spawnError, elapsedMs);
    if e.running.None? {
      var result := e.sent[1].payload.result;
      assert e.sent[1..] == [Publish(OnResult, TaskResult(task.taskId, result, task.serial))];
    }
  }

  /** No output and no exit code, and the reason: no such command, arguments it does not take, or
      what spawning reported. */
  predicate StartFailure(config: ClientConfig, task: TaskAssignment, spawnError: Option<string>, elapsedMs: U64, result: ExecutionResult) {
    && !result.success && result.exitCode.None? && result.stdout == "" && result.stderr == ""
    && !result.stdoutTruncated && !result.stderrTruncated && result.durationMs == elapsedMs
    && result.error == if !Named(config, task.commandName) then Some("command is not configured on this client")
                       else if !Startable(config, task.commandName, task.args) then Some("command does not allow extra args")
                       else spawnError
  }

  const REPORTED_CANCEL_REASON := "task canceled by server"

  /** `request_cancel`: the first reason wins; the kill shows up later as the process exit. */
  function RequestCancel(running: RunningTask, reason: Option<string>): RunningTask {
    if running.cancelReason.Some? then running
    else running.(cancelReason := if reason.Some? then reason else Some(REPORTED_CANCEL_REASON))
  }

  function HandleCancel(running: Option<RunningTask>, taskId: nat, reason: Option<string>): Option<RunningTask> {
    if running.Some? && running.value.taskId == taskId then Some(RequestCancel(running.value, reason)) else running
  }

  function ClientReceive(config: ClientConfig, running: Option<RunningTask>, frame: Frame<Topic>,
                         spawnError: Option<string>, elapsedMs: U64): ClientEffect {
    match frame
    case Publish(topic, payload) =>
      if topic == OnTask then
        if payload.Assign? then StartAssignment(config, running, payload.assignment, spawnError, elapsedMs)
        else ClientEffect(running, [])
      else if topic == OnControl then
        match payload
        case TaskPullResponse(tasks) =>
          if tasks == [] then ClientEffect(running, [])
          else StartAssignment(config, running, tasks[0], spawnError, elapsedMs)
        case TaskCancel(taskId, reason, _) => ClientEffect(HandleCancel(running, taskId, reason), [])
        case _ => ClientEffect(running, [])
      else ClientEffect(running, [])
    case PingReq(unixSecs) => ClientEffect(running, [PingResp(unixSecs)])
    case _ => ClientEffect(running, [])
  }

  /** `RunningCommand::finish`: a canceled command never reports success, and says why. */
  function FinishedResult(running: RunningTask, durationMs: U64): ExecutionResult
    requires running.exited.Some?
  {
    var exit := running.exited.value;
    ExecutionResult(exit.success && running.cancelReason.None?, exit.exitCode, exit.stdout, exit.stderr,
                    exit.stdoutTruncated, exit.stderrTruncated, durationMs, running.cancelReason)
  }

  /** The progress tick that finds the process gone: result, then pull. */
  function ProgressTick(config: ClientConfig, running: RunningTask, durationMs: U64): seq<Frame<Topic>>
    requires running.exited.Some?
  {
    [ResultFrame(running.taskId, FinishedResult(running, durationMs), running.serial), PullRequest(config)]
  }

  /** The result says of a run what happened: a success if and only if the process succeeded and no
      cancel was read, with the output, the exit code and both flags of the process, and the cancel
      reason, if any, as the error. */
  predicate Says(result: ExecutionResult, running: RunningTask, durationMs: U64)
    requires running.exited.Some?
  {
    var exit := running.exited.value;
    && (result.success <==> exit.success && running.cancelReason.None?)
    && result.error == running.cancelReason
    && result.exitCode == exit.exitCode && result.durationMs == durationMs
    && result.stdout == exit.stdout && result.stdoutTruncated == exit.stdoutTruncated
    && result.stderr == exit.stderr && result.stderrTruncated == exit.stderrTruncated
  }

  /** What the client sends when the process of a run has exited: what happened, and a request for one
      more task. */
  lemma ReportSays(config: ClientConfig, running: RunningTask, durationMs: U64)
    requires running.exited.Some?
    ensures var sent := ProgressTick(config, running, durationMs);
            && |sent| == 2 && sent[1] == Publish(OnControl, TaskPullRequest(config.nodeId, 1))
            && sent[0].Publish? && sent[0].topic == OnResult && sent[0].payload.TaskResult?
            && sent[0].payload.taskId == running.taskId && sent[0].payload.serial == running.serial
            && Says(sent[0].payload.result, running, durationMs)
  {
  }

  /** What reading a cancel does: the run it names keeps an earlier reason, or else takes the frame's,
      or else the default one; nothing else about it changes. Any other run, or none, is untouched. */
  lemma CancelTakesEffect(config: ClientConfig, running: Option<RunningTask>, taskId: nat, reason: Option<string>, serial: nat,
                          spawnError: Option<string>, elapsedMs: U64)
    ensures var e := ClientReceive(config, running, Publish(OnControl, TaskCancel(taskId, reason, serial)), spawnError, elapsedMs);
            && e.sent == []
            && (running.None? || running.value.taskId != taskId ==> e.running == running)
            && (running.Some? && running.value.taskId == taskId ==>
                  && e.running.Some?
                  && e.running.value.cancelReason
                     == (if running.value.cancelReason.Some? then running.value.cancelReason
                         else if reason.Some? then reason else Some("task canceled by server"))
                  && e.running.value.taskId == taskId && e.running.value.serial == running.value.serial
                  && e.running.value.program == running.value.program && e.running.value.argv == running.value.argv
                  && e.running.value.exited == running.value.exited)
  {
  }

  /** The run after a series of cancels, in order. */
  function CancelAll(running: RunningTask, reasons: seq<Option<string>>): RunningTask
    decreases |reasons|
  {
    if reasons == [] then running else CancelAll(RequestCancel(running, reasons[0]), reasons[1..])
  }

  /** However often a run is canceled, it reports failure, with the first reason, even when the
      process itself exits successfully. */
  lemma {:induction false} FirstReasonWins(running: RunningTask, reasons: seq<Option<string>>, exit: ProcessExit, durationMs: U64)
    requires reasons != [] || running.cancelReason.Some?
    ensures var result := FinishedResult(CancelAll(running, reasons).(exited := Some(exit)), durationMs);
            !result.success
            && result.error == if running.cancelReason.Some? then running.cancelReason
                               else if reasons[0].Some? then reasons[0] else Some(REPORTED_CANCEL_REASON)
    decreases |reasons|
  {
    if reasons != [] { FirstReasonWins(RequestCancel(running, reasons[0]), reasons[1..], exit, durationMs); }
  }
}
