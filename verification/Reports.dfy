/** From the process back to the table: what a completed row says is what the client's process did,
    and a cancel that the client has read makes its run a failure. */
module Reports {
  import opened Prelude
  import opened Topics
  import opened Tasks
  import opened Store
  import opened Messages
  import opened ServerSession
  import opened ClientSession
  import opened Protocol
  import opened Links
  import opened Invariant
  import opened Tokens
  import opened StepOps
  import opened Delivery
  import Runs = StoreRuns
  import Safety
  import Theorems

  // ----- a cancel that was read

  /** The steps that end a run at the client, or its connection. */
  predicate EndsRun(step: Step, node: string) {
    step.Crash?
    || ((step.ClientReports? || step.ClientLeaves? || step.Close? || step.Open?) && step.node == node)
  }

  predicate RunsCanceled(sys: System, node: string, run: RunningTask) {
    node in sys.links && sys.links[node].client.Looping? && sys.links[node].client.running.Some?
    && var now := sys.links[node].client.running.value;
       now == run.(exited := now.exited) && run.cancelReason.Some?
  }

  lemma StepKeepsCanceled(sys: System, step: Step, node: string, run: RunningTask)
    requires Enabled(sys, step) && RunsCanceled(sys, node, run) && !EndsRun(step, node)
    ensures RunsCanceled(Apply(sys, step), node, run)
  {
    if OwnStep(step, node) {
      LinkOfOwnStep(sys, step, node);
      hide Receive, Advance, HeartbeatTick, TakeSignal, Completed1, ProgressTick, ClientReceive;
      if step.ClientReceives? {
        var link := sys.links[node];
        CanceledReads(link.config, link.client.running.value, link.toClient[0], step.spawnError, step.elapsedMs);
      }
    } else {
      StillThere(sys, step, node);
      hide Apply, Enabled;
      OtherLinks(sys, step, node);
    }
  }

  lemma StillThere(sys: System, step: Step, node: string)
    requires Enabled(sys, step) && node in sys.links && !EndsRun(step, node)
    ensures node in Apply(sys, step).links
  {
    hide Receive, Advance, HeartbeatTick, TakeSignal, ClientReceive, ProgressTick, Completed1, Greeting,
         CreateTask, CancelTask, RequeueIncompleteTasks;
  }

  /** A canceled run reads further frames without change. */
  lemma CanceledReads(config: ClientConfig, run: RunningTask, frame: Frame<Topic>, spawnError: Option<string>, elapsedMs: U64)
    requires run.cancelReason.Some?
    ensures ClientReceive(config, Some(run), frame, spawnError, elapsedMs).running == Some(run)
  {
    hide StartCommand;
  }

  lemma {:induction false} TraceKeepsCanceled(from: System, steps: seq<Step>, sys: System, node: string, run: RunningTask)
    requires Trace(from, steps, sys) && RunsCanceled(from, node, run)
    requires forall i | 0 <= i < |steps| :: !EndsRun(steps[i], node)
    ensures RunsCanceled(sys, node, run)
    decreases |steps|
  {
    hide Enabled, Apply, RunsCanceled, EndsRun;
    if steps != [] {
      assert !EndsRun(steps[0], node);
      StepKeepsCanceled(from, steps[0], node, run);
      TraceKeepsCanceled(Apply(from, steps[0]), steps[1..], sys, node, run);
    }
  }

  /** A run that reads a cancel is reported, whenever its process is gone and however it exited, as a
      failure: with the reason of an earlier cancel if there was one, or else that of this cancel, or
      else the default one. */
  lemma CanceledRunFails(mid: System, node: string, taskId: nat, reason: Option<string>, serial: nat,
                         spawnError: Option<string>, elapsedMs: U64, after: seq<Step>, end: System, durationMs: U64)
    requires Enabled(mid, ClientReceives(node, spawnError, elapsedMs))
    requires mid.links[node].toClient[0] == Publish(OnControl, TaskCancel(taskId, reason, serial))
    requires mid.links[node].client.running.Some? && mid.links[node].client.running.value.taskId == taskId
    requires Trace(Apply(mid, ClientReceives(node, spawnError, elapsedMs)), after, end)
    requires forall i | 0 <= i < |after| :: !EndsRun(after[i], node)
    requires Enabled(end, ClientReports(node, durationMs))
    ensures var before, sent := mid.links[node].client.running.value,
                                Apply(end, ClientReports(node, durationMs)).links[node].toServer[|end.links[node].toServer|..];
            && |sent| == 2 && sent[0].Publish? && sent[0].topic == OnResult && sent[0].payload.TaskResult?
            && sent[0].payload.taskId == taskId && sent[0].payload.serial == before.serial
            && !sent[0].payload.result.success
            && sent[0].payload.result.error == if before.cancelReason.Some? then before.cancelReason
                                               else if reason.Some? then reason else Some("task canceled by server")
  {
    hide ClientReceive, ProgressTick, Trace;
    var link := mid.links[node];
    CancelTakesEffect(link.config, link.client.running, taskId, reason, serial, spawnError, elapsedMs);
    var next := Apply(mid, ClientReceives(node, spawnError, elapsedMs));
    var run := next.links[node].client.running.value;
    TraceKeepsCanceled(next, after, end, node, run);
    var done := end.links[node].client.running.value;
    ReportSays(end.links[node].config, done, durationMs);
    var sent := ProgressTick(end.links[node].config, done, durationMs);
    assert (end.links[node].toServer + sent)[|end.links[node].toServer|..] == sent;
  }

  // ----- what the clients of a run report

  datatype Report =
    | Ran(node: string, config: ClientConfig, run: RunningTask, durationMs: U64)
    | NotStarted(node: string, config: ClientConfig, assignment: TaskAssignment, spawnError: Option<string>, elapsedMs: U64)

  predicate AssignmentHead(link: Link) {
    link.toClient != [] && MarkOf(link.toClient[0]) != [] && MarkOf(link.toClient[0])[0].Assigned?
  }

  /** The report a step makes: on a process that is gone, or on an assignment that starts none. */
  function ReportsOf(sys: System, step: Step): seq<Report>
    requires Enabled(sys, step)
  {
    if step.ClientReports? then
      var link := sys.links[step.node];
      [Ran(step.node, link.config, link.client.running.value, step.durationMs)]
    else if step.ClientReceives? && AssignmentHead(sys.links[step.node]) && sys.links[step.node].client.running.None? then
      var link := sys.links[step.node];
      [NotStarted(step.node, link.config, Theorems.AssignmentIn(link.toClient[0]), step.spawnError, step.elapsedMs)]
    else []
  }

  function ReportsAlong(sys: System, steps: seq<Step>): seq<Report>
    decreases |steps|
  {
    if steps == [] || !Enabled(sys, steps[0]) then []
    else ReportsOf(sys, steps[0]) + ReportsAlong(Apply(sys, steps[0]), steps[1..])
  }

  /** The report accounts for a result of dispatch `serial` of task `id` at this node. */
  predicate AccountsFor(report: Report, node: string, id: nat, serial: nat, result: ExecutionResult) {
    report.node == node
    && match report
       case Ran(_, _, run, durationMs) =>
         run.taskId == id && run.serial == serial && run.exited.Some? && Says(result, run, durationMs)
       case NotStarted(_, config, assignment, spawnError, elapsedMs) =>
         assignment.taskId == id && assignment.serial == serial
         && StartFailure(config, assignment, spawnError, elapsedMs, result)
  }

  predicate Accounted(reports: seq<Report>, node: string, id: nat, serial: nat, result: ExecutionResult) {
    exists k :: 0 <= k < |reports| && AccountsFor(reports[k], node, id, serial, result)
  }

  lemma AccountedGrows(reports: seq<Report>, more: seq<Report>, node: string, id: nat, serial: nat, result: ExecutionResult)
    requires Accounted(reports, node, id, serial, result) || Accounted(more, node, id, serial, result)
    ensures Accounted(reports + more, node, id, serial, result)
  {
    hide AccountsFor;
    if Accounted(reports, node, id, serial, result) {
      var k :| 0 <= k < |reports| && AccountsFor(reports[k], node, id, serial, result);
      assert (reports + more)[k] == reports[k];
    } else {
      var k :| 0 <= k < |more| && AccountsFor(more[k], node, id, serial, result);
      assert (reports + more)[|reports| + k] == more[k];
    }
  }

  predicate IsResult(frame: Frame<Topic>) {
    frame.Publish? && frame.topic == OnResult && frame.payload.TaskResult?
  }

  /** Every result on its way to the server is accounted for. */
  ghost predicate ResultsFit(reports: seq<Report>, node: string, frames: seq<Frame<Topic>>) {
    forall f | f in frames && IsResult(f) :: Accounted(reports, node, f.payload.taskId, f.payload.serial, f.payload.result)
  }

  /** And so is every completed row, by a report of its open dispatch. */
  ghost predicate RowsFit(reports: seq<Report>, st: Store) {
    forall id | id in st.tasks && Completed(st.tasks[id]) ::
      st.tasks[id].result.Some?
      && Accounted(reports, st.tasks[id].nodeId, id, st.tasks[id].retryCount + 1, st.tasks[id].result.value)
  }

  /** Reported processes were the configured ones for their task. */
  predicate RunReported(st: Store, report: Report) {
    report.Ran? ==>
      Owned(st, report.node, report.run.taskId)
      && Configured(report.config, st.tasks[report.run.taskId].commandName, st.tasks[report.run.taskId].args, report.run.program, report.run.argv)
  }

  ghost predicate ReportsInv(reports: seq<Report>, sys: System) {
    && FullInv(sys) && DeliveryInv(sys)
    && (forall node | node in sys.links :: ResultsFit(reports, node, sys.links[node].toServer))
    && RowsFit(reports, sys.store)
    && forall k | 0 <= k < |reports| :: RunReported(sys.store, reports[k])
  }

  // ----- client steps

  /** What a client step sends of results is what it reports. */
  lemma ClientResults(sys: System, step: Step)
    requires FullInv(sys) && Enabled(sys, step) && ClientStep(step)
    ensures step.node in Apply(sys, step).links
    ensures var frames, frames' := sys.links[step.node].toServer, Apply(sys, step).links[step.node].toServer;
            frames <= frames' && ResultsFit(ReportsOf(sys, step), step.node, frames'[|frames|..])
  {
    hide Inv, LinkTokens, LogFresh, ClientReceive, ProgressTick, Says, AccountsFor;
    var link := sys.links[step.node];
    match step
    case ClientReceives(_, spawnError, elapsedMs) => ReadResults(sys, step);
    case ClientReports(_, durationMs) => ReportResults(link, step.node, durationMs);
    case ClientGreets(_) => assert !IsResult(Greeting(link.config, link.client.sent));
    case _ =>
  }

  lemma ReportResults(link: Link, node: string, durationMs: U64)
    requires link.client.Looping? && link.client.running.Some? && link.client.running.value.exited.Some?
    ensures ResultsFit([Ran(node, link.config, link.client.running.value, durationMs)], node,
                       ProgressTick(link.config, link.client.running.value, durationMs))
  {
    var run := link.client.running.value;
    var reports := [Ran(node, link.config, run, durationMs)];
    var sent := ProgressTick(link.config, run, durationMs);
    hide Says, FinishedResult;
    ReportSays(link.config, run, durationMs);
    assert AccountsFor(reports[0], node, run.taskId, run.serial, sent[0].payload.result);
    assert !IsResult(sent[1]);
  }

  lemma ReadResults(sys: System, step: Step)
    requires Enabled(sys, step) && step.ClientReceives?
    ensures var link := sys.links[step.node];
            ResultsFit(ReportsOf(sys, step), step.node,
                       ClientReceive(link.config, link.client.running, link.toClient[0], step.spawnError, step.elapsedMs).sent)
  {
    hide StartAssignment, HandleCancel, AccountsFor, MarkOf, Accounted;
    var link := sys.links[step.node];
    var frame := link.toClient[0];
    var e := ClientReceive(link.config, link.client.running, frame, step.spawnError, step.elapsedMs);
    if MarkOf(frame) == [] || !MarkOf(frame)[0].Assigned? {
      OtherFrames(link.config, link.client.running, frame, step.spawnError, step.elapsedMs);
    } else {
      AssignedFrames(link.config, link.client.running, frame, step.spawnError, step.elapsedMs);
      if link.client.running.Some? { BusyStarts(link.config, link.client.running, step.spawnError, step.elapsedMs); }
      else { StartResults(link.config, Theorems.AssignmentIn(frame), step.node, step.spawnError, step.elapsedMs); }
    }
  }

  lemma OtherFrames(config: ClientConfig, running: Option<RunningTask>, frame: Frame<Topic>, spawnError: Option<string>, elapsedMs: U64)
    requires MarkOf(frame) == [] || !MarkOf(frame)[0].Assigned?
    ensures forall f | f in ClientReceive(config, running, frame, spawnError, elapsedMs).sent :: !IsResult(f)
  {
    hide StartAssignment, HandleCancel;
  }

  lemma AssignedFrames(config: ClientConfig, running: Option<RunningTask>, frame: Frame<Topic>, spawnError: Option<string>, elapsedMs: U64)
    requires MarkOf(frame) != [] && MarkOf(frame)[0].Assigned?
    ensures ClientReceive(config, running, frame, spawnError, elapsedMs)
         == StartAssignment(config, running, Theorems.AssignmentIn(frame), spawnError, elapsedMs)
  {
    hide StartAssignment;
  }

  lemma StartResults(config: ClientConfig, task: TaskAssignment, node: string, spawnError: Option<string>, elapsedMs: U64)
    ensures ResultsFit([NotStarted(node, config, task, spawnError, elapsedMs)], node,
                       StartAssignment(config, None, task, spawnError, elapsedMs).sent)
  {
    hide StartAssignment, Startable, Configured, StartFailure;
    AckMeansStart(config, task, spawnError, elapsedMs);
    var e := StartAssignment(config, None, task, spawnError, elapsedMs);
    var reports := [NotStarted(node, config, task, spawnError, elapsedMs)];
    if e.running.None? {
      var result: ExecutionResult :| e.sent[1..] == [Publish(OnResult, TaskResult(task.taskId, result, task.serial))]
                                     && StartFailure(config, task, spawnError, elapsedMs, result);
      assert AccountsFor(reports[0], node, task.taskId, task.serial, result);
      assert e.sent == [e.sent[0]] + e.sent[1..];
    }
  }

  // ----- rows

  /** A row is completed by reading a result of the open dispatch, and then holds that result. */
  lemma CompletionStores(sys: System, step: Step, id: nat)
    requires FullInv(sys) && Enabled(sys, step) && FullInv(Apply(sys, step))
    requires id in Apply(sys, step).store.tasks && Completed(Apply(sys, step).store.tasks[id])
    ensures id in sys.store.tasks
    ensures var row, row' := sys.store.tasks[id], Apply(sys, step).store.tasks[id];
            || (Completed(row) && row' == row)
            || (step.ServerReceives? && sys.links[step.node].toServer != []
                && var f := sys.links[step.node].toServer[0];
                && IsResult(f) && f.payload.taskId == id && f.payload.serial == row'.retryCount + 1
                && row'.nodeId == step.node && row'.result == Some(f.payload.result))
  {
    hide Apply, Enabled, TokensOk;
    KnownId(sys, step, id);
    InvStoreOk(sys);
    RowTransition(sys, step, id);
    if !Completed(sys.store.tasks[id]) {
      if !step.ServerReceives? { LoggedRows(Apply(sys, step), id); LoggedRows(sys, id); LogKept(sys, step); }
      else { ReceivedCompletion(sys, step, id); }
    }
  }

  lemma InvStoreOk(sys: System)
    requires FullInv(sys)
    ensures StoreOk(sys.store)
  {
  }

  lemma KnownId(sys: System, step: Step, id: nat)
    requires FullInv(sys) && Enabled(sys, step)
    requires id in Apply(sys, step).store.tasks && Completed(Apply(sys, step).store.tasks[id])
    ensures id in sys.store.tasks
  {
    hide Apply, Enabled, TokensOk;
    InvStoreOk(sys);
    if id !in sys.store.tasks {
      NewRow(sys, step, id);
      CreatedQueued(sys, step, id);
    }
  }

  lemma CreatedQueued(sys: System, step: Step, id: nat)
    requires Enabled(sys, step) && step.HttpCreate? && id !in sys.store.tasks && id in Apply(sys, step).store.tasks
    ensures Apply(sys, step).store.tasks[id].status.Queued?
  {
  }

  lemma RowTransition(sys: System, step: Step, id: nat)
    requires StoreOk(sys.store) && Enabled(sys, step) && id in sys.store.tasks
    ensures id in Apply(sys, step).store.tasks && Runs.RowStep(sys.store.tasks[id], Apply(sys, step).store.tasks[id])
  {
    hide StoreOk, Enabled, Apply, Runs.Apply;
    var ops := StepIsOp(sys, step);
    NoOp(sys.store);
    if ops != [] {
      assert ops == [ops[0]];
      OneOp(sys.store, ops[0]);
      Runs.ApplySteps(sys.store, ops[0], id);
    } else { SameStep(sys.store.tasks[id]); }
  }

  lemma SameStep(row: TaskRow)
    ensures Runs.RowStep(row, row)
  {
  }

  lemma LoggedRows(sys: System, id: nat)
    requires FullInv(sys) && id in sys.store.tasks
    ensures Completed(sys.store.tasks[id]) <==> Logged(sys.log, id)
  {
    hide StoreOk, Fifo, NoticesOk, LinksOk, LogPast, LogSorted, TokensOk;
    if Logged(sys.log, id) {
      var k :| 0 <= k < |sys.log| && sys.log[k].taskId == id;
      assert Owned(sys.store, sys.log[k].node, sys.log[k].taskId);
    }
  }

  lemma ReceivedCompletion(sys: System, step: Step, id: nat)
    requires FullInv(sys) && Enabled(sys, step) && step.ServerReceives? && id in sys.store.tasks && !Completed(sys.store.tasks[id])
    requires id in Apply(sys, step).store.tasks && Completed(Apply(sys, step).store.tasks[id])
    ensures step.node in sys.links && sys.links[step.node].toServer != []
    ensures var f, row' := sys.links[step.node].toServer[0], Apply(sys, step).store.tasks[id];
            && IsResult(f) && f.payload.taskId == id && f.payload.serial == row'.retryCount + 1
            && row'.nodeId == step.node && row'.result == Some(f.payload.result)
  {
    hide StoreOk, Fifo, LogOk, NoticesOk, ActiveOk, CancelOk, WakeOk, SignalsOk, LinkTokens, LogFresh, Receive;
    var link := sys.links[step.node];
    assert SessionOk(sys.store, step.node, link.session, link.signals, sys.notices) && LinkTokens(link);
    HeadReply(link);
    ResultCompletes(step.node, sys.store, link.session, link.toServer[0], step.now, id);
  }

  /** In one session: only a result for the slot's task completes a row, and only that one. */
  lemma ResultCompletes(node: string, st: Store, s: Session, frame: Frame<Topic>, now: U64, id: nat)
    requires s.pc.Select? && id in st.tasks && !Completed(st.tasks[id])
    requires var st' := Receive(node, st, s, frame, now).store; id in st'.tasks && Completed(st'.tasks[id])
    ensures IsResult(frame) && frame.payload.taskId == id && ActiveAt(st, node, id)
    ensures s.slot.Some? && s.slot.value.taskId == id
    ensures var row' := Receive(node, st, s, frame, now).store.tasks[id];
            row'.result == Some(frame.payload.result) && row'.nodeId == node && row'.retryCount == st.tasks[id].retryCount
  {
    hide CatalogFromPb;
  }

  // ----- system steps

  lemma ResultsKeep(reports: seq<Report>, more: seq<Report>, node: string, frames: seq<Frame<Topic>>, added: seq<Frame<Topic>>)
    requires ResultsFit(reports, node, frames) && ResultsFit(more, node, added)
    ensures ResultsFit(reports + more, node, frames + added)
  {
    hide Accounted;
    forall f | f in frames + added && IsResult(f)
      ensures Accounted(reports + more, node, f.payload.taskId, f.payload.serial, f.payload.result)
    {
      AccountedGrows(reports, more, node, f.payload.taskId, f.payload.serial, f.payload.result);
    }
  }

  lemma ChannelFits(reports: seq<Report>, sys: System, step: Step, node: string)
    requires ReportsInv(reports, sys) && Enabled(sys, step) && !step.Forge? && node in Apply(sys, step).links
    ensures ResultsFit(reports + ReportsOf(sys, step), node, Apply(sys, step).links[node].toServer)
  {
    hide FullInv, DeliveryInv, RowsFit, RunReported, ReportsOf, ResultsFit, Apply, Enabled;
    var more, link' := ReportsOf(sys, step), Apply(sys, step).links[node];
    NoResults(more, node);
    if ClientStep(step) && step.node == node {
      LinkOfOwnStep(sys, step, node);
      ClientResults(sys, step);
      var frames := sys.links[node].toServer;
      ResultsKeep(reports, more, node, frames, link'.toServer[|frames|..]);
      assert frames + link'.toServer[|frames|..] == link'.toServer;
    } else if SessionStep(step) && step.node == node {
      LinkOfOwnStep(sys, step, node);
      ServerReads(sys, step);
      TailFits(reports, node, sys.links[node].toServer);
      ResultsKeep(reports, more, node, link'.toServer, []);
      assert link'.toServer + [] == link'.toServer;
    } else {
      OtherLinks(sys, step, node);
      if step.Open? && step.node == node { NoResults(reports + more, node); }
      else {
        ResultsKeep(reports, more, node, link'.toServer, []);
        assert link'.toServer + [] == link'.toServer;
      }
    }
  }

  lemma NoResults(reports: seq<Report>, node: string)
    ensures ResultsFit(reports, node, [])
  {
  }

  lemma TailFits(reports: seq<Report>, node: string, frames: seq<Frame<Topic>>)
    requires ResultsFit(reports, node, frames)
    ensures frames != [] ==> ResultsFit(reports, node, frames[1..])
  {
  }

  lemma ServerReads(sys: System, step: Step)
    requires Enabled(sys, step) && SessionStep(step)
    ensures step.node in Apply(sys, step).links
    ensures var frames, frames' := sys.links[step.node].toServer, Apply(sys, step).links[step.node].toServer;
            frames' == frames || (frames != [] && frames' == frames[1..])
  {
    hide Receive, Advance, HeartbeatTick, TakeSignal, Completed1;
  }

  lemma StepKeepsReports(reports: seq<Report>, sys: System, step: Step)
    requires ReportsInv(reports, sys) && Enabled(sys, step) && !step.Forge?
    ensures ReportsInv(reports + ReportsOf(sys, step), Apply(sys, step))
  {
    hide FullInv, DeliveryInv, ResultsFit, RunReported, ReportsOf, Accounted, Apply, Enabled;
    var sys', all := Apply(sys, step), reports + ReportsOf(sys, step);
    StepKeepsFull(sys, step);
    StepKeepsDelivery(sys, step);
    forall node | node in sys'.links ensures ResultsFit(all, node, sys'.links[node].toServer) { ChannelFits(reports, sys, step, node); }
    forall id | id in sys'.store.tasks && Completed(sys'.store.tasks[id])
      ensures sys'.store.tasks[id].result.Some?
              && Accounted(all, sys'.store.tasks[id].nodeId, id, sys'.store.tasks[id].retryCount + 1, sys'.store.tasks[id].result.value)
    {
      RowAccounted(reports, sys, step, id);
    }
    forall k | 0 <= k < |all| ensures RunReported(sys'.store, all[k]) { RunKept(reports, sys, step, k); }
  }

  lemma RowAccounted(reports: seq<Report>, sys: System, step: Step, id: nat)
    requires ReportsInv(reports, sys) && Enabled(sys, step) && FullInv(Apply(sys, step))
    requires id in Apply(sys, step).store.tasks && Completed(Apply(sys, step).store.tasks[id])
    ensures var row' := Apply(sys, step).store.tasks[id];
            row'.result.Some? && Accounted(reports + ReportsOf(sys, step), row'.nodeId, id, row'.retryCount + 1, row'.result.value)
  {
    hide FullInv, DeliveryInv, RunReported, ReportsOf, Accounted, Apply;
    CompletionStores(sys, step, id);
    var row' := Apply(sys, step).store.tasks[id];
    if step.ServerReceives? && !Completed(sys.store.tasks[id]) {
      assert ResultsFit(reports, step.node, sys.links[step.node].toServer);
      assert sys.links[step.node].toServer[0] in sys.links[step.node].toServer;
    }
    AccountedGrows(reports, ReportsOf(sys, step), row'.nodeId, id, row'.retryCount + 1, row'.result.value);
  }

  lemma RunKept(reports: seq<Report>, sys: System, step: Step, k: nat)
    requires ReportsInv(reports, sys) && Enabled(sys, step) && k < |reports + ReportsOf(sys, step)|
    ensures RunReported(Apply(sys, step).store, (reports + ReportsOf(sys, step))[k])
  {
    hide Inv, TokensOk, ResultsFit, RowsFit, Configured, SessionFits, FramesFit, StoreOk;
    var report := (reports + ReportsOf(sys, step))[k];
    assert RunReported(sys.store, report) by {
      if k >= |reports| && step.ClientReports? { assert LinkFits(sys.store, step.node, sys.links[step.node]); }
    }
    assert StoreOk(sys.store) by { InvStoreOk(sys); }
    StepKeepsRequests(sys, step);
  }

  lemma {:induction false} TraceKeepsReports(reports: seq<Report>, from: System, steps: seq<Step>, sys: System)
    requires ReportsInv(reports, from) && Trace(from, steps, sys) && NoForgery(steps)
    ensures ReportsInv(reports + ReportsAlong(from, steps), sys)
    decreases |steps|
  {
    hide ReportsInv, Enabled, Apply, ReportsOf;
    if steps == [] { assert reports + [] == reports; }
    else {
      StepKeepsReports(reports, from, steps[0]);
      TraceKeepsReports(reports + ReportsOf(from, steps[0]), Apply(from, steps[0]), steps[1..], sys);
      assert reports + ReportsOf(from, steps[0]) + ReportsAlong(Apply(from, steps[0]), steps[1..])
          == reports + (ReportsOf(from, steps[0]) + ReportsAlong(Apply(from, steps[0]), steps[1..]));
    }
  }

  lemma InitReports()
    ensures ReportsInv([], INIT)
  {
    Safety.InitOk();
  }

  /** Where a completed row comes from: some client of the node reported on exactly the dispatch that
      was open. Either that dispatch started no process, and the row is a failure that says why; or a
      process ran, the configured program with its default arguments followed by those the create
      asked for, and the row says what became of it: it is Succeeded if and only if that process
      succeeded and the client had read no cancel, and it stores that process's output. */
  lemma RowsTellWhatHappened(steps: seq<Step>, sys: System, id: nat) returns (report: Report)
    requires Trace(INIT, steps, sys) && NoForgery(steps) && id in sys.store.tasks && Completed(sys.store.tasks[id])
    ensures report in ReportsAlong(INIT, steps) && report.node == sys.store.tasks[id].nodeId
    ensures sys.store.tasks[id].result.Some?
    ensures var row := sys.store.tasks[id];
            var create := CreateOf(INIT, steps, id);
            && create.Some? && create.value.HttpCreate?
            && match report
               case Ran(_, config, run, durationMs) =>
                 && run.taskId == id && run.serial == row.retryCount + 1 && run.exited.Some?
                 && Configured(config, create.value.request.commandName, create.value.request.args, run.program, run.argv)
                 && (row.status.Succeeded? <==> run.exited.value.success && run.cancelReason.None?)
                 && row.result.value.stdout == run.exited.value.stdout && row.result.value.stderr == run.exited.value.stderr
                 && row.result.value.stdoutTruncated == run.exited.value.stdoutTruncated
                 && row.result.value.stderrTruncated == run.exited.value.stderrTruncated
                 && row.result.value.exitCode == run.exited.value.exitCode && row.result.value.error == run.cancelReason
               case NotStarted(_, config, assignment, spawnError, elapsedMs) =>
                 && assignment.taskId == id && assignment.serial == row.retryCount + 1
                 && row.status.Failed? && StartFailure(config, assignment, spawnError, elapsedMs, row.result.value)
  {
    hide Trace, FullInv, DeliveryInv, ResultsFit, Configured, CreateOf, ReportsAlong;
    InitReports();
    TraceKeepsReports([], INIT, steps, sys);
    var reports := ReportsAlong(INIT, steps);
    assert [] + reports == reports;
    var row := sys.store.tasks[id];
    var k :| 0 <= k < |reports| && AccountsFor(reports[k], row.nodeId, id, row.retryCount + 1, row.result.value);
    report := reports[k];
    assert RunReported(sys.store, report);
    RowsAreRequests(steps, sys, id);
    assert RowOk(row) by { InvStoreOk(sys); }
  }
}
