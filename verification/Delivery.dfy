/** From the request to the process: what a create was asked for is what the row keeps, what every
    assignment carries, and what the client runs; and what a cancel was told is what the client is
    told. For any client and over whole runs. */
module Delivery {
  import opened Prelude
  import opened Topics
  import opened Tasks
  import opened Store
  import opened Messages
  import opened ServerSession
  import opened ClientSession
  import opened Protocol
  import opened Links
  import opened Invariant
  import opened StepOps
  import opened Sent
  import opened Records
  import Runs = StoreRuns
  import Safety

  // ----- rows keep their request

  /** The create that made task `id`. */
  function CreateOf(sys: System, steps: seq<Step>, id: nat): Option<Step>
    decreases |steps|
  {
    if steps == [] || !Enabled(sys, steps[0]) then None
    else if steps[0].HttpCreate? && sys.store.nextId == id && Apply(sys, steps[0]).store != sys.store then Some(steps[0])
    else CreateOf(Apply(sys, steps[0]), steps[1..], id)
  }

  /** `step` is the create whose request the row holds. */
  predicate MadeBy(step: Option<Step>, row: TaskRow) {
    step.Some? && step.value.HttpCreate? && Requested(row, step.value.request, step.value.audit, step.value.now)
  }

  ghost predicate RequestsKept(st: Store, st': Store) {
    forall id | id in st.tasks :: id in st'.tasks && SameRequest(st.tasks[id], st'.tasks[id])
  }

  lemma StepKeepsRequests(sys: System, step: Step)
    requires StoreOk(sys.store) && Enabled(sys, step)
    ensures RequestsKept(sys.store, Apply(sys, step).store)
  {
    hide StoreOk, Enabled, Apply, Runs.Apply;
    var ops := StepIsOp(sys, step);
    OpsKeepRequests(sys.store, ops);
  }

  lemma OpsKeepRequests(st: Store, ops: seq<Runs.Op>)
    requires StoreOk(st) && |ops| <= 1
    ensures RequestsKept(st, Runs.Run(st, ops))
  {
    hide StoreOk, Runs.Apply;
    NoOp(st);
    if ops != [] {
      assert ops == [ops[0]];
      OneOp(st, ops[0]);
      forall id | id in st.tasks ensures id in Runs.Run(st, ops).tasks && SameRequest(st.tasks[id], Runs.Run(st, ops).tasks[id]) {
        Runs.ApplySteps(st, ops[0], id);
      }
    }
  }

  /** New rows come from creates, under the next id, and hold the request. */
  lemma NewRow(sys: System, step: Step, id: nat)
    requires StoreOk(sys.store) && Enabled(sys, step) && id in Apply(sys, step).store.tasks && id !in sys.store.tasks
    ensures step.HttpCreate? && sys.store.nextId == id && MadeBy(Some(step), Apply(sys, step).store.tasks[id])
  {
    hide StoreOk;
    if step.HttpCreate? {
      assert sys.store.nextId !in sys.store.tasks by { NextIdFree(sys.store); }
      hide CreateTask, QueuedRow;
      CreateRecords(sys.store, step.request, step.audit, step.now);
    } else {
      NoNewRow(sys, step, id);
    }
  }

  lemma NextIdFree(st: Store)
    requires StoreOk(st)
    ensures st.nextId !in st.tasks
  {
  }

  lemma NoNewRow(sys: System, step: Step, id: nat)
    requires Enabled(sys, step) && !step.HttpCreate? && id !in sys.store.tasks
    ensures id !in Apply(sys, step).store.tasks
  {
    hide ClientReceive, ProgressTick, TakeSignal, Completed1, Greeting, CanceledRow, RequeuedRow, Requeueable,
         Receive, Advance, HeartbeatTick;
    match step
    case ServerReceives(node, now) => ReceiveAddsNone(node, sys.store, sys.links[node].session, sys.links[node].toServer[0], now, id);
    case ServerAdvances(node, now) => AdvanceAddsNone(node, sys.store, sys.links[node].session, now, id);
    case ServerHeartbeat(node, now) => HeartbeatAddsNone(node, sys.store, sys.links[node].session, now, id);
    case _ =>
  }

  lemma ReceiveAddsNone(node: string, st: Store, s: Session, frame: Frame<Topic>, now: U64, id: nat)
    requires id !in st.tasks
    ensures id !in Receive(node, st, s, frame, now).store.tasks
  {
    hide CatalogFromPb, RequeuedRow, Requeueable, ClaimedRow, AckedRow, FinishedRow, LeastQueued;
  }

  lemma AdvanceAddsNone(node: string, st: Store, s: Session, now: U64, id: nat)
    requires InHandler(s) && id !in st.tasks
    ensures id !in Advance(node, st, s, now).store.tasks
  {
    hide ClaimedRow, LeastQueued;
  }

  lemma HeartbeatAddsNone(node: string, st: Store, s: Session, now: U64, id: nat)
    requires id !in st.tasks
    ensures id !in HeartbeatTick(node, st, s, now).store.tasks
  {
    hide RetriedRow;
  }

  lemma {:induction false} TraceKeepsRequest(from: System, steps: seq<Step>, sys: System, id: nat)
    requires Inv(from) && Trace(from, steps, sys) && id in from.store.tasks
    ensures id in sys.store.tasks && SameRequest(from.store.tasks[id], sys.store.tasks[id])
    decreases |steps|
  {
    hide Inv, Enabled, Apply;
    if steps != [] {
      InvParts(from);
      StepKeepsRequests(from, steps[0]);
      Safety.StepKeepsInv(from, steps[0]);
      TraceKeepsRequest(Apply(from, steps[0]), steps[1..], sys, id);
    }
  }

  lemma {:induction false} MadeAlong(from: System, steps: seq<Step>, sys: System, id: nat)
    requires Inv(from) && Trace(from, steps, sys) && id in sys.store.tasks && id !in from.store.tasks
    ensures MadeBy(CreateOf(from, steps, id), sys.store.tasks[id])
    decreases |steps|
  {
    hide Inv, Enabled, Apply;
    InvParts(from);
    var next := Apply(from, steps[0]);
    Safety.StepKeepsInv(from, steps[0]);
    if id in next.store.tasks {
      NewRow(from, steps[0], id);
      TraceKeepsRequest(next, steps[1..], sys, id);
    } else {
      MadeAlong(next, steps[1..], sys, id);
      if steps[0].HttpCreate? && from.store.nextId == id && next.store != from.store { assert false by { CreateMakes(from, steps[0], id); } }
    }
  }

  lemma CreateMakes(sys: System, step: Step, id: nat)
    requires Enabled(sys, step) && step.HttpCreate? && sys.store.nextId == id && Apply(sys, step).store != sys.store
    ensures id in Apply(sys, step).store.tasks
  {
  }

  /** Every row of a run holds the request of the create that made it, audit and time included. */
  lemma RowsAreRequests(steps: seq<Step>, sys: System, id: nat)
    requires Trace(INIT, steps, sys) && id in sys.store.tasks
    ensures MadeBy(CreateOf(INIT, steps, id), sys.store.tasks[id])
  {
    Safety.InitOk();
    MadeAlong(INIT, steps, sys, id);
  }

  // ----- sessions, frames and processes fit the rows

  /** The assignment carries the row's request, and its attempt is the low 32 bits of the claim's number. */
  predicate Carries(a: TaskAssignment, row: TaskRow) {
    && a.commandName == row.commandName && a.args == row.args && a.createdAt == AsU64(row.createdAt)
    && HoldsOpt(row.timeoutSecs, a.timeoutSecs) && a.attempt == a.serial % 0x1_0000_0000
  }

  predicate TaskFits(st: Store, node: string, task: PendingTask, serial: nat) {
    && Owned(st, node, task.taskId) && serial >= 1
    && var row := st.tasks[task.taskId];
    && task.commandName == row.commandName && task.args == row.args && task.createdAt == AsU64(row.createdAt)
    && HoldsOpt(row.timeoutSecs, task.timeoutSecs) && task.retryCount == (serial - 1) % 0x1_0000_0000
  }

  predicate SessionFits(st: Store, node: string, s: Session) {
    && (s.pc.Publishing? ==> TaskFits(st, node, s.pc.task, s.pc.serial))
    && (s.pc.Assigning? ==> TaskFits(st, node, s.pc.task, s.pc.serial))
    && (s.slot.Some? ==> Owned(st, node, s.slot.value.taskId)
                         && HoldsOpt(st.tasks[s.slot.value.taskId].timeoutSecs, s.slot.value.timeoutSecs))
  }

  /** A cancel carries the stored reason, or says that the task took too long. */
  predicate CancelFits(st: Store, node: string, taskId: nat, reason: Option<string>) {
    Owned(st, node, taskId)
    && (reason == Some("task timeout expired")
        || (st.tasks[taskId].status.Canceled? && reason == st.tasks[taskId].cancelReason))
  }

  /** The assignments and cancels of a frame are about tasks of this node and as the rows say. */
  predicate FrameFits(st: Store, node: string, frame: Frame<Topic>) {
    frame.Publish? ==>
      && (frame.payload.Assign? ==>
            Owned(st, node, frame.payload.assignment.taskId)
            && Carries(frame.payload.assignment, st.tasks[frame.payload.assignment.taskId]))
      && (frame.payload.TaskPullResponse? ==>
            |frame.payload.tasks| <= 1
            && forall a | a in frame.payload.tasks :: Owned(st, node, a.taskId) && Carries(a, st.tasks[a.taskId]))
      && (frame.payload.TaskCancel? ==> CancelFits(st, node, frame.payload.taskId, frame.payload.reason))
  }

  predicate FramesFit(st: Store, node: string, frames: seq<Frame<Topic>>) {
    forall f | f in frames :: FrameFits(st, node, f)
  }

  /** The process is the configured one for the row's request. */
  predicate RunFits(st: Store, config: ClientConfig, client: ClientPhase) {
    client.Looping? && client.running.Some? ==>
      var run := client.running.value;
      && Owned(st, config.nodeId, run.taskId)
      && Configured(config, st.tasks[run.taskId].commandName, st.tasks[run.taskId].args, run.program, run.argv)
  }

  ghost predicate LinkFits(st: Store, node: string, link: Link) {
    link.config.nodeId == node && SessionFits(st, node, link.session) && FramesFit(st, node, link.toClient)
    && RunFits(st, link.config, link.client)
  }

  /** What rows keep, and that canceled ones stay as they are, is all that these speak of. */
  ghost predicate Persists(st: Store, st': Store) {
    RequestsKept(st, st')
    && forall id | id in st.tasks && st.tasks[id].status.Canceled? :: id in st'.tasks && st'.tasks[id] == st.tasks[id]
  }

  lemma StepPersists(sys: System, step: Step)
    requires StoreOk(sys.store) && Enabled(sys, step)
    ensures Persists(sys.store, Apply(sys, step).store)
  {
    hide StoreOk, Enabled, Apply;
    var ops := StepIsOp(sys, step);
    OpsPersist(sys.store, ops);
  }

  lemma OpsPersist(st: Store, ops: seq<Runs.Op>)
    requires StoreOk(st) && |ops| <= 1
    ensures Persists(st, Runs.Run(st, ops))
  {
    hide StoreOk, Runs.Apply;
    OpsKeepRequests(st, ops);
    NoOp(st);
    if ops != [] {
      assert ops == [ops[0]];
      OneOp(st, ops[0]);
      forall id | id in st.tasks && st.tasks[id].status.Canceled?
        ensures id in Runs.Run(st, ops).tasks && Runs.Run(st, ops).tasks[id] == st.tasks[id]
      {
        Runs.ApplySteps(st, ops[0], id);
      }
    }
  }

  lemma SessionPersists(st: Store, st': Store, node: string, s: Session)
    requires Persists(st, st') && SessionFits(st, node, s)
    ensures SessionFits(st', node, s)
  {
  }

  lemma FramesPersist(st: Store, st': Store, node: string, frames: seq<Frame<Topic>>)
    requires Persists(st, st') && FramesFit(st, node, frames)
    ensures FramesFit(st', node, frames)
  {
    forall f | f in frames ensures FrameFits(st', node, f) {
      assert FrameFits(st, node, f);
      if f.Publish? && f.payload.TaskPullResponse? {
        forall a | a in f.payload.tasks ensures Owned(st', node, a.taskId) && Carries(a, st'.tasks[a.taskId]) {
          assert Owned(st, node, a.taskId);
        }
      }
    }
  }

  lemma LinkPersists(st: Store, st': Store, node: string, link: Link)
    requires Persists(st, st') && LinkFits(st, node, link)
    ensures LinkFits(st', node, link)
  {
    hide SessionFits, FramesFit;
    SessionPersists(st, st', node, link.session);
    FramesPersist(st, st', node, link.toClient);
  }

  // ----- session steps

  lemma ClaimingFits(node: string, st: Store, s: Session, pushed: bool, now: U64)
    requires StoreOk(st) && s.slot.None? && (s.pc.Select? || s.pc.Dispatching?)
    ensures var e := Claiming(node, st, s, pushed, now);
            SessionFits(e.store, node, e.session) && FramesFit(e.store, node, e.sent)
  {
    hide StoreOk, ClaimTask, ReadPending, ClaimedRow;
    ClaimRecords(st, node, now);
  }

  lemma AttemptOfSerial(serial: nat)
    requires serial >= 1
    ensures ((serial - 1) % 0x1_0000_0000 + 1) % 0x1_0000_0000 == serial % 0x1_0000_0000
  {
  }

  lemma AdvanceFits(node: string, st: Store, s: Session, now: U64)
    requires StoreOk(st) && InHandler(s) && ShapeOk(s) && SessionFits(st, node, s)
    ensures var e := Advance(node, st, s, now);
            SessionFits(e.store, node, e.session) && FramesFit(e.store, node, e.sent)
  {
    hide StoreOk, Claiming, RegisterNode;
    match s.pc
    case Registering(reg) => Safety.RegisterTasks(st, reg, now);
    case Dispatching => if Ready(s) { ClaimingFits(node, st, s, true, now); }
    case Publishing(_, _, serial, _) => AttemptOfSerial(serial);
    case _ =>
  }

  lemma TicksFit(node: string, st: Store, s: Session, now: U64, signals: seq<Signal>)
    requires StoreOk(st) && s.pc.Select? && SessionFits(st, node, s) && SignalsOk(st, node, signals) && signals != []
    ensures var (s', sent) := TakeSignal(s, signals[0]); SessionFits(st, node, s') && FramesFit(st, node, sent)
  {
    assert signals[0].CancelTaskSignal? ==> Owned(st, node, signals[0].taskId);
  }

  lemma HeartbeatFits(node: string, st: Store, s: Session, now: U64)
    requires StoreOk(st) && s.pc.Select? && SessionFits(st, node, s)
    ensures var e := HeartbeatTick(node, st, s, now);
            SessionFits(e.store, node, e.session) && FramesFit(e.store, node, e.sent)
  {
    hide StoreOk, SessionFits, RetryTask;
    var e := HeartbeatTick(node, st, s, now);
    var ops := HeartbeatOp(node, st, s, now);
    OpsPersist(st, ops);
    SessionPersists(st, e.store, node, s);
    TimeoutFits(e.store, node, s);
  }

  lemma TimeoutFits(st: Store, node: string, s: Session)
    requires SessionFits(st, node, s) && s.pc.Select?
    ensures SessionFits(st, node, s.(pc := Expired))
  {
  }

  /** What a session has received changes what it holds to nothing, or to a claim that fits. */
  lemma ReceiveFits(node: string, st: Store, s: Session, frame: Frame<Topic>, now: U64)
    requires StoreOk(st) && s.pc.Select? && SessionFits(st, node, s)
    ensures var e := Receive(node, st, s, frame, now);
            SessionFits(e.store, node, e.session) && FramesFit(e.store, node, e.sent)
  {
    hide StoreOk, SessionFits, Claiming, CatalogFromPb, RequeueIncompleteTasks, UpdateNodeCommands, AcknowledgeTask, SubmitTaskResult;
    var e := Receive(node, st, s, frame, now);
    var ops := ReceiveOp(node, st, s, frame, now);
    OpsPersist(st, ops);
    SessionPersists(st, e.store, node, s);
    EmptyFits(e.store, node, s);
    if frame.Publish? && frame.topic == OnControl && frame.payload.TaskPullRequest? && s.slot.None? {
      ClaimingFits(node, st, s, false, now);
    }
  }

  /** Sessions that hold what they held, or nothing, and are not publishing. */
  lemma EmptyFits(st: Store, node: string, s: Session)
    requires SessionFits(st, node, s)
    ensures forall s': Session | (s'.slot == s.slot || s'.slot.None?) && !s'.pc.Publishing? && !s'.pc.Assigning? :: SessionFits(st, node, s')
  {
  }

  // ----- client steps

  lemma ReadFits(st: Store, config: ClientConfig, running: Option<RunningTask>, frame: Frame<Topic>,
                 spawnError: Option<string>, elapsedMs: U64)
    requires FrameFits(st, config.nodeId, frame) && RunFits(st, config, Looping(running))
    ensures RunFits(st, config, Looping(ClientReceive(config, running, frame, spawnError, elapsedMs).running))
  {
    hide StartAssignment, Configured;
    if frame.Publish? && frame.payload.Assign? { AckMeansStart(config, frame.payload.assignment, spawnError, elapsedMs); }
    if frame.Publish? && frame.payload.TaskPullResponse? && frame.payload.tasks != [] {
      assert frame.payload.tasks[0] in frame.payload.tasks;
      AckMeansStart(config, frame.payload.tasks[0], spawnError, elapsedMs);
    }
    if running.Some? { BusyStarts(config, running, spawnError, elapsedMs); }
  }

  lemma BusyStarts(config: ClientConfig, running: Option<RunningTask>, spawnError: Option<string>, elapsedMs: U64)
    requires running.Some?
    ensures forall task: TaskAssignment :: StartAssignment(config, running, task, spawnError, elapsedMs) == ClientEffect(running, [])
  {
  }

  // ----- system steps

  ghost predicate DeliveryInv(sys: System) {
    Inv(sys) && forall node | node in sys.links :: LinkFits(sys.store, node, sys.links[node])
  }

  lemma SessionStepFits(sys: System, step: Step)
    requires DeliveryInv(sys) && Enabled(sys, step) && SessionStep(step)
    ensures step.node in Apply(sys, step).links && LinkFits(Apply(sys, step).store, step.node, Apply(sys, step).links[step.node])
    ensures FramesFit(Apply(sys, step).store, step.node, FramesSent(sys, step))
  {
    hide StoreOk, Fifo, LogOk, NoticesOk, HeldOk, ActiveOk, CancelOk, WakeOk, SignalsOk, ShapeOk, Persists,
         Receive, Advance, HeartbeatTick, TakeSignal, Completed1, SessionFits, FramesFit, RunFits;
    var link, st := sys.links[step.node], sys.store;
    assert SessionOk(st, step.node, link.session, link.signals, sys.notices);
    StepPersists(sys, step);
    LinkPersists(st, Apply(sys, step).store, step.node, link);
    match step {
      case ServerHeartbeat(node, now) => HeartbeatFits(node, st, link.session, now);
      case ServerReceives(node, now) => ReceiveFits(node, st, link.session, link.toServer[0], now);
      case ServerAdvances(node, now) => AdvanceFits(node, st, link.session, now);
      case ServerSignaled(node) => TicksFit(node, st, link.session, 0, link.signals);
    }
    FramesJoin(Apply(sys, step).store, step.node, link.toClient, FramesSent(sys, step));
  }

  lemma FramesJoin(st: Store, node: string, a: seq<Frame<Topic>>, b: seq<Frame<Topic>>)
    requires FramesFit(st, node, a) && FramesFit(st, node, b)
    ensures FramesFit(st, node, a + b)
  {
  }

  lemma ClientStepFits(sys: System, step: Step)
    requires DeliveryInv(sys) && Enabled(sys, step) && ClientStep(step)
    ensures step.node in Apply(sys, step).links && LinkFits(Apply(sys, step).store, step.node, Apply(sys, step).links[step.node])
  {
    hide Inv, SessionFits, ClientReceive, ProgressTick, Configured, FrameFits;
    var link := sys.links[step.node];
    assert LinkFits(sys.store, step.node, link);
    match step
    case ClientReceives(_, spawnError, elapsedMs) =>
      assert FrameFits(sys.store, step.node, link.toClient[0]);
      ReadFits(sys.store, link.config, link.client.running, link.toClient[0], spawnError, elapsedMs);
    case _ =>
  }

  lemma OtherLinkFits(sys: System, step: Step, node: string)
    requires DeliveryInv(sys) && Enabled(sys, step) && node in Apply(sys, step).links
    requires !OwnStep(step, node) || step.Forge?
    ensures LinkFits(Apply(sys, step).store, node, Apply(sys, step).links[node])
  {
    hide Inv, SessionFits, FramesFit, RunFits;
    var sys' := Apply(sys, step);
    assert StoreOk(sys.store) by { InvParts(sys); }
    if OwnStep(step, node) {
      assert LinkFits(sys.store, node, sys.links[node]);
    } else {
      StepPersists(sys, step);
      hide Apply, Enabled;
      OtherLinks(sys, step, node);
      if step.Open? && step.node == node { FreshFits(sys'.store, node, step.config); assert step.config.nodeId == node by { OpensOwn(sys, step); } }
      else {
        LinkPersists(sys.store, sys'.store, node, sys.links[node]);
        ClosingFits(sys'.store, node, sys.links[node].session, sys'.links[node].session);
      }
    }
  }

  lemma OpensOwn(sys: System, step: Step)
    requires Enabled(sys, step) && step.Open?
    ensures step.config.nodeId == step.node
  {
  }

  lemma FreshFits(st: Store, node: string, config: ClientConfig)
    ensures SessionFits(st, node, OPENED) && FramesFit(st, node, []) && RunFits(st, config, Greets(0))
  {
  }

  lemma ClosingFits(st: Store, node: string, s: Session, s': Session)
    requires SessionFits(st, node, s) && (s' == s || (s'.pc.Closing? && s' == s.(pc := Closing)))
    ensures SessionFits(st, node, s')
  {
  }

  lemma StepKeepsDelivery(sys: System, step: Step)
    requires DeliveryInv(sys) && Enabled(sys, step)
    ensures DeliveryInv(Apply(sys, step))
  {
    hide Inv, Apply, Enabled, LinkFits;
    Safety.StepKeepsInv(sys, step);
    if SessionStep(step) { SessionStepFits(sys, step); }
    if ClientStep(step) { ClientStepFits(sys, step); }
    forall node | node in Apply(sys, step).links ensures LinkFits(Apply(sys, step).store, node, Apply(sys, step).links[node]) {
      if !OwnStep(step, node) || step.Forge? { OtherLinkFits(sys, step, node); }
    }
  }

  lemma {:induction false} TraceKeepsDelivery(from: System, steps: seq<Step>, sys: System)
    requires DeliveryInv(from) && Trace(from, steps, sys)
    ensures DeliveryInv(sys)
    decreases |steps|
  {
    hide DeliveryInv, Enabled, Apply;
    if steps != [] {
      StepKeepsDelivery(from, steps[0]);
      TraceKeepsDelivery(Apply(from, steps[0]), steps[1..], sys);
    }
  }

  lemma Delivered(steps: seq<Step>, sys: System)
    requires Trace(INIT, steps, sys)
    ensures DeliveryInv(sys)
  {
    Safety.InitOk();
    TraceKeepsDelivery(INIT, steps, sys);
  }

  // ----- the results

  /** The assignment is what the create asked for. */
  predicate AsRequested(a: TaskAssignment, step: Option<Step>, node: string) {
    && step.Some? && step.value.HttpCreate?
    && var request := step.value.request;
    && request.nodeId == node && a.commandName == request.commandName && a.args == request.args
    && a.timeoutSecs == request.timeoutSecs && a.createdAt == step.value.now
    && a.attempt == a.serial % 0x1_0000_0000
  }

  /** Whatever a session sends, pushed or pulled, carries at most one assignment, and that one is what
      the create of its task asked for, under the number of its claim. */
  lemma AssignmentsCarryRequests(steps: seq<Step>, sys: System, step: Step, frame: Frame<Topic>)
    requires Trace(INIT, steps, sys) && Enabled(sys, step) && SessionStep(step)
    requires frame in FramesSent(sys, step) && frame.Publish?
    ensures frame.payload.Assign? ==>
              AsRequested(frame.payload.assignment, CreateOf(INIT, steps, frame.payload.assignment.taskId), step.node)
    ensures frame.payload.TaskPullResponse? ==>
              |frame.payload.tasks| <= 1
              && forall a | a in frame.payload.tasks :: AsRequested(a, CreateOf(INIT, steps, a.taskId), step.node)
  {
    hide Trace, DeliveryInv, Apply, Enabled, FramesSent, CreateOf;
    Delivered(steps, sys);
    SessionStepFits(sys, step);
    var st' := Apply(sys, step).store;
    assert FrameFits(st', step.node, frame);
    forall a: TaskAssignment | Owned(st', step.node, a.taskId) && Carries(a, st'.tasks[a.taskId])
      ensures AsRequested(a, CreateOf(INIT, steps, a.taskId), step.node)
    {
      if a.taskId !in sys.store.tasks { assert false by { InvStore(sys); NewRow(sys, step, a.taskId); } }
      RowsAreRequests(steps, sys, a.taskId);
      InvStore(sys);
      StepKeepsRequests(sys, step);
    }
  }

  lemma InvStore(sys: System)
    requires DeliveryInv(sys)
    ensures StoreOk(sys.store)
  {
  }

  /** Every process in a run is the one its client configures for the command that the create of its
      task asked for, with the default arguments followed by exactly the arguments asked for. */
  lemma ProcessesRunRequests(steps: seq<Step>, sys: System, node: string)
    requires Trace(INIT, steps, sys) && node in sys.links
    requires sys.links[node].client.Looping? && sys.links[node].client.running.Some?
    ensures var run := sys.links[node].client.running.value;
            var create := CreateOf(INIT, steps, run.taskId);
            && create.Some? && create.value.HttpCreate? && create.value.request.nodeId == node
            && Configured(sys.links[node].config, create.value.request.commandName, create.value.request.args, run.program, run.argv)
  {
    hide Trace, Inv, CreateOf, Configured, SessionFits, FramesFit;
    Delivered(steps, sys);
    assert LinkFits(sys.store, node, sys.links[node]);
    RowsAreRequests(steps, sys, sys.links[node].client.running.value.taskId);
  }

  /** Every cancel a session sends says that the task took too long, or gives the reason stored with
      the cancel of the task. */
  lemma CancelsCarryReasons(steps: seq<Step>, sys: System, step: Step, frame: Frame<Topic>)
    requires Trace(INIT, steps, sys) && Enabled(sys, step) && SessionStep(step)
    requires frame in FramesSent(sys, step) && frame.Publish? && frame.payload.TaskCancel?
    ensures CancelFits(Apply(sys, step).store, step.node, frame.payload.taskId, frame.payload.reason)
  {
    hide Trace, DeliveryInv, Apply, Enabled, FramesSent;
    Delivered(steps, sys);
    SessionStepFits(sys, step);
    assert FrameFits(Apply(sys, step).store, step.node, frame);
  }
}
