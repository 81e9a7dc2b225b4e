/** The times recorded in the rows of a run: dispatched, then acked and started, then finished. */
module Timestamps {
  import opened Prelude
  import opened Topics
  import opened Tasks
  import opened Store
  import opened Messages
  import opened ServerSession
  import opened ClientSession
  import opened Protocol
  import opened Invariant
  import opened Timeouts
  import Runs = StoreRuns
  import Isolation
  import Safety
  import Theorems

  ghost predicate RowsInOrder(st: Store, node: string) {
    forall id: nat | Owned(st, node, id) :: Runs.RowInOrder(st.tasks[id])
  }

  /** The times of the open dispatch were read by this session. */
  predicate HeldTimes(st: Store, s: Session, last: U64) {
    !s.pc.Closing? && Held(s).Some? && Held(s).value.taskId in st.tasks && Active(st.tasks[Held(s).value.taskId]) ==>
      && Held(s).value.claimedAt <= last
      && var acked := st.tasks[Held(s).value.taskId].ackedAt;
         acked.Some? ==> AsU64(acked.value) <= last
  }

  ghost predicate TimesOk(sys: System, node: string, last: U64) {
    RowsInOrder(sys.store, node)
    && (node in sys.links ==> HeldTimes(sys.store, sys.links[node].session, last))
  }

  // ----- tables

  predicate ReadsNoClock(op: Runs.Op) { !op.Claim? && !op.Acknowledge? && !op.Submit? }

  /** What reads no session clock leaves active rows alone, and every row in order. */
  lemma QuietTimes(st: Store, op: Runs.Op, id: nat)
    requires StoreOk(st) && ReadsNoClock(op) && id in Runs.Apply(st, op).tasks
    requires id in st.tasks ==> Runs.RowInOrder(st.tasks[id])
    ensures var row' := Runs.Apply(st, op).tasks[id];
            && Runs.RowInOrder(row')
            && (Active(row') ==> id in st.tasks && row' == st.tasks[id])
  {
    if id in st.tasks { assert RowOk(st.tasks[id]); }
  }

  lemma QuietKeepsTimes(st: Store, op: Runs.Op, node: string, s: Session, s': Session, last: U64)
    requires StoreOk(st) && ReadsNoClock(op) && RowsInOrder(st, node)
    requires HeldOk(st, node, s) && HeldTimes(st, s, last)
    requires s'.pc.Closing? || Held(s').None? || (Held(s') == Held(s) && !s.pc.Closing?)
    ensures RowsInOrder(Runs.Apply(st, op), node) && HeldTimes(Runs.Apply(st, op), s', last)
  {
    hide StoreOk;
    var st' := Runs.Apply(st, op);
    forall id: nat | Owned(st', node, id)
      ensures Runs.RowInOrder(st'.tasks[id]) && (Active(st'.tasks[id]) ==> id in st.tasks && st'.tasks[id] == st.tasks[id])
    {
      OwnerKept(st, op, id);
      QuietTimes(st, op, id);
    }
    if Held(s').Some? && !s'.pc.Closing? { OwnerKept(st, op, Held(s).value.taskId); }
  }

  lemma OwnerKept(st: Store, op: Runs.Op, id: nat)
    requires StoreOk(st)
    ensures id in st.tasks ==> id in Runs.Apply(st, op).tasks && Runs.Apply(st, op).tasks[id].nodeId == st.tasks[id].nodeId
  {
    hide Runs.Apply, StoreOk;
    if id in st.tasks { Runs.ApplySteps(st, op, id); }
  }

  // ----- session steps

  ghost predicate Timely(st: Store, node: string, s: Session, last: U64) {
    StoreOk(st) && ShapeOk(s) && HeldOk(st, node, s) && RowsInOrder(st, node) && HeldTimes(st, s, last)
  }

  ghost predicate StillTimely(e: Effect, node: string, now: U64) {
    RowsInOrder(e.store, node) && HeldTimes(e.store, e.session, now)
  }

  lemma ClaimTimes(node: string, st: Store, s: Session, pushed: bool, now: U64)
    requires Timely(st, node, s, now) && s.slot.None? && (s.pc.Select? || s.pc.Dispatching?)
    ensures StillTimely(Claiming(node, st, s, pushed, now), node, now)
  {
    hide StoreOk, ClaimTask;
    Safety.ClaimOutcomes(st, node, now);
  }

  lemma HelloTimes(node: string, st: Store, s: Session, payload: Payload, now: U64)
    requires Timely(st, node, s, now) && s.pc.Select?
    ensures StillTimely(ReceiveHello(node, st, s, payload, now), node, now)
  {
    hide StoreOk, RequeueIncompleteTasks, UpdateNodeCommands, CatalogFromPb;
    var e := ReceiveHello(node, st, s, payload, now);
    if payload.ClientHello? && payload.nodeId == node {
      QuietKeepsTimes(st, Runs.Requeue(node, REREGISTERED_REASON), node, s, e.session, now);
    } else if payload.CommandCatalog? {
      QuietKeepsTimes(st, Runs.UpdateCommands(node, CatalogFromPb(payload.commands), now), node, s, e.session, now);
    }
  }

  lemma AckTimes(node: string, st: Store, s: Session, payload: Payload, now: U64)
    requires Timely(st, node, s, now) && s.pc.Select?
    ensures StillTimely(ReceiveAck(node, st, s, payload, now), node, now)
  {
    if s.slot.Some? { assert RowOk(st.tasks[s.slot.value.taskId]); }
  }

  lemma ResultTimes(node: string, st: Store, s: Session, payload: Payload, now: U64)
    requires Timely(st, node, s, now) && s.pc.Select?
    ensures StillTimely(ReceiveResult(node, st, s, payload, now), node, now)
  {
    if s.slot.Some? { assert RowOk(st.tasks[s.slot.value.taskId]); }
  }

  lemma ReceiveTimes(node: string, st: Store, s: Session, frame: Frame<Topic>, now: U64)
    requires Timely(st, node, s, now) && s.pc.Select?
    ensures StillTimely(Receive(node, st, s, frame, now), node, now)
  {
    hide StoreOk, ShapeOk, HeldOk, RowsInOrder, ReceiveHello, ReceiveAck, ReceiveResult, Claiming;
    if frame.Publish? {
      var payload := frame.payload;
      HelloTimes(node, st, s, payload, now);
      AckTimes(node, st, s, payload, now);
      ResultTimes(node, st, s, payload, now);
      if payload.TaskPullRequest? && s.slot.None? { ClaimTimes(node, st, s, false, now); }
    }
  }

  lemma AdvanceTimes(node: string, st: Store, s: Session, now: U64)
    requires Timely(st, node, s, now) && InHandler(s)
    ensures StillTimely(Advance(node, st, s, now), node, now)
  {
    hide StoreOk, RowsInOrder, Claiming, RegisterNode;
    match s.pc
    case Registering(reg) => QuietKeepsTimes(st, Runs.Register(reg, now), node, s, Advance(node, st, s, now).session, now);
    case Dispatching => if Ready(s) { ClaimTimes(node, st, s, true, now); }
    case _ =>
  }

  lemma HeartbeatTimes(node: string, st: Store, s: Session, now: U64)
    requires Timely(st, node, s, now) && s.pc.Select?
    ensures StillTimely(HeartbeatTick(node, st, s, now), node, now)
  {
    hide StoreOk, RowsInOrder, RetryTask;
    if s.slot.Some? && TimedOut(s.slot.value, now) {
      QuietKeepsTimes(st, Runs.Retry(s.slot.value.taskId, node, TIMEOUT_REASON), node, s, s.(pc := Expired), now);
    }
  }

  // ----- system steps

  lemma TimelyLink(sys: System, node: string, last: U64, now: U64)
    requires Inv(sys) && Connected(sys, node) && TimesOk(sys, node, last) && last <= now
    ensures Timely(sys.store, node, sys.links[node].session, now)
  {
    hide StoreOk, Fifo, LogOk, NoticesOk, HeldOk, ShapeOk, ActiveOk, CancelOk, WakeOk, SignalsOk, RowsInOrder;
    assert SessionOk(sys.store, node, sys.links[node].session, sys.links[node].signals, sys.notices);
  }

  lemma SessionStepTimes(sys: System, step: Step, node: string, last: U64)
    requires Inv(sys) && Enabled(sys, step) && StepNode(sys, step) == Some(node) && TimesOk(sys, node, last)
    requires step.ServerHeartbeat? || step.ServerReceives? || step.ServerAdvances? || step.ServerSignaled?
    requires SessionReading(step, node).Some? ==> last <= SessionReading(step, node).value
    ensures TimesOk(Apply(sys, step), node, NextClock(step, node, last))
  {
    hide Inv, Timely, RowsInOrder, HeldTimes, Receive, Advance, HeartbeatTick, TakeSignal, Completed1;
    var link, now := sys.links[node], NextClock(step, node, last);
    TimelyLink(sys, node, last, now);
    match step
    case ServerHeartbeat(_, _) => HeartbeatTimes(node, sys.store, link.session, now);
    case ServerReceives(_, _) => ReceiveTimes(node, sys.store, link.session, link.toServer[0], now);
    case ServerAdvances(_, _) => AdvanceTimes(node, sys.store, link.session, now);
    case ServerSignaled(_) => SignalTimes(sys.store, link.session, link.signals[0], last);
  }

  lemma SignalTimes(st: Store, s: Session, signal: Signal, last: U64)
    requires s.pc.Select? && HeldTimes(st, s, last)
    ensures HeldTimes(st, TakeSignal(s, signal).0, last)
  {
  }

  lemma CommitTimes(sys: System, step: Step, node: string, last: U64)
    requires Inv(sys) && Enabled(sys, step) && StepNode(sys, step) == Some(node) && TimesOk(sys, node, last)
    requires step.HttpCreate? || step.HttpCancel? || step.Close?
    ensures TimesOk(Apply(sys, step), node, last)
  {
    hide Inv, StoreOk, HeldOk, HeldTimes, RowsInOrder, CreateTask, CancelTask, RequeueIncompleteTasks;
    var op := if step.HttpCreate? then Runs.Create(step.request, step.audit, step.now)
              else if step.HttpCancel? then Runs.Cancel(step.id, step.reason, step.audit, step.now)
              else Runs.Requeue(step.node, CLOSED_REASON);
    StoreOfInv(sys);
    assert Apply(sys, step).store == Runs.Apply(sys.store, op) by { CommitStore(sys, step); }
    if Connected(sys, node) {
      TimelyLink(sys, node, last, last);
      QuietKeepsTimes(sys.store, op, node, sys.links[node].session, sys.links[node].session, last);
    } else {
      HeldNothing(sys.store, node, last);
      QuietKeepsTimes(sys.store, op, node, OPENED, OPENED, last);
      if node in sys.links { ClosingTimes(Apply(sys, step).store, sys.links[node].session, last); }
    }
  }

  lemma CommitStore(sys: System, step: Step)
    requires Enabled(sys, step) && (step.HttpCreate? || step.HttpCancel? || step.Close?)
    ensures Apply(sys, step).store
         == Runs.Apply(sys.store, if step.HttpCreate? then Runs.Create(step.request, step.audit, step.now)
                                  else if step.HttpCancel? then Runs.Cancel(step.id, step.reason, step.audit, step.now)
                                  else Runs.Requeue(step.node, CLOSED_REASON))
  {
    hide QueuedRow, CanceledRow, RequeuedRow, FindCommand;
  }

  lemma StoreOfInv(sys: System)
    requires Inv(sys)
    ensures StoreOk(sys.store)
  {
  }

  lemma HeldNothing(st: Store, node: string, last: U64)
    ensures HeldOk(st, node, OPENED) && HeldTimes(st, OPENED, last)
  {
  }

  lemma ClosingTimes(st: Store, s: Session, last: U64)
    requires s.pc.Closing?
    ensures HeldTimes(st, s, last)
  {
  }

  /** Steps about other nodes, or about no node: the rows stay, and so does the link, if there is one. */
  lemma OtherTimes(sys: System, step: Step, node: string, last: U64)
    requires Inv(sys) && Enabled(sys, step) && StepNode(sys, step) != Some(node) && TimesOk(sys, node, last)
    ensures TimesOk(Apply(sys, step), node, last)
  {
    hide Apply, Inv;
    StoreOfInv(sys);
    Isolation.StepIsolates(sys, step, node);
    var sys' := Apply(sys, step);
    if step.Crash? { CrashLinks(sys); }
    forall id: nat | Owned(sys'.store, node, id) ensures Runs.RowInOrder(sys'.store.tasks[id]) { assert Owned(sys.store, node, id); }
    if node in sys'.links && Connected(sys, node) {
      TimelyLink(sys, node, last, last);
      var s := sys.links[node].session;
      if Held(s).Some? { assert Owned(sys.store, node, Held(s).value.taskId); }
    }
  }

  lemma CrashLinks(sys: System)
    ensures Apply(sys, Crash).links == map[]
  {
  }

  lemma StepKeepsTimes(sys: System, step: Step, node: string, last: U64)
    requires Inv(sys) && Enabled(sys, step) && TimesOk(sys, node, last)
    requires SessionReading(step, node).Some? ==> last <= SessionReading(step, node).value
    ensures TimesOk(Apply(sys, step), node, NextClock(step, node, last))
  {
    hide Inv, RowsInOrder, HeldTimes, ClientReceive, ProgressTick, Receive, Advance, HeartbeatTick, TakeSignal, Completed1,
         CreateTask, CancelTask, RequeueIncompleteTasks;
    if StepNode(sys, step) != Some(node) { OtherTimes(sys, step, node, last); }
    else if step.ServerHeartbeat? || step.ServerReceives? || step.ServerAdvances? || step.ServerSignaled? {
      SessionStepTimes(sys, step, node, last);
    } else if step.HttpCreate? || step.HttpCancel? || step.Close? { CommitTimes(sys, step, node, last); }
    else if step.Open? { HeldNothing(sys.store, node, 0); }
    else if step.Break? { ClosingTimes(sys.store, sys.links[node].session.(pc := Closing), last); }
  }

  lemma {:induction false} TraceKeepsTimes(from: System, steps: seq<Step>, sys: System, node: string, last: U64) returns (now: U64)
    requires Inv(from) && Trace(from, steps, sys) && ClockFrom(steps, node, last) && TimesOk(from, node, last)
    ensures TimesOk(sys, node, now)
    decreases |steps|
  {
    hide Inv, Enabled, Apply, TimesOk, NextClock;
    if steps == [] { now := last; }
    else {
      StepKeepsTimes(from, steps[0], node, last);
      Safety.StepKeepsInv(from, steps[0]);
      now := TraceKeepsTimes(Apply(from, steps[0]), steps[1..], sys, node, NextClock(steps[0], node, last));
    }
  }

  /** In every run in which no session of a node sees its own clock go back, each completed task of
      the node was dispatched, then acked and started at one instant, then finished, whether or not
      an ack came before the result, and whatever the clock did between sessions. */
  lemma TimestampsOfRun(steps: seq<Step>, sys: System, node: string, id: nat)
    requires Trace(INIT, steps, sys) && ClockFrom(steps, node, 0)
    requires Owned(sys.store, node, id) && Completed(sys.store.tasks[id])
    ensures var row := sys.store.tasks[id];
            && row.dispatchedAt.Some? && row.ackedAt.Some? && row.startedAt == row.ackedAt && row.finishedAt.Some?
            && AsU64(row.dispatchedAt.value) <= AsU64(row.ackedAt.value) <= AsU64(row.finishedAt.value)
  {
    Safety.InitOk();
    Theorems.Reached(steps, sys);
    var last := TraceKeepsTimes(INIT, steps, sys, node, 0);
    assert RowOk(sys.store.tasks[id]);
  }
}
