/** When the heartbeat retries a task that took too long, and how often. */
module Timeouts {
  import opened Prelude
  import opened Topics
  import opened Tasks
  import opened Store
  import opened Messages
  import opened ServerSession
  import opened ClientSession
  import opened Protocol
  import opened Invariant
  import opened StepOps
  import opened Records
  import Runs = StoreRuns
  import Safety
  import Theorems
  import Delivery

  /** The heartbeat of `node` at `now` changes the tables: it retries the task in the slot. */
  predicate Retries(sys: System, node: string, now: U64) {
    Enabled(sys, ServerHeartbeat(node, now)) && Apply(sys, ServerHeartbeat(node, now)).store != sys.store
  }

  /** `timeout` seconds have passed since `since`; at the end of time they have in any case. */
  predicate RunOut(since: nat, timeout: nat, now: nat) {
    since + timeout <= now || now == 0xFFFF_FFFF_FFFF_FFFF
  }

  /** Row `id` alone has changed: it is back in the queue, one retry up, because of its timeout. */
  predicate Requeued(st: Store, st': Store, id: nat) {
    && OnlyRow(st, st', id) && st'.nodes == st.nodes && id in st.tasks && id in st'.tasks
    && st'.tasks[id].status.Queued? && st'.tasks[id].retryCount == st.tasks[id].retryCount + 1
    && st'.tasks[id].retryReason == Some("task timeout expired") && st'.tasks[id].dispatchedAt.None?
  }

  /** A retry closes the open dispatch, the slot's own: the table's retry count reaches its serial. */
  lemma RetryClosesDispatch(sys: System, node: string, now: U64)
    requires Inv(sys) && Retries(sys, node, now)
    ensures sys.links[node].session.slot.Some?
    ensures var slot := sys.links[node].session.slot.value;
            && Owned(sys.store, node, slot.taskId) && Active(sys.store.tasks[slot.taskId])
            && slot.timeoutSecs.Some? && RunOut(slot.dispatchedAt, slot.timeoutSecs.value, now)
            && sys.store.tasks[slot.taskId].dispatchedAt == Some(AsI64(slot.claimedAt))
            && sys.store.tasks[slot.taskId].retryCount + 1 == slot.serial
            && Requeued(sys.store, Apply(sys, ServerHeartbeat(node, now)).store, slot.taskId)
            && Apply(sys, ServerHeartbeat(node, now)).store
               == PutRow(sys.store, slot.taskId, RetriedRow(sys.store.tasks[slot.taskId], TIMEOUT_REASON))
  {
    hide StoreOk, Fifo, LogOk, NoticesOk, ActiveOk, CancelOk, WakeOk, SignalsOk;
    assert SessionOk(sys.store, node, sys.links[node].session, sys.links[node].signals, sys.notices);
  }

  // ----- clocks

  function SessionReading(step: Step, node: string): Option<U64> {
    match step
    case ServerHeartbeat(n, now) => if n == node then Some(now) else None
    case ServerReceives(n, now) => if n == node then Some(now) else None
    case ServerAdvances(n, now) => if n == node then Some(now) else None
    case _ => None
  }

  /** The last reading of the session `node` has after the step; a new session starts afresh. */
  function NextClock(step: Step, node: string, last: U64): U64 {
    if step.Open? && step.node == node then 0
    else match SessionReading(step, node) case None => last case Some(now) => now
  }

  /** Within each session of `node` the clock does not go back; `last` was read last by the present
      one. Between two sessions it may be set to anything. */
  predicate ClockFrom(steps: seq<Step>, node: string, last: U64) {
    steps == [] ||
    ((SessionReading(steps[0], node).Some? ==> last <= SessionReading(steps[0], node).value)
     && ClockFrom(steps[1..], node, NextClock(steps[0], node, last)))
  }

  predicate ClaimedBefore(s: Session, last: U64) {
    && (s.pc.Publishing? || s.pc.Assigning? ==> s.pc.claimedAt <= last)
    && (s.slot.Some? ==> s.slot.value.claimedAt <= s.slot.value.dispatchedAt <= last)
  }

  lemma ReceiveKeepsClaimTime(node: string, st: Store, s: Session, frame: Frame<Topic>, now: U64)
    requires s.pc.Select? && ClaimedBefore(s, now)
    ensures ClaimedBefore(Receive(node, st, s, frame, now).session, now)
  {
    hide ReceiveHello, ReceiveControl, ReceiveAck, ReceiveResult;
    if frame.Publish? {
      var payload := frame.payload;
      assert ClaimedBefore(ReceiveHello(node, st, s, payload, now).session, now) by { HelloKeepsClaimTime(node, st, s, payload, now); }
      assert ClaimedBefore(ReceiveControl(node, st, s, payload, now).session, now) by { ControlKeepsClaimTime(node, st, s, payload, now); }
      RepliesKeepClaimTime(node, st, s, payload, now);
    }
  }

  lemma HelloKeepsClaimTime(node: string, st: Store, s: Session, payload: Payload, now: U64)
    requires s.pc.Select? && ClaimedBefore(s, now)
    ensures ClaimedBefore(ReceiveHello(node, st, s, payload, now).session, now)
  {
    hide RequeueIncompleteTasks, UpdateNodeCommands;
  }

  lemma ControlKeepsClaimTime(node: string, st: Store, s: Session, payload: Payload, now: U64)
    requires s.pc.Select? && ClaimedBefore(s, now)
    ensures ClaimedBefore(ReceiveControl(node, st, s, payload, now).session, now)
  {
    hide ClaimTask;
  }

  lemma RepliesKeepClaimTime(node: string, st: Store, s: Session, payload: Payload, now: U64)
    requires s.pc.Select? && ClaimedBefore(s, now)
    ensures ClaimedBefore(ReceiveAck(node, st, s, payload, now).session, now)
    ensures ClaimedBefore(ReceiveResult(node, st, s, payload, now).session, now)
  {
    hide AcknowledgeTask, SubmitTaskResult;
  }

  lemma AdvanceKeepsClaimTime(node: string, st: Store, s: Session, now: U64)
    requires InHandler(s) && ClaimedBefore(s, now)
    ensures ClaimedBefore(Advance(node, st, s, now).session, now)
  {
    hide ClaimTask, RegisterNode;
  }

  lemma StepKeepsClaimTime(sys: System, step: Step, node: string, last: U64)
    requires Enabled(sys, step) && (node in sys.links ==> ClaimedBefore(sys.links[node].session, last))
    requires SessionReading(step, node).Some? ==> last <= SessionReading(step, node).value
    ensures var now := NextClock(step, node, last);
            node in Apply(sys, step).links ==> ClaimedBefore(Apply(sys, step).links[node].session, now)
  {
    hide Receive, Advance, HeartbeatTick, TakeSignal, ClientReceive, ProgressTick, ClaimedBefore, Completed1,
         CreateTask, CancelTask, RequeueIncompleteTasks;
    var now := NextClock(step, node, last);
    FreshClaimTime(now);
    if node in sys.links {
      LaterClock(sys.links[node].session, last, now);
      if Connected(sys, node) { SessionKeepsClaimTime(sys, step, node, now); }
    }
  }

  lemma SessionKeepsClaimTime(sys: System, step: Step, node: string, now: U64)
    requires Enabled(sys, step) && Connected(sys, node) && ClaimedBefore(sys.links[node].session, now)
    ensures step == ServerReceives(node, now) || step == ServerAdvances(node, now)
            || step == ServerHeartbeat(node, now) || step == ServerSignaled(node) ==>
              ClaimedBefore(Apply(sys, step).links[node].session, now)
  {
    hide Receive, Advance, HeartbeatTick, TakeSignal, ClaimedBefore, Completed1;
    var link := sys.links[node];
    if step == ServerReceives(node, now) { ReceiveKeepsClaimTime(node, sys.store, link.session, link.toServer[0], now); }
    if step == ServerAdvances(node, now) { AdvanceKeepsClaimTime(node, sys.store, link.session, now); }
    if step == ServerHeartbeat(node, now) { TicksKeepClaimTime(node, sys.store, link.session, now, TryDispatch); }
    if step == ServerSignaled(node) { TicksKeepClaimTime(node, sys.store, link.session, now, link.signals[0]); }
  }

  lemma LaterClock(s: Session, last: U64, now: U64)
    requires ClaimedBefore(s, last) && last <= now
    ensures ClaimedBefore(s, now) && ClaimedBefore(s.(pc := Closing), now)
  {
  }

  lemma TicksKeepClaimTime(node: string, st: Store, s: Session, now: U64, signal: Signal)
    requires s.pc.Select? && ClaimedBefore(s, now)
    ensures ClaimedBefore(HeartbeatTick(node, st, s, now).session, now) && ClaimedBefore(TakeSignal(s, signal).0, now)
  {
  }

  lemma FreshClaimTime(now: U64)
    ensures ClaimedBefore(OPENED, now)
  {
  }

  /** The last reading of the present session of `node` after a run. */
  function LastClock(steps: seq<Step>, node: string, last: U64): U64 {
    if steps == [] then last else LastClock(steps[1..], node, NextClock(steps[0], node, last))
  }

  lemma {:induction false} TraceKeepsClaimTime(from: System, steps: seq<Step>, sys: System, node: string, last: U64)
    requires Trace(from, steps, sys) && ClockFrom(steps, node, last)
    requires node in from.links ==> ClaimedBefore(from.links[node].session, last)
    ensures node in sys.links ==> ClaimedBefore(sys.links[node].session, LastClock(steps, node, last))
    decreases |steps|
  {
    hide Apply, Enabled, ClaimedBefore;
    if steps != [] {
      StepKeepsClaimTime(from, steps[0], node, last);
      TraceKeepsClaimTime(Apply(from, steps[0]), steps[1..], sys, node, NextClock(steps[0], node, last));
    }
  }

  /** The time a slot counts from lies between the claim of its task and the session's last reading. */
  lemma SlotCountsFromDispatch(steps: seq<Step>, sys: System, node: string)
    requires Trace(INIT, steps, sys) && ClockFrom(steps, node, 0) && node in sys.links && sys.links[node].session.slot.Some?
    ensures var slot := sys.links[node].session.slot.value;
            slot.claimedAt <= slot.dispatchedAt <= LastClock(steps, node, 0)
  {
    hide Trace;
    TraceKeepsClaimTime(INIT, steps, sys, node, 0);
  }

  /** And it is the reading taken when the slot is occupied, right after the publish. */
  lemma SlotOccupied(node: string, st: Store, s: Session, now: U64)
    requires s.pc.Assigning?
    ensures var s' := Advance(node, st, s, now).session;
            && s'.pc.Select? && s'.slot.Some? && s'.slot.value.dispatchedAt == now
            && s'.slot.value.taskId == s.pc.task.taskId && s'.slot.value.timeoutSecs == s.pc.task.timeoutSecs
            && !s'.slot.value.cancelRequested && !s'.slot.value.ignoreResult
  {
  }

  /** Exactly when a heartbeat retries: the held task is active, was created with a timeout, and that
      timeout has run out since the slot was occupied. */
  lemma RetriesExactly(steps: seq<Step>, sys: System, node: string, now: U64)
    requires Trace(INIT, steps, sys) && Enabled(sys, ServerHeartbeat(node, now))
    ensures Retries(sys, node, now) <==>
              var slot := sys.links[node].session.slot;
              && slot.Some? && ActiveAt(sys.store, node, slot.value.taskId)
              && sys.store.tasks[slot.value.taskId].timeoutSecs.Some?
              && RunOut(slot.value.dispatchedAt, AsU64(sys.store.tasks[slot.value.taskId].timeoutSecs.value), now)
  {
    hide Trace, StoreOk, Fifo, LogOk, NoticesOk, ActiveOk, CancelOk, WakeOk, SignalsOk, Delivery.FramesFit, Delivery.RunFits;
    Delivery.Delivered(steps, sys);
    assert SessionOk(sys.store, node, sys.links[node].session, sys.links[node].signals, sys.notices);
    assert Delivery.LinkFits(sys.store, node, sys.links[node]);
    RetryRecords(sys.store, if sys.links[node].session.slot.Some? then sys.links[node].session.slot.value.taskId else 0, node, TIMEOUT_REASON);
  }

  /** A timeout fires only when the time the task was created with is up, counted from the dispatch
      recorded in the table, as long as no session of the node sees its own clock go back. */
  lemma TimeoutNotEarly(steps: seq<Step>, sys: System, node: string, now: U64)
    requires Trace(INIT, steps, sys) && ClockFrom(steps, node, 0) && Retries(sys, node, now)
    ensures sys.links[node].session.slot.Some? && sys.links[node].session.slot.value.taskId in sys.store.tasks
    ensures var row := sys.store.tasks[sys.links[node].session.slot.value.taskId];
            && row.dispatchedAt.Some? && row.timeoutSecs.Some?
            && RunOut(AsU64(row.dispatchedAt.value), AsU64(row.timeoutSecs.value), now)
  {
    hide Trace, Inv, Retries;
    Theorems.Reached(steps, sys);
    RetriesEnabled(sys, node, now);
    RetryClosesDispatch(sys, node, now);
    RetriesExactly(steps, sys, node, now);
    SlotCountsFromDispatch(steps, sys, node);
  }

  /** What follows a retry: the client is told to cancel, for the same reason the row now gives, and
      the slot ignores whatever result still comes. */
  lemma TimeoutCancels(steps: seq<Step>, sys: System, node: string, now: U64, later: U64)
    requires Trace(INIT, steps, sys) && Retries(sys, node, now)
    ensures Enabled(sys, ServerHeartbeat(node, now))
    ensures var sys1 := Apply(sys, ServerHeartbeat(node, now));
            && Enabled(sys1, ServerAdvances(node, later)) && node in sys1.links
            && var link, link' := sys.links[node], Apply(sys1, ServerAdvances(node, later)).links[node];
            && link.session.slot.Some? && sys1.links[node].toClient == link.toClient
            && var slot := link.session.slot.value;
            && Requeued(sys.store, sys1.store, slot.taskId)
            && link'.toClient == link.toClient + [Publish(OnControl, TaskCancel(slot.taskId, Some("task timeout expired"), slot.serial)), PingReq(later)]
            && link'.session.slot == Some(slot.(cancelRequested := true, ignoreResult := true)) && link'.session.pc.Select?
  {
    hide Trace;
    Theorems.Reached(steps, sys);
    RetryClosesDispatch(sys, node, now);
    hide Inv, RetryTask;
  }

  // ----- at most one retry per dispatch

  lemma {:induction false} RetryCountGrows(from: System, steps: seq<Step>, sys: System, id: nat)
    requires Inv(from) && Trace(from, steps, sys) && id in from.store.tasks
    ensures id in sys.store.tasks && from.store.tasks[id].retryCount <= sys.store.tasks[id].retryCount
    decreases |steps|
  {
    hide Inv, Enabled, Apply;
    if steps != [] {
      var ops := StepIsOp(from, steps[0]);
      OpsKeepRow(from, ops, id);
      Safety.StepKeepsInv(from, steps[0]);
      RetryCountGrows(Apply(from, steps[0]), steps[1..], sys, id);
    }
  }

  lemma OpsKeepRow(from: System, ops: seq<Runs.Op>, id: nat)
    requires Inv(from) && |ops| <= 1 && id in from.store.tasks
    ensures id in Runs.Run(from.store, ops).tasks
    ensures from.store.tasks[id].retryCount <= Runs.Run(from.store, ops).tasks[id].retryCount
  {
    if ops != [] {
      assert ops == [ops[0]];
      OneOp(from.store, ops[0]);
      Runs.ApplySteps(from.store, ops[0], id);
    }
  }

  /** Whatever happens between two timeout retries of a task, they close different dispatches. */
  lemma TimeoutOncePerDispatch(steps1: seq<Step>, sys1: System, now1: U64, steps2: seq<Step>, sys2: System, now2: U64, node: string)
    requires Trace(INIT, steps1, sys1) && Retries(sys1, node, now1)
    requires Trace(Apply(sys1, ServerHeartbeat(node, now1)), steps2, sys2) && Retries(sys2, node, now2)
    ensures sys1.links[node].session.slot.Some? && sys2.links[node].session.slot.Some?
    ensures var slot1, slot2 := sys1.links[node].session.slot.value, sys2.links[node].session.slot.value;
            slot1.taskId == slot2.taskId ==> slot1.serial < slot2.serial
  {
    hide Inv, Retries, Apply, Enabled;
    Theorems.Reached(steps1, sys1);
    RetryClosesDispatch(sys1, node, now1);
    RetriesEnabled(sys1, node, now1);
    var mid := Apply(sys1, ServerHeartbeat(node, now1));
    Safety.StepKeepsInv(sys1, ServerHeartbeat(node, now1));
    Safety.TraceKeepsInv(mid, steps2, sys2);
    RetryClosesDispatch(sys2, node, now2);
    RetryCountGrows(mid, steps2, sys2, sys1.links[node].session.slot.value.taskId);
  }

  lemma RetriesEnabled(sys: System, node: string, now: U64)
    requires Retries(sys, node, now)
    ensures Enabled(sys, ServerHeartbeat(node, now)) && node in sys.links
  {
  }
}
