/** Each step of the system performs at most one database operation, and only for its own node. */
module StepOps {
  import opened Prelude
  import opened Topics
  import opened Tasks
  import opened Store
  import opened Messages
  import opened ServerSession
  import opened Protocol
  import Runs = StoreRuns

  lemma OneOp(st: Store, op: Runs.Op)
    ensures Runs.Run(st, [op]) == Runs.Apply(st, op)
  {
    assert [op][..0] == [];
    assert Runs.Run(st, [op][..0]) == st;
  }

  lemma NoOp(st: Store)
    ensures Runs.Run(st, []) == st
  {
  }

  lemma RunAppend(st: Store, a: seq<Runs.Op>, b: seq<Runs.Op>)
    requires |b| <= 1
    ensures Runs.Run(st, a + b) == Runs.Run(Runs.Run(st, a), b)
  {
    if b == [] { assert a + b == a; }
    else {
      OneOp(Runs.Run(st, a), b[0]);
      assert b == [b[0]] && (a + b)[..|a + b| - 1] == a;
    }
  }

  /** At most one operation leads from `st` to `st'`: for the node, if it is about one. */
  predicate Performed(st: Store, ops: seq<Runs.Op>, st': Store, node: Option<string>) {
    |ops| <= 1 && st' == Runs.Run(st, ops) && forall op | op in ops :: Runs.OpNode(st, op) in {None, node}
  }

  lemma HeartbeatOp(node: string, st: Store, s: Session, now: U64) returns (ops: seq<Runs.Op>)
    ensures Performed(st, ops, HeartbeatTick(node, st, s, now).store, Some(node))
    ensures HeartbeatTick(node, st, s, now).store.nextId == st.nextId
  {
    NoOp(st);
    if s.slot.Some? && TimedOut(s.slot.value, now) {
      ops := [Runs.Retry(s.slot.value.taskId, node, TIMEOUT_REASON)];
      OneOp(st, ops[0]);
    } else { ops := []; }
  }

  lemma AdvanceOp(node: string, st: Store, s: Session, now: U64) returns (ops: seq<Runs.Op>)
    requires InHandler(s)
    ensures Performed(st, ops, Advance(node, st, s, now).store, Some(node))
    ensures Advance(node, st, s, now).store.nextId == st.nextId
  {
    hide Runs.Run;
    NoOp(st);
    if s.pc.Registering? { ops := [Runs.Register(s.pc.reg, now)]; OneOp(st, ops[0]); }
    else if s.pc.Dispatching? && Ready(s) { ops := [Runs.Claim(node, now)]; OneOp(st, ops[0]); }
    else { ops := []; }
  }

  lemma ReceiveOp(node: string, st: Store, s: Session, frame: Frame<Topic>, now: U64) returns (ops: seq<Runs.Op>)
    ensures Performed(st, ops, Receive(node, st, s, frame, now).store, Some(node))
  {
    hide Runs.Run, ClaimTask, CatalogFromPb, RequeueIncompleteTasks, UpdateNodeCommands, AcknowledgeTask, SubmitTaskResult;
    NoOp(st);
    ops := [];
    if Receive(node, st, s, frame, now).store != st {
      var payload := frame.payload;
      if frame.topic == OnHello {
        ops := [if payload.ClientHello? then Runs.Requeue(node, REREGISTERED_REASON)
                else Runs.UpdateCommands(node, CatalogFromPb(payload.commands), now)];
      } else if frame.topic == OnControl { ops := [Runs.Claim(node, now)]; }
      else if frame.topic == OnAck { ops := [Runs.Acknowledge(payload.taskId, node, now)]; }
      else { ops := [Runs.Submit(payload.taskId, node, payload.result, now)]; }
      OneOp(st, ops[0]);
    }
  }

  lemma CommitOp(sys: System, step: Step) returns (ops: seq<Runs.Op>)
    requires Enabled(sys, step) && (step.HttpCreate? || step.HttpCancel? || step.Close?)
    ensures Performed(sys.store, ops, Apply(sys, step).store, StepNode(sys, step))
  {
    hide Runs.Run, QueuedRow, CanceledRow, RequeuedRow, FindCommand;
    NoOp(sys.store);
    if step.HttpCancel? && StepNode(sys, step).None? { return []; }
    ops := [if step.HttpCreate? then Runs.Create(step.request, step.audit, step.now)
            else if step.HttpCancel? then Runs.Cancel(step.id, step.reason, step.audit, step.now)
            else Runs.Requeue(step.node, CLOSED_REASON)];
    OneOp(sys.store, ops[0]);
  }

  /** The database operation a step performs, if any. */
  lemma StepIsOp(sys: System, step: Step) returns (ops: seq<Runs.Op>)
    requires Enabled(sys, step)
    ensures Performed(sys.store, ops, Apply(sys, step).store, StepNode(sys, step))
  {
    hide Runs.Run, Receive, Advance, HeartbeatTick, Completed1, CreateTask, CancelTask, RequeueIncompleteTasks;
    if step.HttpCreate? || step.HttpCancel? || step.Close? { ops := CommitOp(sys, step); }
    else if step.ServerHeartbeat? { ops := HeartbeatOp(step.node, sys.store, sys.links[step.node].session, step.now); }
    else if step.ServerAdvances? { ops := AdvanceOp(step.node, sys.store, sys.links[step.node].session, step.now); }
    else if step.ServerReceives? {
      ops := ReceiveOp(step.node, sys.store, sys.links[step.node].session, sys.links[step.node].toServer[0], step.now);
    } else { ops := []; NoOp(sys.store); }
  }
}
