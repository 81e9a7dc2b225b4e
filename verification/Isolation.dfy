/** Nodes do not interfere: whatever frames a node's client sends, whatever ids they name, its
    session steps and its closing requeue leave every other node alone. */
module Isolation {
  import opened Prelude
  import opened Topics
  import opened Tasks
  import opened Store
  import opened Messages
  import opened ServerSession
  import opened ClientSession
  import opened Protocol
  import opened StepOps
  import Runs = StoreRuns

  lemma ReceiveKeepsNextId(node: string, st: Store, s: Session, frame: Frame<Topic>, now: U64)
    ensures Receive(node, st, s, frame, now).store.nextId == st.nextId
  {
    hide ReceiveControl, ReceiveHello;
    if frame.Publish? {
      ControlNextId(node, st, s, frame.payload, now);
      HelloNextId(node, st, s, frame.payload, now);
    }
  }

  lemma ControlNextId(node: string, st: Store, s: Session, payload: Payload, now: U64)
    ensures ReceiveControl(node, st, s, payload, now).store.nextId == st.nextId
  {
    hide Claiming;
    ClaimingNextId(node, st, s, false, now);
  }

  lemma HelloNextId(node: string, st: Store, s: Session, payload: Payload, now: U64)
    ensures ReceiveHello(node, st, s, payload, now).store.nextId == st.nextId
  {
    hide CatalogFromPb, RequeuedRow, Requeueable;
  }

  lemma ClaimingNextId(node: string, st: Store, s: Session, pushed: bool, now: U64)
    ensures Claiming(node, st, s, pushed, now).store.nextId == st.nextId
  {
  }

  lemma AdvanceKeepsNextId(node: string, st: Store, s: Session, now: U64)
    requires InHandler(s)
    ensures Advance(node, st, s, now).store.nextId == st.nextId
  {
    hide Claiming;
    ClaimingNextId(node, st, s, true, now);
  }

  lemma IsolatedOp(st: Store, op: Runs.Op, other: string)
    requires StoreOk(st) && Runs.OpNode(st, op) != Some(other)
    ensures var st' := Runs.Apply(st, op);
            SameRows(st, st', other) && st.nextId <= st'.nextId <= st.nextId + 1 && !Owned(st', other, st.nextId)
  {
    Runs.ApplyIsolates(st, op, other);
    Runs.ApplyKeepsOk(st, op);
  }

  lemma PerformedIsolates(st: Store, ops: seq<Runs.Op>, st': Store, node: Option<string>, other: string)
    requires StoreOk(st) && Performed(st, ops, st', node) && node != Some(other)
    ensures StoreOk(st') && SameRows(st, st', other)
    ensures st.nextId <= st'.nextId <= st.nextId + 1 && !Owned(st', other, st.nextId)
  {
    hide Runs.Apply;
    NoOp(st);
    if ops != [] {
      assert ops == [ops[0]];
      OneOp(st, ops[0]);
      IsolatedOp(st, ops[0], other);
      Runs.ApplyKeepsOk(st, ops[0]);
    }
  }

  /** Any session of a node, in whatever state it is and however many others the node has: no frame
      it receives and no step it takes touches a row of another node. */
  lemma SessionIsolates(node: string, st: Store, s: Session, frame: Frame<Topic>, now: U64, other: string)
    requires StoreOk(st) && node != other
    ensures SameRows(st, Receive(node, st, s, frame, now).store, other)
    ensures SameRows(st, HeartbeatTick(node, st, s, now).store, other)
    ensures InHandler(s) ==> SameRows(st, Advance(node, st, s, now).store, other)
    ensures SameRows(st, RequeueIncompleteTasks(st, node, CLOSED_REASON), other)
  {
    hide Receive, HeartbeatTick, Advance, StoreOk, SameRows;
    var ops := ReceiveOp(node, st, s, frame, now);
    PerformedIsolates(st, ops, Receive(node, st, s, frame, now).store, Some(node), other);
    ops := HeartbeatOp(node, st, s, now);
    PerformedIsolates(st, ops, HeartbeatTick(node, st, s, now).store, Some(node), other);
    if InHandler(s) {
      ops := AdvanceOp(node, st, s, now);
      PerformedIsolates(st, ops, Advance(node, st, s, now).store, Some(node), other);
    }
    IsolatedOp(st, Runs.Requeue(node, CLOSED_REASON), other);
  }

  /** A step about one node, or about none, leaves the rows, the link and the pending notices of
      every other node as they are. (A crash takes all links.) */
  lemma StepIsolates(sys: System, step: Step, other: string)
    requires StoreOk(sys.store) && Enabled(sys, step) && StepNode(sys, step) != Some(other)
    ensures var sys' := Apply(sys, step);
            && SameRows(sys.store, sys'.store, other)
            && sys.store.nextId <= sys'.store.nextId <= sys.store.nextId + 1 && !Owned(sys'.store, other, sys.store.nextId)
            && (!step.Crash? ==> (other in sys.links <==> other in sys'.links))
            && (!step.Crash? && other in sys.links ==> sys'.links[other] == sys.links[other])
            && (!step.Crash? ==> forall notice: Notice | notice.node == other :: sys'.notices[notice] == sys.notices[notice])
  {
    hide StoreOk, Receive, Advance, HeartbeatTick, TakeSignal, ClientReceive, ProgressTick,
         Completed1, RequeueIncompleteTasks, SameRows, CreateTask, Owned;
    var ops := StepIsOp(sys, step);
    PerformedIsolates(sys.store, ops, Apply(sys, step).store, StepNode(sys, step), other);
  }
}
