/** Why the system keeps the sessions of one node apart: the code does not. Here a second session of
    a node receives frames while a first one waits for a result, and it is said exactly, for all
    frames, when the first one then stores a result that is no longer that of the open dispatch. */
module Overlap {
  import opened Prelude
  import opened Topics
  import opened Tasks
  import opened Store
  import opened Messages
  import opened ServerSession
  import opened Protocol
  import opened Invariant
  import opened Handshake
  import opened StepOps
  import Runs = StoreRuns
  import Theorems

  /** A session that receives frames one after the other, each handler taken to its end. */
  function Serve(node: string, e: Effect, frames: seq<Frame<Topic>>, clock: nat -> U64): (e': Effect)
    requires e.session.pc.Select?
    ensures e'.session.pc.Select?
    decreases |frames|
  {
    if frames == [] then e else Serve(node, ServeOne(node, e, frames[0], clock), frames[1..], clock)
  }

  function ServeOne(node: string, e: Effect, frame: Frame<Topic>, clock: nat -> U64): (e': Effect)
    requires e.session.pc.Select?
    ensures e'.session.pc.Select?
  {
    var r := Receive(node, e.store, e.session, frame, clock(5));
    Settle(node, Effect(r.store, r.session, e.sent + r.sent), clock)
  }

  // ----- what the frames alone tell

  predicate PullsOne(node: string, frame: Frame<Topic>) {
    frame.Publish? && frame.topic == OnControl && frame.payload.TaskPullRequest?
    && frame.payload.nodeId == node && frame.payload.limit > 0
  }

  predicate Returns(id: nat, frame: Frame<Topic>) {
    frame.Publish? && frame.topic == OnResult && frame.payload.TaskResult? && frame.payload.taskId == id
  }

  /** What has become of the task the first session waits for: `Untouched` by the second session so
      far, `Waiting` in the queue after its hello, `Taken` by it, `Dropped` back into the queue by a
      further hello while its slot still holds the task, or `Over` by a result sent to it. */
  datatype Fate = Untouched | Waiting | Taken | Dropped | Over

  datatype Watch = Watch(fate: Fate, subscribed: bool)

  function Next(w: Watch, node: string, id: nat, frame: Frame<Topic>): Watch {
    var fate := match w.fate
      case Untouched => if !IsHello(node)(frame) then Untouched else if w.subscribed then Taken else Waiting
      case Waiting => if IsSubscribe()(frame) || PullsOne(node, frame) then Taken else Waiting
      case Taken => if IsHello(node)(frame) then Dropped else if Returns(id, frame) then Over else Taken
      case Dropped => if !Returns(id, frame) then Dropped else if w.subscribed then Taken else Waiting
      case Over => Over;
    Watch(fate, w.subscribed || IsSubscribe()(frame))
  }

  function After(w: Watch, node: string, id: nat, frames: seq<Frame<Topic>>): Watch
    decreases |frames|
  {
    if frames == [] then w else After(Next(w, node, id, frames[0]), node, id, frames[1..])
  }

  /** The fate of task `id` once a fresh session of `node` has received `frames`. */
  function FateOf(node: string, id: nat, frames: seq<Frame<Topic>>): Fate {
    After(Watch(Untouched, false), node, id, frames).fate
  }

  // ----- what every handler keeps

  /** Well-formed tables, ids and finished rows. */
  ghost predicate Keeps(st: Store, st': Store) {
    && StoreOk(st') && st'.nextId == st.nextId && st'.tasks.Keys == st.tasks.Keys
    && (forall node | node in st.nodes :: node in st'.nodes)
    && forall id | id in st.tasks :: st'.tasks[id].nodeId == st.tasks[id].nodeId
                                     && (Terminal(st.tasks[id]) ==> st'.tasks[id] == st.tasks[id])
  }

  lemma OpTables(st: Store, op: Runs.Op)
    requires !op.Create?
    ensures var st' := Runs.Apply(st, op);
            st'.nextId == st.nextId && st'.tasks.Keys == st.tasks.Keys && forall node | node in st.nodes :: node in st'.nodes
  {
    hide ClaimedRow, AckedRow, RetriedRow, RequeuedRow, FinishedRow, CanceledRow, Requeueable;
  }

  lemma OpKeeps(st: Store, op: Runs.Op)
    requires StoreOk(st) && !op.Create?
    ensures Keeps(st, Runs.Apply(st, op))
  {
    hide StoreOk, Runs.Apply;
    Runs.ApplyKeepsOk(st, op);
    OpTables(st, op);
    forall id | id in st.tasks ensures id in Runs.Apply(st, op).tasks && Runs.RowStep(st.tasks[id], Runs.Apply(st, op).tasks[id]) {
      Runs.ApplySteps(st, op, id);
    }
  }

  lemma PerformedKeeps(st: Store, ops: seq<Runs.Op>, st': Store, node: string)
    requires StoreOk(st) && Performed(st, ops, st', Some(node)) && st'.nextId == st.nextId
    ensures Keeps(st, st')
  {
    hide Runs.Apply;
    NoOp(st);
    if ops != [] {
      assert ops == [ops[0]];
      OneOp(st, ops[0]);
      if ops[0].Create? { CreateKeeps(st, ops[0]); } else { OpKeeps(st, ops[0]); }
    }
  }

  lemma CreateKeeps(st: Store, op: Runs.Op)
    requires StoreOk(st) && op.Create? && Runs.Apply(st, op).nextId == st.nextId
    ensures Keeps(st, Runs.Apply(st, op))
  {
  }

  lemma {:induction false} SettleKeeps(node: string, e: Effect, clock: nat -> U64)
    requires StoreOk(e.store) && (e.session.pc.Expired? ==> e.session.slot.Some?)
    ensures Keeps(e.store, Settle(node, e, clock).store)
    ensures Settle(node, e, clock).session.subscriptions == e.session.subscriptions
    decreases Rank(e.session.pc)
  {
    hide Advance, StoreOk;
    if InHandler(e.session) {
      var ops := AdvanceOp(node, e.store, e.session, clock(Rank(e.session.pc)));
      var next := Advance(node, e.store, e.session, clock(Rank(e.session.pc)));
      PerformedKeeps(e.store, ops, next.store, node);
      AdvanceHandshake(node, e.store, e.session, clock(Rank(e.session.pc)));
      NextRank(node, e, clock(Rank(e.session.pc)));
      SettleKeeps(node, Effect(next.store, next.session, e.sent + next.sent), clock);
    }
  }

  lemma NextRank(node: string, e: Effect, now: U64)
    requires InHandler(e.session)
    ensures var pc := Advance(node, e.store, e.session, now).session.pc; !pc.Expired? && Rank(pc) < Rank(e.session.pc)
  {
    hide ClaimTask, RegisterNode;
  }

  lemma ServeKeeps(node: string, e: Effect, frame: Frame<Topic>, clock: nat -> U64)
    requires e.session.pc.Select? && StoreOk(e.store)
    ensures Keeps(e.store, ServeOne(node, e, frame, clock).store)
    ensures OnTask in ServeOne(node, e, frame, clock).session.subscriptions
            <==> OnTask in e.session.subscriptions || IsSubscribe()(frame)
  {
    hide Receive, Settle, StoreOk;
    var r := Receive(node, e.store, e.session, frame, clock(5));
    var ops := ReceiveOp(node, e.store, e.session, frame, clock(5));
    ReceiveNextId(node, e.store, e.session, frame, clock(5));
    PerformedKeeps(e.store, ops, r.store, node);
    SettleKeeps(node, Effect(r.store, r.session, e.sent + r.sent), clock);
    ReceiveSubscriptions(node, e.store, e.session, frame, clock(5));
  }

  lemma ReceiveNextId(node: string, st: Store, s: Session, frame: Frame<Topic>, now: U64)
    ensures Receive(node, st, s, frame, now).store.nextId == st.nextId
  {
    hide CatalogFromPb, RequeuedRow, Requeueable, ClaimedRow, AckedRow, FinishedRow, LeastQueued;
  }

  lemma ReceiveSubscriptions(node: string, st: Store, s: Session, frame: Frame<Topic>, now: U64)
    requires s.pc.Select?
    ensures OnTask in Receive(node, st, s, frame, now).session.subscriptions
            <==> OnTask in s.subscriptions || IsSubscribe()(frame)
  {
    hide CatalogFromPb, RequeueIncompleteTasks, ClaimTask, UpdateNodeCommands, AcknowledgeTask, SubmitTaskResult;
  }

  // ----- one frame, seen from the task

  /** No older task of the node is open. */
  ghost predicate Oldest(st: Store, node: string, id: nat) {
    Owned(st, node, id) && forall i: nat | i < id && Owned(st, node, i) :: Terminal(st.tasks[i])
  }

  lemma OldestKept(st: Store, st': Store, node: string, id: nat)
    requires Oldest(st, node, id) && Keeps(st, st')
    ensures Oldest(st', node, id)
  {
  }

  /** So when it is queued, it is what a claim takes. */
  lemma OldestIsNext(st: Store, node: string, id: nat)
    requires StoreOk(st) && Oldest(st, node, id) && st.tasks[id].status.Queued?
    ensures LeastQueued(st, node, 0) == Some(id) && node in st.nodes
  {
    hide RowOk;
    assert QueuedAt(st, node, id) && id < st.nextId;
    forall i: nat | i < id ensures !QueuedAt(st, node, i) {
      if Owned(st, node, i) { assert Terminal(st.tasks[i]); }
    }
  }

  /** The row is only acknowledged, if anything. */
  predicate AtMostAcked(st: Store, st': Store, id: nat) {
    id in st.tasks && id in st'.tasks
    && (st'.tasks[id] == st.tasks[id]
        || (st.tasks[id].status.Dispatched? && st'.tasks[id].status.Running? && st'.tasks[id].retryCount == st.tasks[id].retryCount))
  }

  /** A dispatch that finds the session not ready. */
  lemma DispatchIdle(node: string, e: Effect, clock: nat -> U64)
    requires e.session.pc.Dispatching? && !Ready(e.session)
    ensures Settle(node, e, clock).store == e.store && Settle(node, e, clock).session == e.session.(pc := Select)
  {
    SettleStep(node, e, clock);
    Settled(node, Effect(e.store, e.session.(pc := Select), e.sent + []), clock);
  }

  /** Publishing the claim of `id`, to its end. */
  lemma PublishSettles(node: string, e: Effect, clock: nat -> U64)
    requires e.session.pc.Publishing?
    ensures var e' := Settle(node, e, clock);
            e'.store == e.store && e'.session.registered == e.session.registered
            && e'.session.slot.Some? && e'.session.slot.value.taskId == e.session.pc.task.taskId && !e'.session.slot.value.ignoreResult
  {
    SettleStep(node, e, clock);
    var b := Advance(node, e.store, e.session, clock(2));
    var e2 := Effect(b.store, b.session, e.sent + b.sent);
    SettleStep(node, e2, clock);
    var c := Advance(node, e2.store, e2.session, clock(1));
    Settled(node, Effect(c.store, c.session, e2.sent + c.sent), clock);
  }

  /** The slot holds `id`, whose row is claimed again. */
  predicate TakenBy(st: Store, s: Session, id: nat, retries: nat) {
    s.registered && s.slot.Some? && s.slot.value.taskId == id && !s.slot.value.ignoreResult
    && id in st.tasks && Active(st.tasks[id]) && st.tasks[id].retryCount == retries
  }

  lemma DispatchOldest(node: string, e: Effect, clock: nat -> U64, id: nat)
    requires e.session.pc.Dispatching? && Ready(e.session)
    requires StoreOk(e.store) && Oldest(e.store, node, id) && e.store.tasks[id].status.Queued?
    ensures var e' := Settle(node, e, clock); TakenBy(e'.store, e'.session, id, e.store.tasks[id].retryCount)
  {
    hide StoreOk, LeastQueued;
    OldestIsNext(e.store, node, id);
    SettleStep(node, e, clock);
    var a := Advance(node, e.store, e.session, clock(3));
    PublishSettles(node, Effect(a.store, a.session, e.sent + a.sent), clock);
  }

  lemma SubscribeServed(node: string, e: Effect, frame: Frame<Topic>, clock: nat -> U64, id: nat)
    requires e.session.pc.Select? && frame.Subscribe? && StoreOk(e.store) && Oldest(e.store, node, id)
    ensures var e', s := ServeOne(node, e, frame, clock), e.session;
            && (!s.registered || s.slot.Some? || !(OnTask in s.subscriptions || IsSubscribe()(frame)) ==>
                  e'.store == e.store && e'.session.registered == s.registered && e'.session.slot == s.slot)
            && (s.registered && s.slot.None? && IsSubscribe()(frame) && e.store.tasks[id].status.Queued? ==>
                  TakenBy(e'.store, e'.session, id, e.store.tasks[id].retryCount))
  {
    hide StoreOk, Oldest, Settle;
    OwnedOldest(e.store, node, id);
    var r := Receive(node, e.store, e.session, frame, clock(5));
    var e1 := Effect(r.store, r.session, e.sent + r.sent);
    if Ready(r.session) {
      if e.store.tasks[id].status.Queued? { DispatchOldest(node, e1, clock, id); }
    } else {
      DispatchIdle(node, e1, clock);
    }
  }

  /** The task after a hello: back in the queue, if it was active. */
  lemma HelloRequeues(st: Store, node: string, id: nat)
    requires StoreOk(st) && Oldest(st, node, id) && (st.tasks[id].status.Queued? || Active(st.tasks[id]))
    ensures var st' := RequeueIncompleteTasks(st, node, REREGISTERED_REASON);
            && StoreOk(st') && Oldest(st', node, id) && st'.tasks[id].status.Queued?
            && st'.tasks[id].retryCount == st.tasks[id].retryCount + if Active(st.tasks[id]) then 1 else 0
  {
    var op := Runs.Requeue(node, REREGISTERED_REASON);
    RequeuedOldest(st, node, id);
    assert RequeueIncompleteTasks(st, node, REREGISTERED_REASON) == Runs.Apply(st, op);
    hide StoreOk, RequeueIncompleteTasks, Runs.Apply;
    OpKeeps(st, op);
    OldestKept(st, Runs.Apply(st, op), node, id);
  }

  lemma RequeuedOldest(st: Store, node: string, id: nat)
    requires StoreOk(st) && Owned(st, node, id) && (st.tasks[id].status.Queued? || Active(st.tasks[id]))
    ensures var st' := RequeueIncompleteTasks(st, node, REREGISTERED_REASON);
            id in st'.tasks && st'.tasks[id].status.Queued?
            && st'.tasks[id].retryCount == st.tasks[id].retryCount + if Active(st.tasks[id]) then 1 else 0
  {
    assert RowOk(st.tasks[id]);
  }

  lemma HelloServed(node: string, e: Effect, frame: Frame<Topic>, clock: nat -> U64, id: nat)
    requires e.session.pc.Select? && IsHello(node)(frame) && StoreOk(e.store) && Oldest(e.store, node, id)
    requires e.store.tasks[id].status.Queued? || Active(e.store.tasks[id])
    ensures var e', s, row := ServeOne(node, e, frame, clock), e.session, e.store.tasks[id];
            var retries := row.retryCount + if Active(row) then 1 else 0;
            if s.slot.None? && OnTask in s.subscriptions then TakenBy(e'.store, e'.session, id, retries)
            else e'.session.registered && e'.session.slot == s.slot && id in e'.store.tasks
                 && e'.store.tasks[id].status.Queued? && e'.store.tasks[id].retryCount == retries
  {
    hide StoreOk, Settle, Oldest, RequeueIncompleteTasks, RegisterNode;
    var r := Receive(node, e.store, e.session, frame, clock(5));
    HelloRequeues(e.store, node, id);
    var e1 := Effect(r.store, r.session, e.sent + r.sent);
    SettleStep(node, e1, clock);
    var a := Advance(node, r.store, r.session, clock(4));
    var e2 := Effect(a.store, a.session, e1.sent + a.sent);
    Registered(r.store, r.session.pc.reg, clock(4), node, id);
    if Ready(a.session) { DispatchOldest(node, e2, clock, id); } else { DispatchIdle(node, e2, clock); }
  }

  lemma Registered(st: Store, reg: NodeRegistration, now: U64, node: string, id: nat)
    requires StoreOk(st) && Oldest(st, node, id)
    ensures var st' := RegisterNode(st, reg, now);
            StoreOk(st') && Oldest(st', node, id) && Owned(st', node, id) && st'.tasks == st.tasks
  {
    OpKeeps(st, Runs.Register(reg, now));
  }

  lemma PullServed(node: string, e: Effect, frame: Frame<Topic>, clock: nat -> U64, id: nat)
    requires e.session.pc.Select? && PullsOne(node, frame) && e.session.registered && e.session.slot.None?
    requires StoreOk(e.store) && Oldest(e.store, node, id) && e.store.tasks[id].status.Queued?
    ensures var e' := ServeOne(node, e, frame, clock); TakenBy(e'.store, e'.session, id, e.store.tasks[id].retryCount)
  {
    hide StoreOk, Settle, Oldest, LeastQueued;
    OldestIsNext(e.store, node, id);
    var r := Receive(node, e.store, e.session, frame, clock(5));
    PublishSettles(node, Effect(r.store, r.session, e.sent + r.sent), clock);
  }

  /** The session's own result: an active task is over; a requeued one stays, and may be taken again. */
  lemma ReturnServed(node: string, e: Effect, frame: Frame<Topic>, clock: nat -> U64, id: nat)
    requires e.session.pc.Select? && Returns(id, frame) && StoreOk(e.store) && Oldest(e.store, node, id)
    requires e.session.registered && e.session.slot.Some? && e.session.slot.value.taskId == id && !e.session.slot.value.ignoreResult
    ensures var e', row := ServeOne(node, e, frame, clock), e.store.tasks[id];
            && id in e'.store.tasks
            && (Active(row) ==> Completed(e'.store.tasks[id]))
            && (row.status.Queued? ==>
                  if OnTask in e.session.subscriptions then TakenBy(e'.store, e'.session, id, row.retryCount)
                  else e'.store == e.store && e'.session.registered && e'.session.slot.None?)
  {
    hide StoreOk, Settle, Oldest;
    assert Owned(e.store, node, id) by { OwnedOldest(e.store, node, id); }
    var r := Receive(node, e.store, e.session, frame, clock(5));
    var e1 := Effect(r.store, r.session, e.sent + r.sent);
    OpKeeps(e.store, Runs.Submit(id, node, frame.payload.result, clock(5)));
    SettleKeeps(node, e1, clock);
    if e.store.tasks[id].status.Queued? {
      if Ready(r.session) { DispatchOldest(node, e1, clock, id); } else { DispatchIdle(node, e1, clock); }
    }
  }

  lemma OwnedOldest(st: Store, node: string, id: nat)
    requires Oldest(st, node, id)
    ensures Owned(st, node, id)
  {
  }

  /** Frames of no consequence for the session or the task. */
  lemma OtherServed(node: string, e: Effect, frame: Frame<Topic>, clock: nat -> U64, id: nat)
    requires e.session.pc.Select? && id in e.store.tasks && !frame.Subscribe? && !IsHello(node)(frame)
    requires PullsOne(node, frame) ==> !e.session.registered || e.session.slot.Some?
    requires Returns(id, frame) ==> e.session.slot.None?
    requires e.session.slot.Some? ==> e.session.slot.value.taskId == id
    ensures var e' := ServeOne(node, e, frame, clock); e'.session == e.session && AtMostAcked(e.store, e'.store, id)
  {
    hide CatalogFromPb, RequeueIncompleteTasks, ClaimTask, SubmitTaskResult;
    var r := Receive(node, e.store, e.session, frame, clock(5));
    Settled(node, Effect(r.store, r.session, e.sent + r.sent), clock);
  }

  // ----- the fate is what happens

  /** The second session and the row of task `id` are as the watch says; `retries` is the retry count
      of the row when the first session claimed it. */
  ghost predicate Agrees(node: string, id: nat, retries: nat, e: Effect, w: Watch) {
    && e.session.pc.Select? && (OnTask in e.session.subscriptions <==> w.subscribed)
    && StoreOk(e.store) && Oldest(e.store, node, id)
    && var s, row := e.session, e.store.tasks[id];
       match w.fate
       case Untouched => !s.registered && s.slot.None? && Active(row) && row.retryCount == retries
       case Waiting => s.registered && s.slot.None? && !w.subscribed && row.status.Queued? && row.retryCount > retries
       case Taken => row.retryCount > retries && TakenBy(e.store, s, id, row.retryCount)
       case Dropped => s.registered && s.slot.Some? && s.slot.value.taskId == id && !s.slot.value.ignoreResult
                       && row.status.Queued? && row.retryCount > retries
       case Over => Completed(row)
  }

  lemma NextAgrees(node: string, id: nat, retries: nat, e: Effect, w: Watch, frame: Frame<Topic>, clock: nat -> U64)
    requires Agrees(node, id, retries, e, w)
    ensures Agrees(node, id, retries, ServeOne(node, e, frame, clock), Next(w, node, id, frame))
  {
    hide ServeOne, StoreOk, Oldest;
    ServeKeeps(node, e, frame, clock);
    OldestKept(e.store, ServeOne(node, e, frame, clock).store, node, id);
    OwnedOldest(e.store, node, id);
    if w.fate.Over? { return; }
    if frame.Subscribe? { SubscribeServed(node, e, frame, clock, id); }
    else if IsHello(node)(frame) { HelloServed(node, e, frame, clock, id); }
    else if PullsOne(node, frame) && e.session.registered && e.session.slot.None? { PullServed(node, e, frame, clock, id); }
    else if Returns(id, frame) && e.session.slot.Some? { ReturnServed(node, e, frame, clock, id); }
    else { OtherServed(node, e, frame, clock, id); }
  }

  lemma {:induction false} ServeAgrees(node: string, id: nat, retries: nat, e: Effect, w: Watch, frames: seq<Frame<Topic>>, clock: nat -> U64)
    requires Agrees(node, id, retries, e, w)
    ensures Agrees(node, id, retries, Serve(node, e, frames, clock), After(w, node, id, frames))
    decreases |frames|
  {
    hide ServeOne, Next, StoreOk, Oldest, IsHello, IsSubscribe;
    if frames != [] {
      NextAgrees(node, id, retries, e, w, frames[0], clock);
      ServeAgrees(node, id, retries, ServeOne(node, e, frames[0], clock), Next(w, node, id, frames[0]), frames[1..], clock);
    }
  }

  /** The result of the task a session waits for. */
  lemma ResultStored(node: string, st: Store, s: Session, result: ExecutionResult, now: U64)
    requires s.slot.Some? && !s.slot.value.ignoreResult && Owned(st, node, s.slot.value.taskId)
    ensures var id := s.slot.value.taskId;
            var stored := Receive(node, st, s, Publish(OnResult, TaskResult(id, result, s.slot.value.serial)), now).store;
            && id in stored.tasks
            && if Active(st.tasks[id]) then Completed(stored.tasks[id]) && stored.tasks[id].result == Some(result)
               else stored == st
  {
  }

  /** In any state of a run, let the session of `node` wait for the result of its open dispatch, and
      let another socket of the node be served any frames whatsoever. If the first session's result
      comes next, it is stored if and only if the second session has left the task alone or has taken
      it, and it is then stale if and only if the second session has taken it: the dispatch open in
      the table is the second one's. In all other cases the result is dropped. */
  lemma OverlapStoresStaleResult(steps: seq<Step>, sys: System, node: string, frames: seq<Frame<Topic>>,
                                 result: ExecutionResult, clock: nat -> U64, now: U64)
    requires Trace(INIT, steps, sys) && Connected(sys, node)
    requires sys.links[node].session.pc.Select? && sys.links[node].session.slot.Some?
    requires ActiveAt(sys.store, node, sys.links[node].session.slot.value.taskId)
    ensures var first := sys.links[node].session;
            var id, serial := first.slot.value.taskId, first.slot.value.serial;
            var second := Serve(node, Effect(sys.store, OPENED, []), frames, clock);
            var stored := Receive(node, second.store, first, Publish(OnResult, TaskResult(id, result, serial)), now).store;
            var fate := FateOf(node, id, frames);
            && id in second.store.tasks && id in stored.tasks
            && (stored != second.store <==> fate.Untouched? || fate.Taken?)
            && (stored != second.store ==> Completed(stored.tasks[id]) && stored.tasks[id].result == Some(result))
            && (stored != second.store ==> (second.store.tasks[id].retryCount + 1 != serial <==> fate.Taken?))
  {
    hide Trace, StoreOk, LogOk, NoticesOk, ActiveOk, CancelOk, WakeOk, SignalsOk, Serve, Receive, After;
    Theorems.Reached(steps, sys);
    var first := sys.links[node].session;
    var id := first.slot.value.taskId;
    assert SessionOk(sys.store, node, first, sys.links[node].signals, sys.notices);
    var w, second := Watch(Untouched, false), Effect(sys.store, OPENED, []);
    ServeAgrees(node, id, sys.store.tasks[id].retryCount, second, w, frames, clock);
    ResultStored(node, Serve(node, second, frames, clock).store, first, result, now);
  }

  // ----- in plain words

  predicate Subscribed(frames: seq<Frame<Topic>>) {
    exists i :: 0 <= i < |frames| && IsSubscribe()(frames[i])
  }

  predicate Asks(node: string, frame: Frame<Topic>) {
    IsSubscribe()(frame) || PullsOne(node, frame)
  }

  predicate Asked(node: string, frames: seq<Frame<Topic>>) {
    exists i :: 0 <= i < |frames| && Asks(node, frames[i])
  }

  lemma SubscribedFirst(frames: seq<Frame<Topic>>)
    requires frames != []
    ensures Subscribed(frames) <==> IsSubscribe()(frames[0]) || Subscribed(frames[1..])
  {
    hide IsSubscribe;
    if Subscribed(frames) {
      var i :| 0 <= i < |frames| && IsSubscribe()(frames[i]);
      assert i > 0 ==> IsSubscribe()(frames[1..][i - 1]);
    }
    if Subscribed(frames[1..]) {
      var i :| 0 <= i < |frames[1..]| && IsSubscribe()(frames[1..][i]);
      assert IsSubscribe()(frames[i + 1]);
    }
  }

  lemma AskedFirst(node: string, frames: seq<Frame<Topic>>)
    requires frames != []
    ensures Asked(node, frames) <==> Asks(node, frames[0]) || Asked(node, frames[1..])
  {
    hide Asks;
    if Asked(node, frames) {
      var i :| 0 <= i < |frames| && Asks(node, frames[i]);
      assert i > 0 ==> Asks(node, frames[1..][i - 1]);
    }
    if Asked(node, frames[1..]) {
      var i :| 0 <= i < |frames[1..]| && Asks(node, frames[1..][i]);
      assert Asks(node, frames[i + 1]);
    }
  }

  lemma {:induction false} BeforeHello(w: Watch, node: string, id: nat, before: seq<Frame<Topic>>)
    requires w.fate.Untouched? && forall i | 0 <= i < |before| :: !IsHello(node)(before[i])
    ensures After(w, node, id, before) == Watch(Untouched, w.subscribed || Subscribed(before))
    decreases |before|
  {
    hide IsSubscribe;
    if before != [] {
      BeforeHello(Next(w, node, id, before[0]), node, id, before[1..]);
      SubscribedFirst(before);
    }
  }

  lemma {:induction false} AfterHello(w: Watch, node: string, id: nat, after: seq<Frame<Topic>>)
    requires w.fate.Waiting? || w.fate.Taken?
    requires forall i | 0 <= i < |after| :: !IsHello(node)(after[i]) && !Returns(id, after[i])
    ensures After(w, node, id, after).fate == if w.fate.Taken? || Asked(node, after) then Taken else Waiting
    decreases |after|
  {
    hide IsSubscribe, IsHello, PullsOne, Returns;
    if after != [] {
      assert !IsHello(node)(after[0]) && !Returns(id, after[0]);
      AfterHello(Next(w, node, id, after[0]), node, id, after[1..]);
      AskedFirst(node, after);
    }
  }

  lemma {:induction false} AfterAppend(w: Watch, node: string, id: nat, a: seq<Frame<Topic>>, b: seq<Frame<Topic>>)
    ensures After(w, node, id, a + b) == After(After(w, node, id, a), node, id, b)
    decreases |a|
  {
    hide Next;
    if a == [] { assert a + b == b; }
    else {
      AfterAppend(Next(w, node, id, a[0]), node, id, a[1..], b);
      assert (a + b)[0] == a[0] && (a + b)[1..] == a[1..] + b;
    }
  }

  /** For a second session that says one hello and returns no result for the task: it has taken the
      task if and only if it subscribed to the task topic, before or after the hello, or pulled after. */
  lemma TakenIffAsked(node: string, id: nat, before: seq<Frame<Topic>>, hello: Frame<Topic>, after: seq<Frame<Topic>>)
    requires IsHello(node)(hello) && forall i | 0 <= i < |before| :: !IsHello(node)(before[i])
    requires forall i | 0 <= i < |after| :: !IsHello(node)(after[i]) && !Returns(id, after[i])
    ensures FateOf(node, id, before + [hello] + after) == if Subscribed(before) || Asked(node, after) then Taken else Waiting
  {
    hide IsSubscribe;
    var w := Watch(Untouched, false);
    AfterAppend(w, node, id, before + [hello], after);
    AfterAppend(w, node, id, before, [hello]);
    BeforeHello(w, node, id, before);
    AfterHello(After(After(w, node, id, before), node, id, [hello]), node, id, after);
  }
}
