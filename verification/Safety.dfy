/** Every step keeps the invariant. */
module Safety {
  import opened Prelude
  import opened Topics
  import opened Tasks
  import opened Store
  import opened Messages
  import opened ServerSession
  import opened ClientSession
  import opened Protocol
  import opened Invariant
  import Runs = StoreRuns

  // ----- tables

  /** What a row may do without touching the order of completion. */
  predicate QuietRow(row: TaskRow, row': TaskRow) {
    && row'.nodeId == row.nodeId
    && (Terminal(row) ==> row' == row)
    && (Active(row') ==> Active(row))
    && (Completed(row') ==> Completed(row))
  }

  ghost predicate Extends(st: Store, st': Store) {
    && (forall id | id in st.tasks :: id in st'.tasks)
    && (forall id | id in st'.tasks && id !in st.tasks :: id >= st.nextId && st'.tasks[id].status.Queued?)
  }

  ghost predicate Quiet(st: Store, st': Store) {
    && Extends(st, st')
    && (forall id | id in st.tasks && id in st'.tasks :: QuietRow(st.tasks[id], st'.tasks[id]))
  }

  ghost predicate IdsOk(st: Store) {
    forall id | id in st.tasks :: id < st.nextId
  }

  lemma QuietKeepsFifo(st: Store, st': Store)
    requires IdsOk(st) && Fifo(st) && Quiet(st, st')
    ensures Fifo(st')
  {
    forall i: nat, j: nat | i in st'.tasks && j in st'.tasks && i < j && st'.tasks[i].nodeId == st'.tasks[j].nodeId
                       && Active(st'.tasks[j])
      ensures Terminal(st'.tasks[i])
    {
      assert j in st.tasks;
      assert i in st.tasks;
      assert QuietRow(st.tasks[i], st'.tasks[i]) && QuietRow(st.tasks[j], st'.tasks[j]);
    }
  }

  lemma QuietKeepsLog(st: Store, st': Store, log: seq<Completion>)
    requires IdsOk(st) && LogOk(st, log) && Quiet(st, st')
    ensures LogOk(st', log)
  {
    assert LogRows(st', log);
    PastKept(st, st', log);
    forall i | i in st'.tasks && Completed(st'.tasks[i]) ensures Logged(log, i) {
      assert i in st.tasks;
      assert QuietRow(st.tasks[i], st'.tasks[i]);
    }
  }

  lemma PastKept(st: Store, st': Store, log: seq<Completion>)
    requires IdsOk(st) && LogRows(st, log) && LogPast(st, log) && Extends(st, st')
    requires forall id | id in st.tasks && id in st'.tasks ::
               st'.tasks[id].nodeId == st.tasks[id].nodeId && (Terminal(st.tasks[id]) ==> Terminal(st'.tasks[id]))
    ensures LogPast(st', log)
  {
    forall k, i: nat | 0 <= k < |log| && Owned(st', log[k].node, i) && i < log[k].taskId
      ensures Terminal(st'.tasks[i])
    {
      assert Owned(st, log[k].node, log[k].taskId);
      assert i in st.tasks;
      assert Owned(st, log[k].node, i);
    }
  }

  predicate QuietOp(op: Runs.Op) { !op.Claim? && !op.Submit? }

  lemma QuietOpRow(st: Store, op: Runs.Op, id: nat)
    requires IdsOk(st) && QuietOp(op) && id in st.tasks
    ensures id in Runs.Apply(st, op).tasks && QuietRow(st.tasks[id], Runs.Apply(st, op).tasks[id])
  {
  }

  lemma OpExtends(st: Store, op: Runs.Op)
    ensures Extends(st, Runs.Apply(st, op)) && Runs.Apply(st, op).nextId >= st.nextId
  {
  }

  lemma TerminalKeepsNotices(st: Store, st': Store, notices: multiset<Notice>)
    requires NoticesOk(st, notices)
    requires forall id | id in st.tasks && Terminal(st.tasks[id]) :: id in st'.tasks && st'.tasks[id] == st.tasks[id]
    ensures NoticesOk(st', notices)
  {
  }

  ghost predicate TablesOk(st: Store, log: seq<Completion>, notices: multiset<Notice>) {
    StoreOk(st) && Fifo(st) && LogOk(st, log) && NoticesOk(st, notices)
  }

  lemma IsolatesAll(st: Store, op: Runs.Op, node: string)
    requires StoreOk(st) && Runs.OpNode(st, op) in {None, Some(node)}
    ensures forall other | other != node :: SameRows(st, Runs.Apply(st, op), other)
  {
    forall other | other != node ensures SameRows(st, Runs.Apply(st, op), other) {
      Runs.ApplyIsolates(st, op, other);
    }
  }

  /** What every database operation but claim and submit gives at once. */
  lemma QuietOpKeeps(st: Store, op: Runs.Op, log: seq<Completion>, notices: multiset<Notice>)
    requires TablesOk(st, log, notices) && QuietOp(op)
    ensures TablesOk(Runs.Apply(st, op), log, notices)
  {
    var st' := Runs.Apply(st, op);
    Runs.ApplyKeepsOk(st, op);
    OpExtends(st, op);
    forall id | id in st.tasks ensures id in st'.tasks && QuietRow(st.tasks[id], st'.tasks[id]) {
      QuietOpRow(st, op, id);
    }
    QuietKeepsFifo(st, st');
    QuietKeepsLog(st, st', log);
    TerminalKeepsNotices(st, st', notices);
  }

  /** A claim changes one row, the least queued one of the node. */
  lemma ClaimRows(st: Store, node: string, now: U64)
    requires IdsOk(st)
    ensures var st' := ClaimTask(st, node, now).0;
            && st'.tasks.Keys == st.tasks.Keys
            && (forall id | id in st.tasks :: st'.tasks[id].nodeId == st.tasks[id].nodeId)
            && (forall id | id in st.tasks && !st.tasks[id].status.Queued? :: st'.tasks[id] == st.tasks[id])
            && (forall id | id in st.tasks && st.tasks[id].status.Queued? && st'.tasks[id] != st.tasks[id] ::
                  st.tasks[id].nodeId == node && st'.tasks[id].status.Dispatched?
                  && forall i: nat | i < id :: !QueuedAt(st, node, i))
  {
  }

  lemma ClaimKeepsFifo(st: Store, node: string, now: U64)
    requires IdsOk(st) && Fifo(st)
    requires forall id: nat :: !ActiveAt(st, node, id)
    ensures Fifo(ClaimTask(st, node, now).0)
  {
    var st' := ClaimTask(st, node, now).0;
    ClaimRows(st, node, now);
    forall i: nat, j: nat | i in st'.tasks && j in st'.tasks && i < j && st'.tasks[i].nodeId == st'.tasks[j].nodeId
                       && Active(st'.tasks[j])
      ensures Terminal(st'.tasks[i])
    {
      assert i in st.tasks && j in st.tasks;
      if st'.tasks[j] != st.tasks[j] {
        assert !QueuedAt(st, node, i) && !ActiveAt(st, node, i);
      } else {
        assert Terminal(st.tasks[i]);
      }
    }
  }

  lemma ClaimKeeps(st: Store, node: string, now: U64, log: seq<Completion>, notices: multiset<Notice>)
    requires TablesOk(st, log, notices)
    requires forall id: nat :: !ActiveAt(st, node, id)
    ensures TablesOk(ClaimTask(st, node, now).0, log, notices)
  {
    var op := Runs.Claim(node, now);
    var st' := ClaimTask(st, node, now).0;
    assert st' == Runs.Apply(st, op);
    Runs.ApplyKeepsOk(st, op);
    ClaimKeepsFifo(st, node, now);
    ClaimRows(st, node, now);
    assert forall id | id in st.tasks && Terminal(st.tasks[id]) :: st'.tasks[id] == st.tasks[id];
    PastKept(st, st', log);
    assert LogRows(st', log);
    forall i | i in st'.tasks && Completed(st'.tasks[i]) ensures Logged(log, i) {
      assert i in st.tasks && Completed(st.tasks[i]);
    }
    TerminalKeepsNotices(st, st', notices);
  }

  /** Storing the result of an active task appends it to the log in order. */
  lemma SubmitKeeps(st: Store, id: nat, node: string, result: ExecutionResult, now: U64,
                    log: seq<Completion>, notices: multiset<Notice>, entry: Completion)
    requires TablesOk(st, log, notices)
    requires ActiveAt(st, node, id) && entry.node == node && entry.taskId == id
    ensures TablesOk(SubmitTaskResult(st, id, node, result, now).0, log + [entry], notices)
  {
    var op := Runs.Submit(id, node, result, now);
    var row' := FinishedRow(st.tasks[id], result, now);
    var st' := PutRow(st, id, row');
    assert st' == Runs.Apply(st, op);
    Runs.ApplyKeepsOk(st, op);
    assert Completed(row') && row'.nodeId == node;
    SubmitKeepsLog(st, id, row', log, entry);
    assert Fifo(st');
    TerminalKeepsNotices(st, st', notices);
  }

  lemma SubmitKeepsLog(st: Store, id: nat, row': TaskRow, log: seq<Completion>, entry: Completion)
    requires IdsOk(st) && Fifo(st) && LogOk(st, log)
    requires ActiveAt(st, entry.node, id) && entry.taskId == id && Completed(row') && row'.nodeId == entry.node
    ensures LogOk(PutRow(st, id, row'), log + [entry])
  {
    var st' := PutRow(st, id, row');
    PastKept(st, st', log);
    assert LogRows(st', log) && LogSorted(log);
    assert LogPast(st', [entry]) by {
      forall i: nat | Owned(st', entry.node, i) && i < id ensures Terminal(st'.tasks[i]) { assert i in st.tasks; }
    }
    assert forall j | 0 <= j < |log| && log[j].node == entry.node :: log[j].taskId < id by {
      forall j | 0 <= j < |log| && log[j].node == entry.node ensures log[j].taskId < id {
        assert Owned(st, log[j].node, log[j].taskId) && Completed(st.tasks[log[j].taskId]);
        assert Owned(st, log[j].node, id);
      }
    }
    LogAppend(st', log, entry);
    forall i | i in st'.tasks && Completed(st'.tasks[i]) ensures Logged(log + [entry], i) {
      LoggedAppend(log, entry, i);
    }
  }

  lemma LogAppend(st: Store, log: seq<Completion>, entry: Completion)
    requires LogRows(st, log) && LogPast(st, log) && LogSorted(log)
    requires Owned(st, entry.node, entry.taskId) && Completed(st.tasks[entry.taskId]) && LogPast(st, [entry])
    requires forall j | 0 <= j < |log| && log[j].node == entry.node :: log[j].taskId < entry.taskId
    ensures LogRows(st, log + [entry]) && LogPast(st, log + [entry]) && LogSorted(log + [entry])
  {
    var log' := log + [entry];
    assert [entry][0] == entry;
    forall k, i: nat | 0 <= k < |log'| && Owned(st, log'[k].node, i) && i < log'[k].taskId
      ensures Terminal(st.tasks[i])
    {
      if k < |log| { assert log'[k] == log[k]; } else { assert log'[k] == [entry][0]; }
    }
  }

  lemma LoggedAppend(log: seq<Completion>, entry: Completion, id: nat)
    requires Logged(log, id) || entry.taskId == id
    ensures Logged(log + [entry], id)
  {
    var log' := log + [entry];
    if Logged(log, id) {
      var k :| 0 <= k < |log| && log[k].taskId == id;
      assert log'[k].taskId == id;
    } else {
      assert log'[|log|].taskId == id;
    }
  }

  // ----- session steps

  ghost predicate SystemOk(st: Store, node: string, s: Session, signals: seq<Signal>,
                           notices: multiset<Notice>, log: seq<Completion>) {
    TablesOk(st, log, notices) && SessionOk(st, node, s, signals, notices)
  }

  /** The step's effect is fine for this session and invisible to every other node. */
  ghost predicate EffectOk(st: Store, node: string, e: Effect, signals: seq<Signal>,
                           notices: multiset<Notice>, log: seq<Completion>) {
    SystemOk(e.store, node, e.session, signals, notices, log)
    && forall other | other != node :: SameRows(st, e.store, other)
  }

  /** Another node's rows and notices are all a session's invariant speaks of. */
  lemma SessionFrame(st: Store, st': Store, node: string, s: Session, signals: seq<Signal>,
                     notices: multiset<Notice>, notices': multiset<Notice>)
    requires SessionOk(st, node, s, signals, notices) && SameRows(st, st', node)
    requires forall notice | notice in notices && notice.node == node :: notice in notices'
    ensures SessionOk(st', node, s, signals, notices')
  {
    if !s.pc.Closing? {
      if Held(s).Some? { assert Owned(st, node, Held(s).value.taskId); }
      forall id: nat | ActiveAt(st', node, id) ensures ActiveAt(st, node, id) { assert Owned(st', node, id); }
      forall id: nat | QueuedAt(st', node, id) ensures QueuedAt(st, node, id) { assert Owned(st', node, id); }
      forall i | 0 <= i < |signals| && signals[i].CancelTaskSignal?
        ensures Owned(st', node, signals[i].taskId) && st'.tasks[signals[i].taskId] == st.tasks[signals[i].taskId]
      {
        assert Owned(st, node, signals[i].taskId);
      }
    }
  }

  /** Canceled rows never change, so pending cancel signals stay right. */
  lemma SignalsKept(st: Store, st': Store, node: string, signals: seq<Signal>)
    requires SignalsOk(st, node, signals)
    requires forall id | id in st.tasks && Terminal(st.tasks[id]) :: id in st'.tasks && st'.tasks[id] == st.tasks[id]
    ensures SignalsOk(st', node, signals)
  {
  }

  lemma ClaimOutcomes(st: Store, node: string, now: U64)
    requires StoreOk(st)
    ensures var (st', outcome) := ClaimTask(st, node, now);
            if outcome.Claimed? then
              var id := outcome.task.taskId;
              && QueuedAt(st, node, id)
              && st'.tasks == st.tasks[id := ClaimedRow(st.tasks[id], now)]
              && outcome.task == ReadPending(id, st.tasks[id])
            else
              st'.tasks == st.tasks && forall id: nat :: !QueuedAt(st, node, id)
  {
    GuardsAreExact(st, node, "");
    if node !in st.nodes {
      forall id: nat ensures !QueuedAt(st, node, id) { assert id in st.tasks ==> st.tasks[id].nodeId in st.nodes; }
    }
  }

  lemma ClaimedSession(st: Store, st': Store, node: string, s: Session, s': Session, id: nat, now: U64,
                       signals: seq<Signal>, notices: multiset<Notice>)
    requires QueuedAt(st, node, id) && st'.tasks == st.tasks[id := ClaimedRow(st.tasks[id], now)]
    requires s.slot.None? && s.registered && SignalsOk(st, node, signals)
    requires forall other: nat :: !ActiveAt(st, node, other)
    requires s' == s.(pc := s'.pc) && s'.pc.Publishing?
    requires s'.pc.task.taskId == id && s'.pc.serial == st.tasks[id].retryCount + 1 && s'.pc.claimedAt == now
    ensures SessionOk(st', node, s', signals, notices)
  {
    assert st'.tasks[id].status.Dispatched?;
    forall other: nat | ActiveAt(st', node, other) ensures other == id { assert !ActiveAt(st, node, other); }
  }

  lemma IdleSession(st: Store, st': Store, node: string, s: Session, signals: seq<Signal>, notices: multiset<Notice>)
    requires st'.tasks == st.tasks && s.slot.None? && s.pc.Select? && SignalsOk(st, node, signals)
    requires forall id: nat :: !QueuedAt(st, node, id) && !ActiveAt(st, node, id)
    ensures SessionOk(st', node, s, signals, notices)
  {
    forall id: nat ensures !QueuedAt(st', node, id) && !ActiveAt(st', node, id) {
      assert !QueuedAt(st, node, id) && !ActiveAt(st, node, id);
    }
  }

  lemma ClaimingOk(st: Store, node: string, s: Session, pushed: bool, now: U64,
                   signals: seq<Signal>, notices: multiset<Notice>, log: seq<Completion>)
    requires SystemOk(st, node, s, signals, notices, log)
    requires s.registered && s.slot.None? && (s.pc.Dispatching? || s.pc.Select?)
    ensures EffectOk(st, node, Claiming(node, st, s, pushed, now), signals, notices, log)
  {
    hide StoreOk, Fifo, LogOk, NoticesOk, SameRows, ClaimTask, RowOk;
    var e := Claiming(node, st, s, pushed, now);
    assert e.store == Runs.Apply(st, Runs.Claim(node, now));
    assert Held(s).None?;
    assert forall id: nat :: !ActiveAt(st, node, id);
    ClaimKeeps(st, node, now, log, notices);
    IsolatesAll(st, Runs.Claim(node, now), node);
    ClaimOutcomes(st, node, now);
    if e.session.pc.Publishing? {
      ClaimedSession(st, e.store, node, s, e.session, e.session.pc.task.taskId, now, signals, notices);
    } else {
      assert e.session == s.(pc := Select);
      IdleSession(st, e.store, node, e.session, signals, notices);
    }
  }

  /** A session's invariant reads only the tasks table. */
  lemma SameTasks(st: Store, st': Store, node: string, s: Session, signals: seq<Signal>, notices: multiset<Notice>)
    requires SessionOk(st, node, s, signals, notices) && st'.tasks == st.tasks
    ensures SessionOk(st', node, s, signals, notices)
  {
    SessionFrame(st, st', node, s, signals, notices, notices);
  }

  /** Any quiet operation for this node keeps the tables and the other nodes' rows. */
  lemma QuietEffect(st: Store, op: Runs.Op, node: string, log: seq<Completion>, notices: multiset<Notice>)
    requires TablesOk(st, log, notices) && QuietOp(op) && Runs.OpNode(st, op) in {None, Some(node)}
    ensures TablesOk(Runs.Apply(st, op), log, notices)
    ensures forall other | other != node :: SameRows(st, Runs.Apply(st, op), other)
  {
    QuietOpKeeps(st, op, log, notices);
    IsolatesAll(st, op, node);
  }

  lemma NoChange(st: Store)
    ensures forall other :: SameRows(st, st, other)
  {
  }

  lemma AdvanceOk(st: Store, node: string, s: Session, now: U64,
                  signals: seq<Signal>, notices: multiset<Notice>, log: seq<Completion>)
    requires SystemOk(st, node, s, signals, notices, log) && InHandler(s)
    ensures EffectOk(st, node, Advance(node, st, s, now), signals, notices, log)
  {
    hide StoreOk, Fifo, LogOk, NoticesOk, SameRows, ClaimTask, RowOk, RegisterNode;
    var e := Advance(node, st, s, now);
    NoChange(st);
    match s.pc
    case Registering(reg) =>
      assert e.store == Runs.Apply(st, Runs.Register(reg, now));
      QuietEffect(st, Runs.Register(reg, now), node, log, notices);
      assert e.store.tasks == st.tasks by { RegisterTasks(st, reg, now); }
      SameTasks(st, e.store, node, s, signals, notices);
    case Dispatching =>
      if Ready(s) { ClaimingOk(st, node, s, true, now, signals, notices, log); }
    case _ =>
  }

  lemma RegisterTasks(st: Store, reg: NodeRegistration, now: U64)
    ensures RegisterNode(st, reg, now).tasks == st.tasks
  {
  }

  lemma HeartbeatOk(st: Store, node: string, s: Session, now: U64,
                    signals: seq<Signal>, notices: multiset<Notice>, log: seq<Completion>)
    requires SystemOk(st, node, s, signals, notices, log) && s.pc.Select?
    ensures EffectOk(st, node, HeartbeatTick(node, st, s, now), signals, notices, log)
  {
    hide StoreOk, Fifo, LogOk, NoticesOk, SameRows, RowOk;
    NoChange(st);
    if s.slot.Some? && TimedOut(s.slot.value, now) {
      var op := Runs.Retry(s.slot.value.taskId, node, TIMEOUT_REASON);
      var e := HeartbeatTick(node, st, s, now);
      assert e.store == Runs.Apply(st, op);
      QuietEffect(st, op, node, log, notices);
      RetriedSession(st, node, s, signals, notices);
    }
  }

  lemma RetriedSession(st: Store, node: string, s: Session, signals: seq<Signal>, notices: multiset<Notice>)
    requires SessionOk(st, node, s, signals, notices) && s.pc.Select? && s.slot.Some? && !s.slot.value.ignoreResult
    ensures SessionOk(RetryTask(st, s.slot.value.taskId, node, TIMEOUT_REASON), node, s.(pc := Expired), signals, notices)
  {
    var id := s.slot.value.taskId;
    var st' := RetryTask(st, id, node, TIMEOUT_REASON);
    assert Owned(st, node, id);
    forall other: nat | ActiveAt(st', node, other) ensures ActiveAt(st, node, other) && other != id { }
  }

  lemma SignalOk(st: Store, node: string, s: Session, signals: seq<Signal>, notices: multiset<Notice>)
    requires SessionOk(st, node, s, signals, notices) && s.pc.Select? && signals != []
    ensures SessionOk(st, node, TakeSignal(s, signals[0]).0, signals[1..], notices)
  {
    var s' := TakeSignal(s, signals[0]).0;
    if s'.pc.Select? {
      assert Held(s) == Held(s');
      assert Owned(st, node, signals[0].taskId);
    } else {
      assert forall signal | signal in signals :: signal == signals[0] || signal in signals[1..];
    }
  }

  lemma RequeuedSession(st: Store, node: string, s: Session, reg: NodeRegistration,
                        signals: seq<Signal>, notices: multiset<Notice>)
    requires SessionOk(st, node, s, signals, notices) && s.pc.Select? && reg.nodeId == node && StoreOk(st)
    ensures SessionOk(RequeueIncompleteTasks(st, node, REREGISTERED_REASON), node, s.(pc := Registering(reg)), signals, notices)
  {
    var st' := RequeueIncompleteTasks(st, node, REREGISTERED_REASON);
    GuardsAreExact(st, node, REREGISTERED_REASON);
    if s.slot.Some? { assert Owned(st, node, s.slot.value.taskId); }
    SignalsKept(st, st', node, signals);
  }

  lemma HelloOk(st: Store, node: string, s: Session, payload: Payload, now: U64,
                signals: seq<Signal>, notices: multiset<Notice>, log: seq<Completion>)
    requires SystemOk(st, node, s, signals, notices, log) && s.pc.Select?
    ensures EffectOk(st, node, ReceiveHello(node, st, s, payload, now), signals, notices, log)
  {
    hide StoreOk, Fifo, LogOk, NoticesOk, SameRows, RequeueIncompleteTasks, UpdateNodeCommands, CatalogFromPb, SessionOk;
    NoChange(st);
    var e := ReceiveHello(node, st, s, payload, now);
    if payload.ClientHello? && payload.nodeId == node {
      var op := Runs.Requeue(node, REREGISTERED_REASON);
      assert e.store == Runs.Apply(st, op);
      QuietEffect(st, op, node, log, notices);
      RequeuedSession(st, node, s, e.session.pc.reg, signals, notices);
    } else if payload.CommandCatalog? {
      var op := Runs.UpdateCommands(node, CatalogFromPb(payload.commands), now);
      assert e.store == Runs.Apply(st, op);
      QuietEffect(st, op, node, log, notices);
      assert e.store.tasks == st.tasks by { CommandsTasks(st, node, CatalogFromPb(payload.commands), now); }
      SameTasks(st, e.store, node, s, signals, notices);
    }
  }

  lemma CommandsTasks(st: Store, node: string, commands: seq<CommandDescriptor>, now: U64)
    ensures UpdateNodeCommands(st, node, commands, now).0.tasks == st.tasks
  {
  }

  lemma ControlOk(st: Store, node: string, s: Session, payload: Payload, now: U64,
                  signals: seq<Signal>, notices: multiset<Notice>, log: seq<Completion>)
    requires SystemOk(st, node, s, signals, notices, log) && s.pc.Select?
    ensures EffectOk(st, node, ReceiveControl(node, st, s, payload, now), signals, notices, log)
  {
    hide StoreOk, Fifo, LogOk, NoticesOk, SameRows, RowOk, SessionOk, Claiming;
    NoChange(st);
    if payload.TaskPullRequest? && s.registered && s.slot.None? {
      ClaimingOk(st, node, s, false, now, signals, notices, log);
    }
  }

  lemma AckedSession(st: Store, node: string, s: Session, now: U64, signals: seq<Signal>, notices: multiset<Notice>)
    requires SessionOk(st, node, s, signals, notices) && s.pc.Select? && s.slot.Some?
    ensures SessionOk(AcknowledgeTask(st, s.slot.value.taskId, node, now), node, s, signals, notices)
  {
    var id := s.slot.value.taskId;
    var st' := AcknowledgeTask(st, id, node, now);
    assert Owned(st, node, id);
    forall other: nat | ActiveAt(st', node, other) ensures ActiveAt(st, node, other) { }
  }

  lemma AckOk(st: Store, node: string, s: Session, payload: Payload, now: U64,
              signals: seq<Signal>, notices: multiset<Notice>, log: seq<Completion>)
    requires SystemOk(st, node, s, signals, notices, log) && s.pc.Select?
    ensures EffectOk(st, node, ReceiveAck(node, st, s, payload, now), signals, notices, log)
  {
    hide StoreOk, Fifo, LogOk, NoticesOk, SameRows, RowOk, SessionOk, AcknowledgeTask;
    NoChange(st);
    var e := ReceiveAck(node, st, s, payload, now);
    if payload.TaskAck? && s.slot.Some? && s.slot.value.taskId == payload.taskId && !s.slot.value.ignoreResult {
      var op := Runs.Acknowledge(payload.taskId, node, now);
      assert e.store == Runs.Apply(st, op);
      QuietEffect(st, op, node, log, notices);
      AckedSession(st, node, s, now, signals, notices);
    }
  }

  /** After the slot is emptied nothing of the node is active, whether or not a result was stored. */
  lemma ReleasedSession(st: Store, st': Store, row: TaskRow, node: string, s: Session, signals: seq<Signal>, notices: multiset<Notice>)
    requires SessionOk(st, node, s, signals, notices) && s.pc.Select? && s.slot.Some?
    requires st'.tasks == st.tasks
             || (st'.tasks == st.tasks[s.slot.value.taskId := row] && Completed(row)
                 && ActiveAt(st, node, s.slot.value.taskId))
    requires s.slot.value.ignoreResult || !ActiveAt(st', node, s.slot.value.taskId)
    ensures SessionOk(st', node, s.(slot := None, pc := Dispatching), signals, notices)
  {
    var id := s.slot.value.taskId;
    assert Owned(st, node, id);
    forall other: nat ensures !ActiveAt(st', node, other) {
      if other != id { assert ActiveAt(st', node, other) ==> ActiveAt(st, node, other); }
    }
  }

  lemma ResultOk(st: Store, node: string, s: Session, payload: Payload, now: U64,
                 signals: seq<Signal>, notices: multiset<Notice>, log: seq<Completion>)
    requires SystemOk(st, node, s, signals, notices, log) && s.pc.Select?
    ensures var e := ReceiveResult(node, st, s, payload, now);
            EffectOk(st, node, e, signals, notices,
                     log + Completed1(node, st, e.store, Publish(OnResult, payload)))
  {
    hide StoreOk, Fifo, LogOk, NoticesOk, SameRows, RowOk;
    NoChange(st);
    var e := ReceiveResult(node, st, s, payload, now);
    assert log + [] == log;
    if payload.TaskResult? && s.slot.Some? && s.slot.value.taskId == payload.taskId {
      var id := payload.taskId;
      assert Owned(st, node, id);
      if !s.slot.value.ignoreResult && ActiveAt(st, node, id) {
        SubmitKeeps(st, id, node, payload.result, now, log, notices,
                    Completion(node, id, payload.serial, st.tasks[id].retryCount + 1));
        IsolatesAll(st, Runs.Submit(id, node, payload.result, now), node);
        assert e.store == Runs.Apply(st, Runs.Submit(id, node, payload.result, now));
      }
      ReleasedSession(st, e.store, FinishedRow(st.tasks[id], payload.result, now), node, s, signals, notices);
    }
  }

  lemma SubscribeOk(st: Store, node: string, s: Session, topics: seq<Topic>,
                    signals: seq<Signal>, notices: multiset<Notice>, log: seq<Completion>)
    requires SystemOk(st, node, s, signals, notices, log) && s.pc.Select?
    ensures EffectOk(st, node, ReceiveSubscribe(st, s, topics), signals, notices, log)
  {
    hide StoreOk, Fifo, LogOk, NoticesOk, SameRows, RowOk;
    NoChange(st);
  }

  lemma ReceiveOk(st: Store, node: string, s: Session, frame: Frame<Topic>, now: U64,
                  signals: seq<Signal>, notices: multiset<Notice>, log: seq<Completion>)
    requires SystemOk(st, node, s, signals, notices, log) && s.pc.Select?
    ensures var e := Receive(node, st, s, frame, now);
            EffectOk(st, node, e, signals, notices, log + Completed1(node, st, e.store, frame))
  {
    hide TablesOk, SessionOk, SameRows, ReceiveHello, ReceiveControl, ReceiveAck, ReceiveResult;
    var e := Receive(node, st, s, frame, now);
    assert log + [] == log;
    NoChange(st);
    match frame
    case Subscribe(topics) => SubscribeOk(st, node, s, topics, signals, notices, log);
    case Publish(topic, payload) =>
      if topic == OnResult {
        ResultOk(st, node, s, payload, now, signals, notices, log);
        assert Completed1(node, st, e.store, frame) == Completed1(node, st, e.store, Publish(OnResult, payload));
      } else {
        NoCompletion(st, node, s, topic, payload, now);
        if topic == OnHello { HelloOk(st, node, s, payload, now, signals, notices, log); }
        if topic == OnControl { ControlOk(st, node, s, payload, now, signals, notices, log); }
        if topic == OnAck { AckOk(st, node, s, payload, now, signals, notices, log); }
      }
    case _ =>
  }

  lemma NoCompletion(st: Store, node: string, s: Session, topic: Topic, payload: Payload, now: U64)
    requires topic != OnResult
    ensures Completed1(node, st, ReceivePublish(node, st, s, topic, payload, now).store, Publish(topic, payload)) == []
  {
  }

  // ----- system steps

  /** One link changes together with its node's rows; every other link is untouched. */
  lemma LinkStepOk(sys: System, node: string, link': Link, st': Store, log': seq<Completion>)
    requires Inv(sys) && TablesOk(st', log', sys.notices)
    requires link'.config.nodeId == node && SessionOk(st', node, link'.session, link'.signals, sys.notices)
    requires forall other | other != node :: SameRows(sys.store, st', other)
    ensures Inv(System(st', sys.links[node := link'], sys.notices, log'))
  {
    hide StoreOk, Fifo, LogOk, NoticesOk, SessionOk, SameRows;
    forall other | other in sys.links && other != node
      ensures SessionOk(st', other, sys.links[other].session, sys.links[other].signals, sys.notices)
    {
      SessionFrame(sys.store, st', other, sys.links[other].session, sys.links[other].signals, sys.notices, sys.notices);
    }
  }

  lemma SessionStepOk(sys: System, step: Step)
    requires Inv(sys) && Enabled(sys, step)
    requires step.ServerHeartbeat? || step.ServerAdvances? || step.ServerSignaled? || step.ServerReceives?
    ensures Inv(Apply(sys, step))
  {
    hide StoreOk, Fifo, LogOk, NoticesOk, SessionOk, SameRows, Receive, Advance, HeartbeatTick, TakeSignal, Completed1;
    var link := sys.links[step.node];
    var s, st := link.session, sys.store;
    var link' := Apply(sys, step).links[step.node];
    NoChange(st);
    match step
    case ServerHeartbeat(node, now) =>
      HeartbeatOk(st, node, s, now, link.signals, sys.notices, sys.log);
      LinkStepOk(sys, node, link', HeartbeatTick(node, st, s, now).store, sys.log);
    case ServerAdvances(node, now) =>
      AdvanceOk(st, node, s, now, link.signals, sys.notices, sys.log);
      LinkStepOk(sys, node, link', Advance(node, st, s, now).store, sys.log);
    case ServerSignaled(node) =>
      SignalOk(st, node, s, link.signals, sys.notices);
      LinkStepOk(sys, node, link', st, sys.log);
    case ServerReceives(node, now) =>
      ReceiveOk(st, node, s, link.toServer[0], now, link.signals, sys.notices, sys.log);
      var st' := Receive(node, st, s, link.toServer[0], now).store;
      LinkStepOk(sys, node, link', st', sys.log + Completed1(node, st, st', link.toServer[0]));
  }

  /** Steps that touch one link but neither its session's invariant nor the tables. */
  lemma QuietStepOk(sys: System, step: Step)
    requires Inv(sys) && Enabled(sys, step)
    requires step.Open? || step.Break? || step.ClientLeaves? || step.ClientHeartbeat? || step.ClientGreets?
             || step.ClientReceives? || step.ProcessExits? || step.ClientReports? || step.Forge?
    ensures Inv(Apply(sys, step))
  {
    hide StoreOk, Fifo, LogOk, NoticesOk, SameRows, ClientReceive, ProgressTick;
    NoChange(sys.store);
    var link' := Apply(sys, step).links[step.node];
    LinkStepOk(sys, step.node, link', sys.store, sys.log);
  }

  lemma CloseOk(sys: System, node: string)
    requires Inv(sys) && Enabled(sys, Close(node))
    ensures Inv(Apply(sys, Close(node)))
  {
    hide StoreOk, Fifo, LogOk, NoticesOk, SameRows;
    var op := Runs.Requeue(node, CLOSED_REASON);
    QuietEffect(sys.store, op, node, sys.log, sys.notices);
    LinkStepOk(sys, node, sys.links[node], Runs.Apply(sys.store, op), sys.log);
    assert sys.links[node := sys.links[node]] == sys.links;
  }

  /** An HTTP handler commits for one node; its notice is added in the same step. */
  lemma HttpCommitOk(sys: System, node: string, st': Store, notice: Notice)
    requires Inv(sys) && notice.node == node
    requires TablesOk(st', sys.log, sys.notices) && NoticesOk(st', multiset{notice})
    requires forall other | other != node :: SameRows(sys.store, st', other)
    requires node in sys.links ==>
               SessionOk(st', node, sys.links[node].session, sys.links[node].signals, sys.notices + multiset{notice})
    ensures Inv(sys.(store := st', notices := sys.notices + multiset{notice}))
  {
    hide StoreOk, Fifo, LogOk, SessionOk, SameRows;
    var notices' := sys.notices + multiset{notice};
    assert forall x | x in notices' :: x in sys.notices || x in multiset{notice};
    forall other | other in sys.links && other != node
      ensures SessionOk(st', other, sys.links[other].session, sys.links[other].signals, notices')
    {
      SessionFrame(sys.store, st', other, sys.links[other].session, sys.links[other].signals, sys.notices, notices');
    }
  }

  /** The new task is queued; the pending notification is what will wake the session. */
  lemma CreatedSession(st: Store, node: string, id: nat, row: TaskRow, nextId: nat, s: Session,
                       signals: seq<Signal>, notices: multiset<Notice>)
    requires SessionOk(st, node, s, signals, notices) && id !in st.tasks && row.status.Queued? && row.nodeId == node
    ensures SessionOk(PutRow(st, id, row).(nextId := nextId), node, s, signals, notices + multiset{NotifyNode(node)})
  {
    var st' := PutRow(st, id, row).(nextId := nextId);
    if !s.pc.Closing? {
      if Held(s).Some? { assert Owned(st, node, Held(s).value.taskId); }
      forall other: nat | ActiveAt(st', node, other) ensures ActiveAt(st, node, other) { }
    }
  }

  lemma HttpCreateOk(sys: System, request: CreateTaskRequest, audit: TaskAudit, now: U64)
    requires Inv(sys)
    ensures var sys' := Apply(sys, HttpCreate(request, audit, now));
            && Inv(sys')
            && (sys' != sys ==> QueuedAt(sys'.store, request.nodeId, sys.store.nextId)
                                && NotifyNode(request.nodeId) in sys'.notices)
  {
    hide Fifo, LogOk, SessionOk, SameRows, NoticesOk;
    var (st', outcome) := CreateTask(sys.store, request, audit, now);
    if outcome.Created? {
      var op := Runs.Create(request, audit, now);
      assert st' == Runs.Apply(sys.store, op);
      QuietEffect(sys.store, op, request.nodeId, sys.log, sys.notices);
      var node := request.nodeId;
      if node in sys.links {
        CreatedSession(sys.store, node, sys.store.nextId, QueuedRow(request, audit, now), sys.store.nextId + 1,
                       sys.links[node].session, sys.links[node].signals, sys.notices);
      }
      CreateNotice(st', node);
      HttpCommitOk(sys, node, st', NotifyNode(node));
    }
  }

  lemma CreateNotice(st: Store, node: string)
    ensures NoticesOk(st, multiset{NotifyNode(node)})
  {
  }

  lemma CanceledSession(st: Store, node: string, id: nat, row: TaskRow, s: Session,
                        signals: seq<Signal>, notices: multiset<Notice>)
    requires SessionOk(st, node, s, signals, notices)
    requires Owned(st, node, id) && !Terminal(st.tasks[id])
    requires row.status.Canceled? && row.nodeId == node && row.retryCount == st.tasks[id].retryCount
    ensures SessionOk(PutRow(st, id, row), node, s, signals, notices + multiset{NotifyCancel(node, id, row.cancelReason)})
  {
    var st' := PutRow(st, id, row);
    if !s.pc.Closing? {
      if Held(s).Some? { assert Owned(st, node, Held(s).value.taskId); }
      forall other: nat | ActiveAt(st', node, other) ensures ActiveAt(st, node, other) { }
      forall other: nat | QueuedAt(st', node, other) ensures QueuedAt(st, node, other) { }
    }
  }

  lemma HttpCancelOk(sys: System, id: nat, reason: Option<string>, audit: TaskAudit, now: U64)
    requires Inv(sys)
    ensures var sys' := Apply(sys, HttpCancel(id, reason, audit, now));
            && Inv(sys')
            && (sys' != sys ==> id in sys'.store.tasks && sys'.store.tasks[id].status.Canceled?
                                && NotifyCancel(sys'.store.tasks[id].nodeId, id, sys'.store.tasks[id].cancelReason) in sys'.notices)
  {
    hide Fifo, LogOk, SessionOk, SameRows, StoreOk, RowOk;
    var (st', outcome) := CancelTask(sys.store, id, reason, audit, now);
    if outcome.CanceledTask? {
      var op := Runs.Cancel(id, reason, audit, now);
      assert st' == Runs.Apply(sys.store, op);
      var row := outcome.row;
      QuietEffect(sys.store, op, row.nodeId, sys.log, sys.notices);
      if row.nodeId in sys.links {
        CanceledSession(sys.store, row.nodeId, id, row,
                        sys.links[row.nodeId].session, sys.links[row.nodeId].signals, sys.notices);
      }
      HttpCommitOk(sys, row.nodeId, st', NotifyCancel(row.nodeId, id, row.cancelReason));
    }
  }

  /** Delivery turns a notice into the signal that takes its place. */
  lemma NotifiedSession(st: Store, s: Session, signals: seq<Signal>, notices: multiset<Notice>, notice: Notice, signal: Signal)
    requires SessionOk(st, notice.node, s, signals, notices) && NoticesOk(st, notices) && notice in notices
    requires signal == if notice.NotifyNode? then TryDispatch else CancelTaskSignal(notice.taskId, notice.reason)
    ensures SessionOk(st, notice.node, s, signals + [signal], notices - multiset{notice})
  {
    var signals', notices' := signals + [signal], notices - multiset{notice};
    assert signals'[|signals|] == signal;
    assert forall x | x in signals :: x in signals';
    assert forall x | x in notices && x != notice :: x in notices';
  }

  lemma HttpNotifyOk(sys: System, notice: Notice)
    requires Inv(sys) && notice in sys.notices
    ensures Inv(Apply(sys, HttpNotify(notice)))
  {
    hide StoreOk, Fifo, LogOk, SameRows, SessionOk;
    var notices' := sys.notices - multiset{notice};
    var node := notice.node;
    NoChange(sys.store);
    assert forall x | x in notices' :: x in sys.notices;
    assert forall x | x in sys.notices && x.node != node :: x in notices';
    forall other | other in sys.links && other != node
      ensures SessionOk(sys.store, other, sys.links[other].session, sys.links[other].signals, notices')
    {
      SessionFrame(sys.store, sys.store, other, sys.links[other].session, sys.links[other].signals, sys.notices, notices');
    }
    if Connected(sys, node) {
      var signal := if notice.NotifyNode? then TryDispatch else CancelTaskSignal(notice.taskId, notice.reason);
      NotifiedSession(sys.store, sys.links[node].session, sys.links[node].signals, sys.notices, notice, signal);
    } else if node in sys.links {
      ClosingSession(sys.store, node, sys.links[node].session, sys.links[node].signals, notices');
    }
  }

  lemma ClosingSession(st: Store, node: string, s: Session, signals: seq<Signal>, notices: multiset<Notice>)
    requires s.pc.Closing?
    ensures SessionOk(st, node, s, signals, notices)
  {
  }

  lemma StepKeepsInv(sys: System, step: Step)
    requires Inv(sys) && Enabled(sys, step)
    ensures Inv(Apply(sys, step))
  {
    hide Inv, Apply;
    match step
    case HttpCreate(request, audit, now) => HttpCreateOk(sys, request, audit, now);
    case HttpCancel(id, reason, audit, now) => HttpCancelOk(sys, id, reason, audit, now);
    case HttpNotify(notice) => HttpNotifyOk(sys, notice);
    case Close(node) => CloseOk(sys, node);
    case Crash => CrashOk(sys);
    case ServerHeartbeat(_, _) => SessionStepOk(sys, step);
    case ServerAdvances(_, _) => SessionStepOk(sys, step);
    case ServerSignaled(_) => SessionStepOk(sys, step);
    case ServerReceives(_, _) => SessionStepOk(sys, step);
    case _ => QuietStepOk(sys, step);
  }

  lemma CrashOk(sys: System)
    requires Inv(sys)
    ensures Inv(Apply(sys, Crash))
  {
  }

  /** The invariant holds after any steps whatsoever, forged frames and crashes included. */
  lemma {:induction false} TraceKeepsInv(sys: System, steps: seq<Step>, sys': System)
    requires Inv(sys) && Trace(sys, steps, sys')
    ensures Inv(sys')
    decreases |steps|
  {
    if steps != [] {
      StepKeepsInv(sys, steps[0]);
      TraceKeepsInv(Apply(sys, steps[0]), steps[1..], sys');
    }
  }

  lemma InitOk()
    ensures Inv(INIT)
  {
  }
}
