/** The invariant of the tables, the log and every link, whatever frames the clients send. */
module Invariant {
  import opened Prelude
  import opened Tasks
  import opened Store
  import opened ServerSession
  import opened Protocol

  // ----- tables and log

  /** While a task is active, every older task of its node is over. */
  ghost predicate Fifo(st: Store) {
    forall i: nat, j: nat | i in st.tasks && j in st.tasks && i < j && st.tasks[i].nodeId == st.tasks[j].nodeId
                       && Active(st.tasks[j]) ::
      Terminal(st.tasks[i])
  }

  ghost predicate LogRows(st: Store, log: seq<Completion>) {
    forall k | 0 <= k < |log| :: Owned(st, log[k].node, log[k].taskId) && Completed(st.tasks[log[k].taskId])
  }

  /** At each entry, every older task of the node is over. */
  ghost predicate LogPast(st: Store, log: seq<Completion>) {
    forall k, i: nat | 0 <= k < |log| && Owned(st, log[k].node, i) && i < log[k].taskId :: Terminal(st.tasks[i])
  }

  ghost predicate LogSorted(log: seq<Completion>) {
    forall j, k | 0 <= j < k < |log| && log[j].node == log[k].node :: log[j].taskId < log[k].taskId
  }

  predicate Logged(log: seq<Completion>, id: nat) {
    exists k :: 0 <= k < |log| && log[k].taskId == id
  }

  ghost predicate LogFull(st: Store, log: seq<Completion>) {
    forall i | i in st.tasks && Completed(st.tasks[i]) :: Logged(log, i)
  }

  /** The log lists exactly the completed tasks, in increasing order per node. */
  ghost predicate LogOk(st: Store, log: seq<Completion>) {
    LogRows(st, log) && LogPast(st, log) && LogSorted(log) && LogFull(st, log)
  }

  ghost predicate NoticesOk(st: Store, notices: multiset<Notice>) {
    forall notice | notice in notices && notice.NotifyCancel? ::
      && Owned(st, notice.node, notice.taskId)
      && st.tasks[notice.taskId].status.Canceled?
      && st.tasks[notice.taskId].cancelReason == notice.reason
  }

  // ----- links

  /** The claim a session still has to account for. */
  datatype Ticket = Ticket(taskId: nat, serial: nat, claimedAt: U64)

  function Held(s: Session): Option<Ticket> {
    match s.pc
    case Publishing(task, _, serial, claimedAt) => Some(Ticket(task.taskId, serial, claimedAt))
    case Assigning(task, serial, claimedAt) => Some(Ticket(task.taskId, serial, claimedAt))
    case _ => if s.slot.Some? then Some(Ticket(s.slot.value.taskId, s.slot.value.serial, s.slot.value.claimedAt)) else None
  }

  predicate JustClaimed(s: Session) { s.pc.Publishing? || s.pc.Assigning? }

  predicate ShapeOk(s: Session) {
    && (!s.registered ==> s.slot.None? && !JustClaimed(s))
    && (JustClaimed(s) ==> s.slot.None?)
    && (s.pc.Expired? ==> s.slot.Some? && !s.slot.value.cancelRequested)
    && (s.slot.Some? ==> s.slot.value.cancelRequested == s.slot.value.ignoreResult)
  }

  /** The held task belongs to the node; if it is still active, its open dispatch is this claim, and if
      it is queued again the claim is superseded. */
  predicate HeldOk(st: Store, node: string, s: Session) {
    Held(s).Some? ==>
      var ticket := Held(s).value;
      && Owned(st, node, ticket.taskId)
      && var row := st.tasks[ticket.taskId];
      && ticket.serial <= row.retryCount + 1
      && (Active(row) ==> ticket.serial == row.retryCount + 1
                          && row.dispatchedAt == Some(AsI64(ticket.claimedAt))
                          && (s.slot.Some? ==> !s.slot.value.ignoreResult))
      && (row.status.Queued? ==> ticket.serial <= row.retryCount)
      && (JustClaimed(s) ==> row.status.Dispatched? || row.status.Canceled?)
      && (s.pc.Expired? ==> !Active(row))
  }

  ghost predicate ActiveOk(st: Store, node: string, s: Session) {
    s.registered || s.pc.Registering? ==>
      forall id: nat | ActiveAt(st, node, id) :: Held(s).Some? && Held(s).value.taskId == id
  }

  predicate CancelOk(st: Store, node: string, s: Session, signals: seq<Signal>, notices: multiset<Notice>) {
    Held(s).Some? && Owned(st, node, Held(s).value.taskId) && st.tasks[Held(s).value.taskId].status.Canceled? ==>
      var id := Held(s).value.taskId;
      || (s.slot.Some? && s.slot.value.cancelRequested)
      || CancelTaskSignal(id, st.tasks[id].cancelReason) in signals
      || NotifyCancel(node, id, st.tasks[id].cancelReason) in notices
  }

  ghost predicate WakeOk(st: Store, node: string, s: Session, signals: seq<Signal>, notices: multiset<Notice>) {
    s.pc.Select? && Ready(s) ==>
      forall id: nat | QueuedAt(st, node, id) :: TryDispatch in signals || NotifyNode(node) in notices
  }

  predicate SignalsOk(st: Store, node: string, signals: seq<Signal>) {
    forall i | 0 <= i < |signals| && signals[i].CancelTaskSignal? ::
      && Owned(st, node, signals[i].taskId)
      && st.tasks[signals[i].taskId].status.Canceled?
      && st.tasks[signals[i].taskId].cancelReason == signals[i].reason
  }

  ghost predicate SessionOk(st: Store, node: string, s: Session, signals: seq<Signal>, notices: multiset<Notice>) {
    !s.pc.Closing? ==>
      && ShapeOk(s)
      && (s.pc.Registering? ==> s.pc.reg.nodeId == node)
      && HeldOk(st, node, s)
      && ActiveOk(st, node, s)
      && CancelOk(st, node, s, signals, notices)
      && WakeOk(st, node, s, signals, notices)
      && SignalsOk(st, node, signals)
  }

  ghost predicate LinksOk(sys: System) {
    forall node | node in sys.links ::
      && sys.links[node].config.nodeId == node
      && SessionOk(sys.store, node, sys.links[node].session, sys.links[node].signals, sys.notices)
  }

  ghost predicate Inv(sys: System) {
    && StoreOk(sys.store) && Fifo(sys.store) && LogOk(sys.store, sys.log)
    && NoticesOk(sys.store, sys.notices) && LinksOk(sys)
  }
}
