/** The guarantees, over every run of the system from its initial state. A run may interleave
    connections, breaks, crashes, timeouts, HTTP requests and the work of any number of nodes.
    Those with `NoForgery` assume the repository's own client; the others hold for any client. */
module Theorems {
  import opened Prelude
  import opened Topics
  import opened Tasks
  import opened Store
  import opened Messages
  import opened ServerSession
  import opened ClientSession
  import opened Protocol
  import opened Invariant
  import opened Tokens
  import opened Handshake
  import opened StepOps
  import Runs = StoreRuns
  import Safety
  import Sent
  import Readers
  import Drain
  import Liveness

  lemma Reached(steps: seq<Step>, sys: System)
    requires Trace(INIT, steps, sys)
    ensures Inv(sys)
  {
    Safety.InitOk();
    Safety.TraceKeepsInv(INIT, steps, sys);
  }

  lemma {:induction false} TraceKeepsDrain(from: System, steps: seq<Step>, sys: System)
    requires DrainInv(from) && Trace(from, steps, sys) && NoForgery(steps)
    ensures DrainInv(sys)
    decreases |steps|
  {
    if steps != [] {
      StepKeepsDrain(from, steps[0]);
      TraceKeepsDrain(Apply(from, steps[0]), steps[1..], sys);
    }
  }

  lemma ReachedHonestly(steps: seq<Step>, sys: System)
    requires Trace(INIT, steps, sys) && NoForgery(steps)
    ensures DrainInv(sys)
  {
    Safety.InitOk();
    TraceKeepsDrain(INIT, steps, sys);
  }

  // ----- any client

  /** One task in flight per node, connected or not; and a registered session's slot (or claim in
      progress) is the only active task of its node, while an unregistered session has an empty slot. */
  lemma SingleInFlight(steps: seq<Step>, sys: System, node: string)
    requires Trace(INIT, steps, sys)
    ensures forall i: nat, j: nat | ActiveAt(sys.store, node, i) && ActiveAt(sys.store, node, j) :: i == j
    ensures Connected(sys, node) ==>
              var s := sys.links[node].session;
              && (!s.registered ==> s.slot.None?)
              && (s.registered ==> forall id: nat | ActiveAt(sys.store, node, id) ::
                    Held(s).Some? && Held(s).value.taskId == id && (s.slot.Some? ==> !s.slot.value.ignoreResult))
              && (s.slot.Some? ==> Owned(sys.store, node, s.slot.value.taskId)
                                   && s.slot.value.cancelRequested == s.slot.value.ignoreResult)
  {
    Reached(steps, sys);
    if Connected(sys, node) {
      assert SessionOk(sys.store, node, sys.links[node].session, sys.links[node].signals, sys.notices);
    }
    forall i: nat, j: nat | ActiveAt(sys.store, node, i) && ActiveAt(sys.store, node, j) ensures i == j {
      assert i in sys.store.tasks && j in sys.store.tasks;
    }
  }

  /** First in, first out: while a task is active every older task of its node is over; and the
      completions of a node happen in increasing order of task id, retries or not. */
  lemma FifoCompletion(steps: seq<Step>, sys: System)
    requires Trace(INIT, steps, sys)
    ensures forall i: nat, j: nat | i < j && j in sys.store.tasks && Active(sys.store.tasks[j])
                               && Owned(sys.store, sys.store.tasks[j].nodeId, i) :: Terminal(sys.store.tasks[i])
    ensures forall j, k | 0 <= j < k < |sys.log| && sys.log[j].node == sys.log[k].node ::
              sys.log[j].taskId < sys.log[k].taskId
    ensures forall id: nat :: (id in sys.store.tasks && Completed(sys.store.tasks[id])) <==> Logged(sys.log, id)
  {
    Reached(steps, sys);
    forall id: nat | Logged(sys.log, id) ensures id in sys.store.tasks && Completed(sys.store.tasks[id]) {
      var k :| 0 <= k < |sys.log| && sys.log[k].taskId == id;
      assert Owned(sys.store, sys.log[k].node, sys.log[k].taskId);
    }
  }

  /** No lost wake-up: a session waiting with nothing to do, registered and subscribed, while a
      task of its node is queued, has a dispatch signal pending, or the HTTP request that created a
      task of the node has committed and is about to send one. */
  lemma NoLostWakeup(steps: seq<Step>, sys: System, node: string, id: nat)
    requires Trace(INIT, steps, sys) && Connected(sys, node) && QueuedAt(sys.store, node, id)
    requires sys.links[node].session.pc.Select? && Ready(sys.links[node].session)
    ensures TryDispatch in sys.links[node].signals || NotifyNode(node) in sys.notices
  {
    Reached(steps, sys);
    assert SessionOk(sys.store, node, sys.links[node].session, sys.links[node].signals, sys.notices);
  }

  /** No lost cancel: if the task a session holds is canceled in the table, its cancel has been
      sent, or the signal with the stored reason is pending. */
  lemma NoLostCancel(steps: seq<Step>, sys: System, node: string, id: nat)
    requires Trace(INIT, steps, sys) && Connected(sys, node)
    requires Held(sys.links[node].session).Some? && Held(sys.links[node].session).value.taskId == id
    requires id in sys.store.tasks && sys.store.tasks[id].status.Canceled?
    ensures var link, reason := sys.links[node], sys.store.tasks[id].cancelReason;
            || (link.session.slot.Some? && link.session.slot.value.cancelRequested)
            || CancelTaskSignal(id, reason) in link.signals
            || NotifyCancel(node, id, reason) in sys.notices
  {
    Reached(steps, sys);
    assert SessionOk(sys.store, node, sys.links[node].session, sys.links[node].signals, sys.notices);
  }

  /** No duplicates: over a whole run, reconnects and retries included, the cancel of a dispatch is
      put on a connection at most once, and so is its assignment. */
  lemma SentAtMostOnce(steps: seq<Step>, sys: System, mark: Mark)
    requires Trace(INIT, steps, sys)
    ensures Sent.TimesSent(INIT, steps, mark) <= 1
  {
    Safety.InitOk();
    Sent.SentOnce(INIT, steps, sys, mark);
  }

  /** At most once: over a whole run, at whichever clients and whatever is forged towards the server,
      at most one process is started for a dispatch. */
  lemma StartedAtMostOnce(steps: seq<Step>, sys: System, token: Token)
    requires Trace(INIT, steps, sys)
    ensures Sent.TimesStarted(INIT, steps, token) <= 1
  {
    Safety.InitOk();
    Sent.StartedOnce(INIT, steps, sys, token);
  }

  /** Of all that was sent on the latest connection of a node, read by the client or not: each
      cancel stands directly behind the assignment it is for, nothing occurs twice, and what the
      client has not read yet is the rest of it. */
  lemma CancelFollowsItsAssignment(steps: seq<Step>, sys: System, node: string)
    requires Trace(INIT, steps, sys)
    ensures var sent := Sent.SentOn(INIT, steps, node, []);
            && (forall j | 0 <= j < |sent| && sent[j].CancelSent? ::
                  j > 0 && sent[j - 1] == Assigned(sent[j].taskId, sent[j].serial))
            && (forall mark | mark in sent :: multiset(sent)[mark] == 1)
            && (node in sys.links ==> Sent.IsSuffix(Marks(sys.links[node].toClient), sent))
  {
    hide Sent.TimesSent, Sent.SentOn;
    Safety.InitOk();
    Sent.TraceKeepsHistory(INIT, steps, sys, node, []);
    var sent := Sent.SentOn(INIT, steps, node, []);
    forall mark | mark in sent ensures multiset(sent)[mark] == 1 {
      Sent.SentOnIsSent(INIT, steps, sys, node, [], mark);
      SentAtMostOnce(steps, sys, mark);
    }
  }

  /** A session never submits for a task it does not own: its own slot always finds its row. */
  lemma OwnSlotAccepted(steps: seq<Step>, sys: System, node: string, result: ExecutionResult, now: U64)
    requires Trace(INIT, steps, sys) && Connected(sys, node) && sys.links[node].session.slot.Some?
    ensures SubmitTaskResult(sys.store, sys.links[node].session.slot.value.taskId, node, result, now).1.Updated?
  {
    Reached(steps, sys);
    assert SessionOk(sys.store, node, sys.links[node].session, sys.links[node].signals, sys.notices);
  }

  // ----- the tables of a run

  /** The tables of any run are the tables of some sequence of database operations, so everything
      proved over all interleavings of those holds of them. */
  lemma {:induction false} RunOfTrace(steps: seq<Step>, from: System, sys: System, before: seq<Runs.Op>) returns (ops: seq<Runs.Op>)
    requires Inv(from) && Trace(from, steps, sys) && from.store == Runs.Run(EMPTY, before)
    ensures sys.store == Runs.Run(EMPTY, ops)
    decreases |steps|
  {
    hide Inv, Runs.Run, Apply, Enabled;
    if steps == [] { ops := before; }
    else {
      var more := StepIsOp(from, steps[0]);
      RunAppend(EMPTY, before, more);
      Safety.StepKeepsInv(from, steps[0]);
      ops := RunOfTrace(steps[1..], Apply(from, steps[0]), sys, before + more);
    }
  }

  /** In particular: every row has the shape of its status, and claims balance retries. */
  lemma RowsOfARun(steps: seq<Step>, sys: System) returns (ops: seq<Runs.Op>)
    requires Trace(INIT, steps, sys)
    ensures sys.store == Runs.Run(EMPTY, ops) && StoreOk(sys.store)
    ensures forall id: nat :: Runs.CountFits(sys.store, id, Runs.ClaimCount(EMPTY, ops, id))
  {
    Reached(steps, sys);
    Safety.InitOk();
    NoOp(EMPTY);
    ops := RunOfTrace(steps, INIT, sys, []);
    forall id: nat ensures Runs.CountFits(sys.store, id, Runs.ClaimCount(EMPTY, ops, id)) {
      Runs.AttemptAccounting(ops, id);
    }
  }

  // ----- the repository's own client

  /** All the tokens of a link: assignments on their way, the running process, results on their way back. */
  function TokensOf(link: Link): multiset<Token> {
    AssignedTokens(Marks(link.toClient))
    + (if RunningToken(link.client).Some? then multiset{RunningToken(link.client).value} else multiset{})
    + ReturnedTokens(Replies(link.toServer))
  }

  function AssignedTokens(marks: seq<Mark>): multiset<Token> {
    if marks == [] then multiset{}
    else (if marks[0].Assigned? then multiset{Token(marks[0].taskId, marks[0].serial)} else multiset{}) + AssignedTokens(marks[1..])
  }

  function ReturnedTokens(replies: seq<Reply>): multiset<Token> {
    if replies == [] then multiset{}
    else (if replies[0].Returned? then multiset{Token(replies[0].taskId, replies[0].serial)} else multiset{}) + ReturnedTokens(replies[1..])
  }

  /** Conservation: while both sides are there, the session accounts for a published dispatch if
      and only if exactly one token of it, and no other token, is anywhere on the link. */
  lemma TokenConservation(steps: seq<Step>, sys: System, node: string)
    requires Trace(INIT, steps, sys) && NoForgery(steps) && Drain.Live(sys, node)
    ensures var carried := CarriedBy(sys.links[node].session);
            TokensOf(sys.links[node]) == if carried.Carries? then multiset{carried.token} else multiset{}
  {
    ReachedHonestly(steps, sys);
    var link := sys.links[node];
    assert LinkTokens(link);
    TokensOfShapes(CarriedBy(link.session), RunningToken(link.client), Marks(link.toClient), Replies(link.toServer));
  }

  lemma TokensOfShapes(carried: Carried, running: Option<Token>, marks: seq<Mark>, replies: seq<Reply>)
    requires TokenOk(carried, running, marks, replies)
    ensures AssignedTokens(marks) + (if running.Some? then multiset{running.value} else multiset{}) + ReturnedTokens(replies)
         == if carried.Carries? then multiset{carried.token} else multiset{}
  {
    hide AssignedTokens, ReturnedTokens, OnItsWay, OnlyOwnCancel, StaleCancel, OnItsWayBack, MaybeAck;
    if carried.Carries? {
      ShapesOfMarks(carried.token, carried.canceled, marks);
      ShapesOfReplies(carried.token, replies);
    } else {
      ShapesOfMarks(Token(0, 0), false, marks);
    }
    NoTokens();
  }

  lemma NoTokens()
    ensures AssignedTokens([]) == multiset{} && ReturnedTokens([]) == multiset{}
  {
  }

  lemma ShapesOfMarks(token: Token, canceled: bool, marks: seq<Mark>)
    ensures OnItsWay(token, canceled, marks) ==> AssignedTokens(marks) == multiset{token}
    ensures OnlyOwnCancel(token, canceled, marks) || StaleCancel(marks) ==> AssignedTokens(marks) == multiset{}
  {
    var own := [Assigned(token.taskId, token.serial)] + OwnCancel(token, canceled);
    assert own[1..] == OwnCancel(token, canceled);
    assert AssignedTokens(OwnCancel(token, canceled)) == multiset{} by {
      if canceled { assert OwnCancel(token, canceled)[1..] == []; }
    }
    assert AssignedTokens(own) == multiset{token};
    if StaleCancel(marks) && marks != [] { assert marks[1..] == []; }
  }

  lemma ShapesOfReplies(token: Token, replies: seq<Reply>)
    ensures OnItsWayBack(token, replies) ==> ReturnedTokens(replies) == multiset{token}
    ensures MaybeAck(token, replies) ==> ReturnedTokens(replies) == multiset{}
  {
    var returned := [Returned(token.taskId, token.serial)];
    assert returned[1..] == [] && ReturnedTokens(returned) == multiset{token};
    if replies != [] && replies[0].Acked? && |replies| <= 2 {
      assert replies[1..] == [] || replies[1..] == [replies[1]];
    }
  }

  /** Freshness: although a result names only its task, every result ever stored was produced by
      the dispatch open at that moment, across timeouts, cancels, retries, crashes and reconnects. */
  lemma ResultFreshness(steps: seq<Step>, sys: System)
    requires Trace(INIT, steps, sys) && NoForgery(steps)
    ensures forall k | 0 <= k < |sys.log| :: sys.log[k].serial == sys.log[k].open
  {
    ReachedHonestly(steps, sys);
  }

  /** Likewise for acks; and no ack or result of the client is ever answered with an error. */
  lemma RepliesExpected(steps: seq<Step>, sys: System, node: string, now: U64)
    requires Trace(INIT, steps, sys) && NoForgery(steps)
    requires Enabled(sys, ServerReceives(node, now)) && ReplyOf(sys.links[node].toServer[0]) != []
    ensures var link, sys' := sys.links[node], Apply(sys, ServerReceives(node, now));
            var reply := ReplyOf(link.toServer[0])[0];
            && link.session.slot.Some? && link.session.slot.value.taskId == reply.taskId
            && sys'.links[node].toClient == link.toClient
            && (sys'.store != sys.store ==>
                  ActiveAt(sys.store, node, reply.taskId) && sys.store.tasks[reply.taskId].retryCount + 1 == reply.serial)
  {
    hide StoreOk, Fifo, LogOk, NoticesOk, ActiveOk, CancelOk, WakeOk, SignalsOk, LinkTokens, LogFresh;
    ReachedHonestly(steps, sys);
    var link := sys.links[node];
    assert SessionOk(sys.store, node, link.session, link.signals, sys.notices) && LinkTokens(link);
    HeadReply(link);
    assert link.toClient + [] == link.toClient;
  }

  function AssignmentIn(frame: Frame<Topic>): TaskAssignment
    requires MarkOf(frame) != [] && MarkOf(frame)[0].Assigned?
  {
    if frame.topic == OnTask then frame.payload.assignment else frame.payload.tasks[0]
  }

  /** A session that waits for a dispatched task takes its ack, then its failure. */
  lemma AckThenFailure(node: string, st: Store, s: Session, result: ExecutionResult, serial: nat, now: U64)
    requires s.pc.Select? && s.slot.Some? && !s.slot.value.ignoreResult && !result.success
    requires Owned(st, node, s.slot.value.taskId) && st.tasks[s.slot.value.taskId].status.Dispatched?
    ensures var id := s.slot.value.taskId;
            var acked := Receive(node, st, s, Publish(OnAck, TaskAck(id, serial)), now);
            var failed := Receive(node, acked.store, s, ResultFrame(id, result, serial), now).store;
            && acked.session == s && Owned(acked.store, node, id) && acked.store.tasks[id].status.Running?
            && id in failed.tasks && failed.tasks[id].status.Failed? && failed.tasks[id].result == Some(result)
  {
  }

  /** The client is about to read the assignment of its node's dispatched task, with nothing else
      on its way to the server. */
  predicate AssignmentUnread(sys: System, node: string) {
    && Drain.Live(sys, node) && sys.links[node].session.pc.Select? && sys.links[node].client.Looping?
    && sys.links[node].toServer == [] && sys.links[node].toClient != []
    && MarkOf(sys.links[node].toClient[0]) != [] && MarkOf(sys.links[node].toClient[0])[0].Assigned?
    && var id := AssignmentIn(sys.links[node].toClient[0]).taskId;
       Owned(sys.store, node, id) && sys.store.tasks[id].status.Dispatched?
  }

  lemma SlotOfUnread(sys: System, node: string)
    requires FullInv(sys) && AssignmentUnread(sys, node)
    ensures var link := sys.links[node];
            && link.client == Looping(None) && link.session.slot.Some? && !link.session.slot.value.ignoreResult
            && link.session.slot.value.taskId == AssignmentIn(link.toClient[0]).taskId
  {
    hide StoreOk, Fifo, LogOk, NoticesOk, ActiveOk, CancelOk, WakeOk, SignalsOk, LogFresh;
    var link := sys.links[node];
    assert SessionOk(sys.store, node, link.session, link.signals, sys.notices) && LinkTokens(link);
    assert Marks(link.toClient) == MarkOf(link.toClient[0]) + Marks(link.toClient[1..]);
    assert Marks(link.toClient)[0] == Assigned(AssignmentIn(link.toClient[0]).taskId, AssignmentIn(link.toClient[0]).serial);
  }

  lemma ReadAssignment(config: ClientConfig, frame: Frame<Topic>, spawnError: Option<string>, elapsedMs: U64)
    requires MarkOf(frame) != [] && MarkOf(frame)[0].Assigned?
    ensures ClientReceive(config, None, frame, spawnError, elapsedMs)
         == StartAssignment(config, None, AssignmentIn(frame), spawnError, elapsedMs)
  {
    hide StartCommand;
  }

  lemma AckThen(config: ClientConfig, task: TaskAssignment, spawnError: Option<string>, elapsedMs: U64) returns (result: ExecutionResult)
    ensures var e := StartAssignment(config, None, task, spawnError, elapsedMs);
            var ack := Publish(OnAck, TaskAck(task.taskId, task.serial));
            && (e.running.Some? <==> Startable(config, task.commandName, task.args) && spawnError.None?)
            && (e.running.Some? ==> e.sent == [ack])
            && (e.running.None? ==> e.sent == [ack, ResultFrame(task.taskId, result, task.serial)])
            && !result.success
  {
    hide StartAssignment, Configured, Startable;
    AckMeansStart(config, task, spawnError, elapsedMs);
    var e := StartAssignment(config, None, task, spawnError, elapsedMs);
    result := FailedStart("", 0);
    if e.running.None? {
      result :| e.sent[1..] == [ResultFrame(task.taskId, result, task.serial)]
                && StartFailure(config, task, spawnError, elapsedMs, result);
      assert e.sent == [e.sent[0]] + e.sent[1..];
    } else {
      assert e.sent == [e.sent[0]];
    }
  }

  /** Running means acked, not started: the row turns Running by the ack alone; a process exists then
      if and only if the assignment was startable and spawning worked; and if not, the row goes from
      Dispatched over Running to Failed without one. */
  lemma RunningWithoutProcess(steps: seq<Step>, sys: System, node: string, spawnError: Option<string>, elapsedMs: U64, now: U64)
      returns (read: System, acked: System)
    requires Trace(INIT, steps, sys) && NoForgery(steps) && AssignmentUnread(sys, node)
    ensures Enabled(sys, ClientReceives(node, spawnError, elapsedMs)) && read == Apply(sys, ClientReceives(node, spawnError, elapsedMs))
    ensures Enabled(read, ServerReceives(node, now)) && acked == Apply(read, ServerReceives(node, now))
    ensures var task, config := AssignmentIn(sys.links[node].toClient[0]), sys.links[node].config;
            && node in read.links && node in acked.links && acked.links[node].client == read.links[node].client
            && task.taskId in acked.store.tasks && acked.store.tasks[task.taskId].status.Running?
            && (read.links[node].client == Looping(None) <==>
                  !(Startable(config, task.commandName, task.args) && spawnError.None?))
            && (read.links[node].client == Looping(None) ==>
                  && Enabled(acked, ServerReceives(node, now))
                  && var failed := Apply(acked, ServerReceives(node, now));
                     node in failed.links && failed.links[node].client == Looping(None)
                     && task.taskId in failed.store.tasks && failed.store.tasks[task.taskId].status.Failed?)
  {
    hide Trace, FullInv, HandshakeOk, StartAssignment, Startable, Configured, Receive, Completed1, MarkOf, ClientReceive;
    ReachedHonestly(steps, sys);
    SlotOfUnread(sys, node);
    var link := sys.links[node];
    var task := AssignmentIn(link.toClient[0]);
    ReadAssignment(link.config, link.toClient[0], spawnError, elapsedMs);
    var result := AckThen(link.config, task, spawnError, elapsedMs);
    var e := StartAssignment(link.config, None, task, spawnError, elapsedMs);
    read := Apply(sys, ClientReceives(node, spawnError, elapsedMs));
    assert read.links[node].toServer == e.sent;
    acked := Apply(read, ServerReceives(node, now));
    AckThenFailure(node, sys.store, link.session, result, task.serial, now);
  }

  /** A cancel request is refused exactly for a task that has completed or been canceled before; a
      running one is always canceled. */
  lemma CancelRefused(steps: seq<Step>, sys: System, id: nat, reason: Option<string>, audit: TaskAudit, now: U64)
    requires Trace(INIT, steps, sys)
    ensures var (st, outcome) := CancelTask(sys.store, id, reason, audit, now);
            && (outcome.NotCancelable? <==> Logged(sys.log, id) || (id in sys.store.tasks && sys.store.tasks[id].status.Canceled?))
            && (id in sys.store.tasks && Active(sys.store.tasks[id]) ==>
                  outcome.CanceledTask? && id in st.tasks && st.tasks[id].status.Canceled?)
  {
    FifoCompletion(steps, sys);
  }

  /** The client is idle whenever it reads an assignment, so it never drops one; and a cancel it
      reads while something runs was sent for exactly that dispatch. This holds as well for a client
      still reading what a session had sent before it broke. */
  lemma ClientExpects(steps: seq<Step>, sys: System, node: string)
    requires Trace(INIT, steps, sys) && NoForgery(steps) && node in sys.links
    requires sys.links[node].client.Looping? && sys.links[node].toClient != []
    requires MarkOf(sys.links[node].toClient[0]) != []
    ensures var mark, running := MarkOf(sys.links[node].toClient[0])[0], sys.links[node].client.running;
            && (mark.Assigned? ==> running.None?)
            && (mark.CancelSent? && running.Some? ==> running.value.taskId == mark.taskId && running.value.serial == mark.serial)
  {
    hide FullInv;
    Readers.InitReaders();
    Readers.TraceKeepsReaders(INIT, steps, sys);
    var link := sys.links[node];
    assert Readers.ReaderOk(link);
    var carried :| Readers.Fits(link, carried);
    assert Marks(link.toClient) == MarkOf(link.toClient[0]) + Marks(link.toClient[1..]);
    assert Marks(link.toClient)[0] == MarkOf(link.toClient[0])[0];
  }

  /** Whatever follows an assignment in the channel is its own cancel, right behind it and last. */
  ghost predicate OnlyOwnCancelFollows(marks: seq<Mark>) {
    forall i, j | 0 <= i < j < |marks| :: marks[i].Assigned? ==>
      j == i + 1 && j == |marks| - 1 && marks[j] == CancelSent(marks[i].taskId, marks[i].serial)
  }

  /** With the repository's client an assignment still unread is the newest: nothing follows it but
      its own cancel. */
  lemma UnreadAssignmentIsNewest(steps: seq<Step>, sys: System, node: string)
    requires Trace(INIT, steps, sys) && NoForgery(steps) && Drain.Live(sys, node)
    ensures OnlyOwnCancelFollows(Marks(sys.links[node].toClient))
  {
    hide Inv, HandshakeOk, Marks, Replies, TokenOk;
    ReachedHonestly(steps, sys);
    var link := sys.links[node];
    assert LinkTokens(link);
    OwnCancelFollows(CarriedBy(link.session), RunningToken(link.client), Marks(link.toClient), Replies(link.toServer));
  }

  lemma OwnCancelFollows(carried: Carried, running: Option<Token>, marks: seq<Mark>, replies: seq<Reply>)
    requires TokenOk(carried, running, marks, replies)
    ensures OnlyOwnCancelFollows(marks)
  {
    if |marks| <= 1 { return; }
    assert carried.Carries?;
    var token := carried.token;
    var own := Assigned(token.taskId, token.serial);
    var cancel := CancelSent(token.taskId, token.serial);
    if marks[0].Assigned? {
      assert marks == [own, cancel];
    } else {
      assert marks == [marks[0]] + marks[1..];
      assert marks == [marks[0], own] || marks == [marks[0], own, cancel];
    }
  }

  /** Drain: let a live node from now on see no timeout, no new task, no disconnect and no crash,
      while both ends go on with their heartbeats. It then takes boundedly many more steps other
      than heartbeats and their echoes, by a bound that no heartbeat raises; and when there is
      nothing left to do but heartbeats, all its tasks are over. */
  lemma EveryRunDrains(steps: seq<Step>, sys: System, node: string, more: seq<Step>, end: System)
    requires Trace(INIT, steps, sys) && NoForgery(steps) && Drain.Live(sys, node)
    requires Drain.Draining(sys, more, node, end)
    ensures Drain.WorkStepsOf(sys, more, node, end) <= Drain.Work(sys, node)
    ensures Drain.StepsOf(sys, more, node, end) <= Drain.Measure(sys, node) + 2 * Drain.BeatsOf(sys, more, node, end)
    ensures (forall step | Drain.WorkStep(step) && StepNode(end, step) == Some(node) :: !Enabled(end, step)) ==>
              Drain.AllOver(end.store, node)
  {
    hide Trace, Drain.Draining, Drain.Work, Drain.Measure, Drain.StepsOf, Drain.WorkStepsOf, Drain.BeatsOf, Enabled;
    ReachedHonestly(steps, sys);
    Drain.DrainBounded(sys, more, node, end);
    if forall step | Drain.WorkStep(step) && StepNode(end, step) == Some(node) :: !Enabled(end, step) {
      Drain.MaximalRunIsDone(sys, more, node, end);
    }
  }

  /** Liveness: take any run up to a live state and any continuation without end, with heartbeats
      forever, in which the node sees no timeout, new task, disconnect or crash and none of its parts
      is passed over forever. Then from some point on all its tasks are over. */
  lemma EveryFairRunFinishes(steps: seq<Step>, states: nat -> System, more: nat -> Step, node: string) returns (n: nat)
    requires Trace(INIT, steps, states(0)) && NoForgery(steps) && Drain.Live(states(0), node)
    requires Liveness.Run(states, more, node) && Liveness.Fair(states, more, node)
    ensures forall m: nat | n <= m :: Drain.AllOver(states(m).store, node)
  {
    hide Trace, NoForgery, Drain.Live, Liveness.Run, Liveness.Fair, Drain.AllOver;
    ReachedHonestly(steps, states(0));
    n := Liveness.EveryFairRunFinishes(states, more, node);
  }

  lemma {:induction false} TraceThen(a: System, steps: seq<Step>, b: System, more: seq<Step>, c: System)
    requires Trace(a, steps, b) && Trace(b, more, c)
    ensures Trace(a, steps + more, c)
    decreases |steps|
  {
    hide Enabled, Apply;
    if steps == [] { assert steps + more == more; }
    else {
      TraceThen(Apply(a, steps[0]), steps[1..], b, more, c);
      assert (steps + more)[1..] == steps[1..] + more;
    }
  }

  /** No reachable state is a dead end: whatever happened before, some continuation, without cancels
      and with at most one reconnection, finishes all the tasks of a node. */
  lemma NeverDead(steps: seq<Step>, sys: System, config: ClientConfig) returns (more: seq<Step>, end: System)
    requires Trace(INIT, steps, sys) && NoForgery(steps)
    ensures Trace(sys, more, end) && Drain.AllOver(end.store, config.nodeId)
    ensures forall i | 0 <= i < |more| ::
              Drain.WorkStep(more[i]) || (i < 3 && more[i] in {Break(config.nodeId), Close(config.nodeId), Open(config.nodeId, config)})
  {
    ReachedHonestly(steps, sys);
    var first, live := Reconnect(sys, config);
    var rest;
    rest, end := Drain.DrainsOut(live, config.nodeId);
    TraceThen(sys, first, live, rest, end);
    more := first + rest;
  }

  lemma Reconnect(sys: System, config: ClientConfig) returns (steps: seq<Step>, live: System)
    requires DrainInv(sys)
    ensures DrainInv(live) && Drain.Live(live, config.nodeId) && Trace(sys, steps, live)
    ensures |steps| <= if Connected(sys, config.nodeId) then 3 else if config.nodeId in sys.links then 2 else 1
    ensures forall i | 0 <= i < |steps| :: steps[i] in {Break(config.nodeId), Close(config.nodeId), Open(config.nodeId, config)}
    decreases if Connected(sys, config.nodeId) then 2 else if config.nodeId in sys.links then 1 else 0
  {
    hide DrainInv;
    var node := config.nodeId;
    if Drain.Live(sys, node) { return [], sys; }
    var step := if Connected(sys, node) then Break(node) else if node in sys.links then Close(node) else Open(node, config);
    StepKeepsDrain(sys, step);
    live := Apply(sys, step);
    var rest := [];
    if !step.Open? { rest, live := Reconnect(live, config); }
    steps := [step] + rest;
    assert steps[1..] == rest;
  }
}
