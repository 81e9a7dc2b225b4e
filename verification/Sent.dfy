/** Everything the server ever sends about a dispatch, over whole runs and for arbitrary clients:
    its assignment and its cancel are each sent at most once, the cancel right behind the
    assignment. */
module Sent {
  import opened Prelude
  import opened Topics
  import opened Store
  import opened Messages
  import opened ServerSession
  import opened ClientSession
  import opened Protocol
  import opened Links
  import opened Invariant
  import opened Tokens
  import opened StepOps
  import Runs = StoreRuns
  import Safety

  // ----- what is sent

  /** The frames a step puts on the connection of its node. */
  function FramesSent(sys: System, step: Step): seq<Frame<Topic>>
    requires Enabled(sys, step)
  {
    match step
    case ServerHeartbeat(node, now) => HeartbeatTick(node, sys.store, sys.links[node].session, now).sent
    case ServerReceives(node, now) => Receive(node, sys.store, sys.links[node].session, sys.links[node].toServer[0], now).sent
    case ServerAdvances(node, now) => Advance(node, sys.store, sys.links[node].session, now).sent
    case ServerSignaled(node) => TakeSignal(sys.links[node].session, sys.links[node].signals[0]).1
    case _ => []
  }

  function MarksSent(sys: System, step: Step): seq<Mark>
    requires Enabled(sys, step)
  {
    Marks(FramesSent(sys, step))
  }

  /** How often a run puts `mark` on a connection, whichever it is. */
  function TimesSent(sys: System, steps: seq<Step>, mark: Mark): nat
    decreases |steps|
  {
    if steps == [] || !Enabled(sys, steps[0]) then 0
    else multiset(MarksSent(sys, steps[0]))[mark] + TimesSent(Apply(sys, steps[0]), steps[1..], mark)
  }

  /** What has been sent on the node's latest connection, given what had been before the step. */
  function SentAfter(sys: System, step: Step, node: string, before: seq<Mark>): seq<Mark>
    requires Enabled(sys, step)
  {
    if step.Open? && step.node == node then []
    else if SessionStep(step) && step.node == node then before + MarksSent(sys, step)
    else before
  }

  function SentOn(sys: System, steps: seq<Step>, node: string, before: seq<Mark>): seq<Mark>
    decreases |steps|
  {
    if steps == [] || !Enabled(sys, steps[0]) then before
    else SentOn(Apply(sys, steps[0]), steps[1..], node, SentAfter(sys, steps[0], node, before))
  }

  // ----- a session and the marks it sends

  predicate SameTicket(s: Session, id: nat, serial: nat) {
    Held(s).Some? && Held(s).value.taskId == id && Held(s).value.serial == serial
  }

  predicate SlotCanceled(s: Session) {
    s.slot.Some? && s.slot.value.cancelRequested
  }

  /** Where the ticket of a session after a step comes from: the session had it, or it is a fresh
      claim of a queued task. */
  ghost predicate TicketMoves(st: Store, s: Session, s': Session) {
    Held(s').Some? ==>
      var id, serial := Held(s').value.taskId, Held(s').value.serial;
      || (SameTicket(s, id, serial) && (s'.pc.Publishing? ==> s.pc.Publishing?) && (SlotCanceled(s) ==> SlotCanceled(s')))
      || (id in st.tasks && st.tasks[id].status.Queued? && serial == st.tasks[id].retryCount + 1)
  }

  /** What can be sent: the assignment of a claim being published, or the cancel of a slot that has
      not seen one; and afterwards neither can be sent again for this ticket. */
  ghost predicate SendsOf(s: Session, s': Session, marks: seq<Mark>) {
    |marks| <= 1
    && forall mark | mark in marks ::
      && SameTicket(s, mark.taskId, mark.serial)
      && (mark.Assigned? ==> s.pc.Publishing? && !s'.pc.Publishing?)
      && (mark.CancelSent? ==> !s.pc.Publishing? && !SlotCanceled(s) && SlotCanceled(s') && !s'.pc.Publishing?)
  }

  lemma ClaimingTicket(node: string, st: Store, s: Session, pushed: bool, now: U64)
    requires s.slot.None? && (s.pc.Select? || s.pc.Dispatching?)
    ensures TicketMoves(st, s, Claiming(node, st, s, pushed, now).session)
    ensures Marks(Claiming(node, st, s, pushed, now).sent) == []
  {
    var sent := Claiming(node, st, s, pushed, now).sent;
    if sent != [] { MarksOfTwo(sent); }
  }

  lemma AdvanceSends(node: string, st: Store, s: Session, now: U64)
    requires InHandler(s) && ShapeOk(s)
    ensures var e := Advance(node, st, s, now); TicketMoves(st, s, e.session) && SendsOf(s, e.session, Marks(e.sent))
  {
    hide Claiming, RegisterNode;
    var e := Advance(node, st, s, now);
    if s.pc.Dispatching? && Ready(s) { ClaimingTicket(node, st, s, true, now); }
    else if e.sent != [] { MarksOfTwo(e.sent); }
  }

  lemma TicksSend(node: string, st: Store, s: Session, now: U64, signal: Signal)
    requires s.pc.Select? && ShapeOk(s)
    ensures var e := HeartbeatTick(node, st, s, now); TicketMoves(st, s, e.session) && Marks(e.sent) == []
    ensures var (s', sent) := TakeSignal(s, signal); TicketMoves(st, s, s') && SendsOf(s, s', Marks(sent))
  {
    HeartbeatMoves(node, st, s, now);
    var (s', sent) := TakeSignal(s, signal);
    if sent != [] { MarksOfTwo(sent); }
  }

  lemma ReceiveSends(node: string, st: Store, s: Session, frame: Frame<Topic>, now: U64)
    requires s.pc.Select?
    ensures var e := Receive(node, st, s, frame, now); TicketMoves(st, s, e.session) && Marks(e.sent) == []
  {
    hide ReceiveControl, ReceiveHello, ReceiveAck, ReceiveResult;
    ReceiveMoves(node, st, s, frame, now);
    if frame.Publish? {
      ControlTicket(node, st, s, frame.payload, now);
      HelloTicket(node, st, s, frame.payload, now);
      RepliesTicket(node, st, s, frame.payload, now);
    }
  }

  lemma ControlTicket(node: string, st: Store, s: Session, payload: Payload, now: U64)
    requires s.pc.Select?
    ensures TicketMoves(st, s, ReceiveControl(node, st, s, payload, now).session)
  {
    hide Claiming;
    if payload.TaskPullRequest? && s.slot.None? { ClaimingTicket(node, st, s, false, now); }
  }

  lemma HelloTicket(node: string, st: Store, s: Session, payload: Payload, now: U64)
    requires s.pc.Select?
    ensures TicketMoves(st, s, ReceiveHello(node, st, s, payload, now).session)
  {
    hide RequeueIncompleteTasks, UpdateNodeCommands;
  }

  lemma RepliesTicket(node: string, st: Store, s: Session, payload: Payload, now: U64)
    requires s.pc.Select?
    ensures TicketMoves(st, s, ReceiveAck(node, st, s, payload, now).session)
    ensures TicketMoves(st, s, ReceiveResult(node, st, s, payload, now).session)
  {
    hide AcknowledgeTask, SubmitTaskResult;
  }

  /** The four kinds of session step at once. */
  lemma SessionSends(sys: System, step: Step)
    requires Inv(sys) && Enabled(sys, step) && SessionStep(step)
    ensures TicketMoves(sys.store, sys.links[step.node].session, Apply(sys, step).links[step.node].session)
    ensures SendsOf(sys.links[step.node].session, Apply(sys, step).links[step.node].session, MarksSent(sys, step))
  {
    hide StoreOk, Fifo, LogOk, NoticesOk, HeldOk, ActiveOk, CancelOk, WakeOk, SignalsOk, ShapeOk,
         Receive, Advance, HeartbeatTick, TakeSignal, Completed1, TicketMoves, Marks;
    var link := sys.links[step.node];
    assert SessionOk(sys.store, step.node, link.session, link.signals, sys.notices);
    assert ShapeOk(link.session);
    match step
    case ServerHeartbeat(node, now) => TicksSend(node, sys.store, link.session, now, TryDispatch);
    case ServerReceives(node, now) => ReceiveSends(node, sys.store, link.session, link.toServer[0], now);
    case ServerAdvances(node, now) => AdvanceSends(node, sys.store, link.session, now);
    case ServerSignaled(_) => TicksSend(step.node, sys.store, link.session, 0, link.signals[0]);
  }

  // ----- a mark that was sent

  /** The dispatch is not one that a claim could still open. */
  predicate Opened(st: Store, id: nat, serial: nat) {
    id in st.tasks
    && serial <= st.tasks[id].retryCount + 1
    && (st.tasks[id].status.Queued? ==> serial <= st.tasks[id].retryCount)
  }

  predicate NotAgain(s: Session, mark: Mark) {
    !s.pc.Closing? && SameTicket(s, mark.taskId, mark.serial) ==>
      !s.pc.Publishing? && (mark.CancelSent? ==> SlotCanceled(s))
  }

  /** `mark` has been sent, and no session can send it again. */
  ghost predicate Spent(sys: System, mark: Mark) {
    Opened(sys.store, mark.taskId, mark.serial)
    && forall node | node in sys.links :: NotAgain(sys.links[node].session, mark)
  }

  lemma OpenedKept(sys: System, step: Step, id: nat, serial: nat)
    requires StoreOk(sys.store) && Enabled(sys, step) && Opened(sys.store, id, serial)
    ensures Opened(Apply(sys, step).store, id, serial)
  {
    hide StoreOk, Enabled, Apply, Runs.Apply;
    var ops := StepIsOp(sys, step);
    NoOp(sys.store);
    if ops != [] {
      assert ops == [ops[0]];
      OneOp(sys.store, ops[0]);
      Runs.ApplySteps(sys.store, ops[0], id);
    }
  }

  /** Sessions change only by their own steps, by opening and by closing. */
  lemma OtherSessions(sys: System, step: Step, node: string)
    requires Enabled(sys, step) && node in Apply(sys, step).links && !(SessionStep(step) && step.node == node)
    ensures var s' := Apply(sys, step).links[node].session;
            s'.pc.Closing? || s' == OPENED || (node in sys.links && s' == sys.links[node].session)
  {
    if !OwnStep(step, node) { hide Apply, Enabled; OtherLinks(sys, step, node); }
    else { hide ClientReceive, ProgressTick; }
  }

  /** A spent mark stays spent, and is not sent. */
  lemma StepKeepsSpent(sys: System, step: Step, mark: Mark)
    requires Inv(sys) && Enabled(sys, step) && Spent(sys, mark)
    ensures Spent(Apply(sys, step), mark) && mark !in MarksSent(sys, step)
  {
    hide Inv, Apply, MarksSent;
    assert StoreOk(sys.store) by { InvParts(sys); }
    OpenedKept(sys, step, mark.taskId, mark.serial);
    if SessionStep(step) { SessionSends(sys, step); }
    else { SilentStep(sys, step); }
    forall node | node in Apply(sys, step).links ensures NotAgain(Apply(sys, step).links[node].session, mark) {
      if !(SessionStep(step) && step.node == node) { OtherSessions(sys, step, node); }
    }
  }

  lemma InvParts(sys: System)
    requires Inv(sys)
    ensures StoreOk(sys.store)
    ensures forall node | node in sys.links :: HeldOk(sys.store, node, sys.links[node].session) || sys.links[node].session.pc.Closing?
  {
    hide StoreOk, Fifo, LogOk, NoticesOk, HeldOk, ShapeOk, ActiveOk, CancelOk, WakeOk, SignalsOk;
    forall node | node in sys.links && !sys.links[node].session.pc.Closing?
      ensures HeldOk(sys.store, node, sys.links[node].session)
    {
      assert SessionOk(sys.store, node, sys.links[node].session, sys.links[node].signals, sys.notices);
    }
  }

  lemma SilentStep(sys: System, step: Step)
    requires Enabled(sys, step) && !SessionStep(step)
    ensures MarksSent(sys, step) == []
  {
  }

  /** A mark being sent is spent by that. */
  lemma StepSpends(sys: System, step: Step, mark: Mark)
    requires Inv(sys) && Enabled(sys, step) && mark in MarksSent(sys, step)
    ensures Spent(Apply(sys, step), mark) && multiset(MarksSent(sys, step))[mark] == 1
  {
    hide Inv, Apply, MarksSent, StoreOk, Enabled;
    InvParts(sys);
    if !SessionStep(step) { SilentStep(sys, step); }
    SessionLives(sys, step);
    SessionSends(sys, step);
    assert MarksSent(sys, step) == [mark];
    assert Owned(sys.store, step.node, mark.taskId);
    OpenedKept(sys, step, mark.taskId, mark.serial);
    forall node | node in Apply(sys, step).links ensures NotAgain(Apply(sys, step).links[node].session, mark) {
      if node != step.node { OtherSessions(sys, step, node); }
    }
  }

  lemma SessionLives(sys: System, step: Step)
    requires Enabled(sys, step) && SessionStep(step)
    ensures step.node in sys.links && !sys.links[step.node].session.pc.Closing? && step.node in Apply(sys, step).links
  {
  }

  /** Over a whole run every mark is sent at most once, and not at all if it was spent before. */
  lemma {:induction false} SentOnce(from: System, steps: seq<Step>, sys: System, mark: Mark)
    requires Inv(from) && Trace(from, steps, sys)
    ensures TimesSent(from, steps, mark) <= if Spent(from, mark) then 0 else 1
    decreases |steps|
  {
    hide Inv, Enabled, Apply, MarksSent, Spent;
    if steps != [] {
      if Spent(from, mark) { StepKeepsSpent(from, steps[0], mark); }
      else if mark in MarksSent(from, steps[0]) { StepSpends(from, steps[0], mark); }
      Safety.StepKeepsInv(from, steps[0]);
      SentOnce(Apply(from, steps[0]), steps[1..], sys, mark);
    }
  }

  // ----- one connection

  /** Every cancel stands directly behind the assignment it is for. */
  predicate Paired(marks: seq<Mark>) {
    forall j | 0 <= j < |marks| && marks[j].CancelSent? ::
      j > 0 && marks[j - 1] == Assigned(marks[j].taskId, marks[j].serial)
  }

  /** What a session with an open, not yet canceled dispatch sent last is the assignment. */
  predicate LastSent(carried: Carried, marks: seq<Mark>) {
    carried.Carries? && !carried.canceled ==>
      marks != [] && marks[|marks| - 1] == Assigned(carried.token.taskId, carried.token.serial)
  }

  predicate IsSuffix<T(==)>(a: seq<T>, b: seq<T>) {
    |a| <= |b| && b[|b| - |a|..] == a
  }

  predicate HistoryOk(sys: System, node: string, marks: seq<Mark>) {
    Paired(marks)
    && (node in sys.links ==> IsSuffix(Marks(sys.links[node].toClient), marks))
    && (Connected(sys, node) ==> LastSent(CarriedBy(sys.links[node].session), marks))
  }

  lemma MovePairs(c: Carried, c': Carried, sent: seq<Mark>, marks: seq<Mark>)
    requires Paired(marks) && LastSent(c, marks)
    requires Move(c, c', sent) || (c'.Nothing? && sent == [])
    ensures Paired(marks + sent) && LastSent(c', marks + sent)
  {
    assert marks + [] == marks;
  }

  lemma SuffixAppend<T>(a: seq<T>, b: seq<T>, more: seq<T>)
    requires IsSuffix(a, b)
    ensures IsSuffix(a + more, b + more)
  {
    assert (b + more)[|b| - |a|..] == b[|b| - |a|..] + more;
  }

  lemma SessionMoves(sys: System, step: Step)
    requires Inv(sys) && Enabled(sys, step) && SessionStep(step)
    ensures var c, c' := CarriedBy(sys.links[step.node].session), CarriedBy(Apply(sys, step).links[step.node].session);
            Move(c, c', MarksSent(sys, step)) || (c'.Nothing? && MarksSent(sys, step) == [])
    ensures Apply(sys, step).links[step.node].toClient == sys.links[step.node].toClient + FramesSent(sys, step)
  {
    hide StoreOk, Fifo, LogOk, NoticesOk, HeldOk, ActiveOk, CancelOk, WakeOk, SignalsOk, ShapeOk,
         Receive, Advance, HeartbeatTick, TakeSignal, Completed1, Marks, CarriedBy;
    var link := sys.links[step.node];
    assert SessionOk(sys.store, step.node, link.session, link.signals, sys.notices);
    assert ShapeOk(link.session);
    match step
    case ServerHeartbeat(node, now) => HeartbeatMoves(node, sys.store, link.session, now);
    case ServerReceives(node, now) => ReceiveMoves(node, sys.store, link.session, link.toServer[0], now);
    case ServerAdvances(node, now) => AdvanceMoves(node, sys.store, link.session, now);
    case ServerSignaled(_) => SignalMoves(link.session, link.signals[0]);
  }

  /** A channel changes only by its session's sends, by its client's reads and with its connection. */
  lemma OtherChannels(sys: System, step: Step, node: string)
    requires Enabled(sys, step) && node in Apply(sys, step).links && !(SessionStep(step) && step.node == node)
    ensures var frames := Apply(sys, step).links[node].toClient;
            if step.Open? && step.node == node then frames == []
            else node in sys.links
                 && if step.ClientReceives? && step.node == node
                    then sys.links[node].toClient != [] && frames == sys.links[node].toClient[1..]
                    else frames == sys.links[node].toClient
  {
    if !OwnStep(step, node) { hide Apply, Enabled; OtherLinks(sys, step, node); }
    else { hide ClientReceive, ProgressTick; }
  }

  lemma StepKeepsHistory(sys: System, step: Step, node: string, marks: seq<Mark>)
    requires Inv(sys) && Enabled(sys, step) && HistoryOk(sys, node, marks)
    ensures HistoryOk(Apply(sys, step), node, SentAfter(sys, step, node, marks))
  {
    hide Inv, Apply, MarksSent, FramesSent, CarriedBy, MarkOf;
    var sys' := Apply(sys, step);
    if SessionStep(step) && step.node == node {
      SessionLives(sys, step);
      SessionMoves(sys, step);
      var link, link' := sys.links[node], sys'.links[node];
      MovePairs(CarriedBy(link.session), CarriedBy(link'.session), MarksSent(sys, step), marks);
      assert Marks(link'.toClient) == Marks(link.toClient) + MarksSent(sys, step) by {
        MarksAppend(link.toClient, FramesSent(sys, step));
        MarksOfFrames(sys, step);
      }
      SuffixAppend(Marks(link.toClient), marks, MarksSent(sys, step));
    } else if node in sys'.links {
      OtherChannels(sys, step, node);
      OtherSessions(sys, step, node);
      FreshCarries();
      if !(step.Open? && step.node == node) { ReadKeepsSuffix(sys.links[node].toClient, marks); }
    }
  }

  lemma MarksOfFrames(sys: System, step: Step)
    requires Enabled(sys, step)
    ensures MarksSent(sys, step) == Marks(FramesSent(sys, step))
  {
  }

  lemma FreshCarries()
    ensures CarriedBy(OPENED) == Nothing && Marks([]) == []
  {
  }

  lemma ReadKeepsSuffix(frames: seq<Frame<Topic>>, marks: seq<Mark>)
    requires IsSuffix(Marks(frames), marks)
    ensures frames != [] ==> IsSuffix(Marks(frames[1..]), marks)
  {
    if frames != [] {
      assert Marks(frames) == MarkOf(frames[0]) + Marks(frames[1..]);
      assert marks[|marks| - |Marks(frames[1..])|..] == Marks(frames)[|MarkOf(frames[0])|..];
    }
  }

  lemma {:induction false} TraceKeepsHistory(from: System, steps: seq<Step>, sys: System, node: string, marks: seq<Mark>)
    requires Inv(from) && Trace(from, steps, sys) && HistoryOk(from, node, marks)
    ensures HistoryOk(sys, node, SentOn(from, steps, node, marks))
    decreases |steps|
  {
    hide Inv, Enabled, Apply, HistoryOk, SentAfter;
    if steps != [] {
      StepKeepsHistory(from, steps[0], node, marks);
      Safety.StepKeepsInv(from, steps[0]);
      TraceKeepsHistory(Apply(from, steps[0]), steps[1..], sys, node, SentAfter(from, steps[0], node, marks));
    }
  }

  /** What one connection carried is part of what the run sent. */
  lemma {:induction false} SentOnIsSent(from: System, steps: seq<Step>, sys: System, node: string, marks: seq<Mark>, mark: Mark)
    requires Trace(from, steps, sys)
    ensures multiset(SentOn(from, steps, node, marks))[mark] <= multiset(marks)[mark] + TimesSent(from, steps, mark)
    decreases |steps|
  {
    hide Enabled, Apply, MarksSent;
    if steps != [] {
      SentOnIsSent(Apply(from, steps[0]), steps[1..], sys, node, SentAfter(from, steps[0], node, marks), mark);
    }
  }

  // ----- at most one process per dispatch

  predicate Carrying(sys: System, node: string, mark: Mark) {
    node in sys.links && mark in Marks(sys.links[node].toClient)
  }

  /** On its way to at most one client, once, and only if it was sent. */
  ghost predicate UnreadOnce(sys: System, mark: Mark) {
    && (forall node | node in sys.links :: multiset(Marks(sys.links[node].toClient))[mark] <= 1)
    && (forall a, b | Carrying(sys, a, mark) && Carrying(sys, b, mark) :: a == b)
    && (forall node | Carrying(sys, node, mark) :: Spent(sys, mark))
  }

  /** Sent, and on its way to no client any more. */
  ghost predicate ReadUp(sys: System, mark: Mark) {
    Spent(sys, mark) && forall node :: !Carrying(sys, node, mark)
  }

  predicate ReadsMark(sys: System, step: Step, mark: Mark)
    requires Enabled(sys, step)
  {
    step.ClientReceives? && MarkOf(sys.links[step.node].toClient[0]) == [mark]
  }

  /** What a step does to the marks on their way to one client. */
  lemma ChannelStep(sys: System, step: Step, node: string)
    requires Inv(sys) && Enabled(sys, step) && node in Apply(sys, step).links
    ensures var marks' := Marks(Apply(sys, step).links[node].toClient);
            || (step.Open? && step.node == node && marks' == [])
            || (node in sys.links
                && var marks := Marks(sys.links[node].toClient);
                   if SessionStep(step) && step.node == node then marks' == marks + MarksSent(sys, step)
                   else if step.ClientReceives? && step.node == node
                   then sys.links[node].toClient != [] && marks == MarkOf(sys.links[node].toClient[0]) + marks'
                   else marks' == marks)
  {
    hide Inv, Apply, Enabled, MarksSent, FramesSent, MarkOf;
    if SessionStep(step) && step.node == node {
      SessionLives(sys, step);
      SessionMoves(sys, step);
      MarksAppend(sys.links[node].toClient, FramesSent(sys, step));
      MarksOfFrames(sys, step);
    } else {
      OtherChannels(sys, step, node);
      FreshCarries();
    }
  }

  /** A mark gets into a channel by being sent only. */
  lemma CarriedFrom(sys: System, step: Step, node: string, mark: Mark)
    requires Inv(sys) && Enabled(sys, step) && Carrying(Apply(sys, step), node, mark)
    ensures Carrying(sys, node, mark) || (SessionStep(step) && step.node == node && mark in MarksSent(sys, step))
    ensures mark !in MarksSent(sys, step) ==>
              multiset(Marks(Apply(sys, step).links[node].toClient))[mark] <= multiset(Marks(sys.links[node].toClient))[mark]
  {
    hide Inv, Apply, Enabled, MarksSent, MarkOf;
    ChannelStep(sys, step, node);
  }

  /** The step sends the mark: it was in no channel, and is now in one. */
  lemma SendingKeepsUnread(sys: System, step: Step, mark: Mark)
    requires Inv(sys) && Enabled(sys, step) && UnreadOnce(sys, mark) && mark in MarksSent(sys, step)
    ensures UnreadOnce(Apply(sys, step), mark)
  {
    hide Inv, Apply, Enabled, MarksSent, Spent, Marks, MarkOf;
    var sys' := Apply(sys, step);
    assert SessionStep(step) by { if !SessionStep(step) { SilentStep(sys, step); } }
    if Spent(sys, mark) { StepKeepsSpent(sys, step, mark); }
    StepSpends(sys, step, mark);
    forall node ensures !Carrying(sys, node, mark) && (Carrying(sys', node, mark) ==> node == step.node) {
      if Carrying(sys', node, mark) { CarriedFrom(sys, step, node, mark); }
    }
    forall node | node in sys'.links ensures multiset(Marks(sys'.links[node].toClient))[mark] <= 1 {
      if Carrying(sys', node, mark) { ChannelStep(sys, step, node); }
    }
  }

  lemma StepKeepsUnread(sys: System, step: Step, mark: Mark)
    requires Inv(sys) && Enabled(sys, step) && UnreadOnce(sys, mark)
    ensures UnreadOnce(Apply(sys, step), mark)
  {
    hide Inv, Apply, Enabled, MarksSent, Spent, Marks;
    var sys' := Apply(sys, step);
    if mark in MarksSent(sys, step) { SendingKeepsUnread(sys, step, mark); }
    else {
      forall node | Carrying(sys', node, mark)
        ensures Carrying(sys, node, mark) && multiset(Marks(sys'.links[node].toClient))[mark] <= 1 && Spent(sys', mark)
      {
        CarriedFrom(sys, step, node, mark);
        StepKeepsSpent(sys, step, mark);
      }
    }
  }

  /** What has been read up stays so; and reading a mark reads it up. */
  lemma StepReadsUp(sys: System, step: Step, mark: Mark)
    requires Inv(sys) && Enabled(sys, step) && UnreadOnce(sys, mark)
    requires ReadUp(sys, mark) || ReadsMark(sys, step, mark)
    ensures ReadUp(Apply(sys, step), mark)
    ensures ReadUp(sys, mark) ==> !ReadsMark(sys, step, mark)
  {
    hide Inv, Apply, Enabled, MarksSent, Spent, MarkOf;
    var sys' := Apply(sys, step);
    if ReadsMark(sys, step, mark) { HeadCarried(sys, step, mark); }
    StepKeepsSpent(sys, step, mark);
    forall node ensures !Carrying(sys', node, mark) {
      if Carrying(sys', node, mark) {
        CarriedFrom(sys, step, node, mark);
        ChannelStep(sys, step, node);
        OneFewer(mark, Marks(sys'.links[node].toClient), Marks(sys.links[node].toClient));
      }
    }
  }

  lemma OneFewer(mark: Mark, rest: seq<Mark>, marks: seq<Mark>)
    ensures marks == [mark] + rest && multiset(marks)[mark] <= 1 ==> mark !in rest
  {
    if marks == [mark] + rest { assert multiset(marks)[mark] == 1 + multiset(rest)[mark]; }
  }

  lemma HeadCarried(sys: System, step: Step, mark: Mark)
    requires Enabled(sys, step) && ReadsMark(sys, step, mark)
    ensures Carrying(sys, step.node, mark)
  {
    var frames := sys.links[step.node].toClient;
    assert Marks(frames) == MarkOf(frames[0]) + Marks(frames[1..]);
    assert Marks(frames)[0] == mark;
  }

  /** The client gets a process for `token` by this step. */
  predicate Starts(sys: System, step: Step, token: Token)
    requires Enabled(sys, step)
  {
    ClientStep(step) && step.node in Apply(sys, step).links
    && RunningToken(sys.links[step.node].client) != Some(token)
    && RunningToken(Apply(sys, step).links[step.node].client) == Some(token)
  }

  /** How many processes a run starts for a dispatch, at whichever client. */
  function TimesStarted(sys: System, steps: seq<Step>, token: Token): nat
    decreases |steps|
  {
    if steps == [] || !Enabled(sys, steps[0]) then 0
    else (if Starts(sys, steps[0], token) then 1 else 0) + TimesStarted(Apply(sys, steps[0]), steps[1..], token)
  }

  /** Only reading its assignment starts a process. */
  lemma StartReads(sys: System, step: Step, token: Token)
    requires Enabled(sys, step) && Starts(sys, step, token)
    ensures ReadsMark(sys, step, Assigned(token.taskId, token.serial))
  {
    hide ClientReceive, StartAssignment, HandleCancel, MarkOf, ProgressTick, Greeting;
    if step.ClientReceives? {
      var link := sys.links[step.node];
      var frame := link.toClient[0];
      FrameMeaning(link.config, link.client.running, frame, step.spawnError, step.elapsedMs);
      if MarkOf(frame) != [] && MarkOf(frame)[0].CancelSent? {
        CancelFrame(frame);
        CancelKeepsRun(link.client.running, frame.payload.taskId, frame.payload.reason);
      } else if MarkOf(frame) != [] {
        var task: TaskAssignment :| MarkOf(frame) == [Assigned(task.taskId, task.serial)]
                    && ClientReceive(link.config, link.client.running, frame, step.spawnError, step.elapsedMs)
                       == StartAssignment(link.config, link.client.running, task, step.spawnError, step.elapsedMs);
        StartedTask(link.config, link.client.running, task, step.spawnError, step.elapsedMs);
      }
    }
  }

  lemma CancelKeepsRun(running: Option<RunningTask>, taskId: nat, reason: Option<string>)
    ensures RunningToken(Looping(HandleCancel(running, taskId, reason))) == RunningToken(Looping(running))
  {
  }

  lemma StartedTask(config: ClientConfig, running: Option<RunningTask>, task: TaskAssignment,
                    spawnError: Option<string>, elapsedMs: U64)
    ensures var e := StartAssignment(config, running, task, spawnError, elapsedMs);
            RunningToken(Looping(e.running)) == RunningToken(Looping(running))
            || RunningToken(Looping(e.running)) == None
            || RunningToken(Looping(e.running)) == Some(Token(task.taskId, task.serial))
  {
    hide StartCommand;
  }

  lemma {:induction false} StartedOnce(from: System, steps: seq<Step>, sys: System, token: Token)
    requires Inv(from) && Trace(from, steps, sys) && UnreadOnce(from, Assigned(token.taskId, token.serial))
    ensures TimesStarted(from, steps, token) <= if ReadUp(from, Assigned(token.taskId, token.serial)) then 0 else 1
    decreases |steps|
  {
    hide Inv, Enabled, Apply, UnreadOnce, ReadUp, Starts, ReadsMark;
    if steps != [] {
      var mark := Assigned(token.taskId, token.serial);
      if Starts(from, steps[0], token) { StartReads(from, steps[0], token); }
      if ReadUp(from, mark) || ReadsMark(from, steps[0], mark) { StepReadsUp(from, steps[0], mark); }
      StepKeepsUnread(from, steps[0], mark);
      Safety.StepKeepsInv(from, steps[0]);
      StartedOnce(Apply(from, steps[0]), steps[1..], sys, token);
    }
  }
}
