/** With the repository's own client, every dispatch is one token: while the session accounts for
    it, it is in exactly one place, the assignment on its way, the running process, or the result
    on its way back. */
module Tokens {
  import opened Prelude
  import opened Topics
  import opened Tasks
  import opened Store
  import opened Messages
  import opened ServerSession
  import opened ClientSession
  import opened Protocol
  import opened Links
  import opened Invariant
  import Safety

  // ----- what the two channels carry

  datatype Mark = Assigned(taskId: nat, serial: nat) | CancelSent(taskId: nat, serial: nat)

  datatype Reply = Acked(taskId: nat, serial: nat) | Returned(taskId: nat, serial: nat)

  /** What a frame towards the client means for its task. */
  function MarkOf(frame: Frame<Topic>): seq<Mark> {
    if !frame.Publish? then []
    else if frame.topic == OnTask && frame.payload.Assign?
    then [Assigned(frame.payload.assignment.taskId, frame.payload.assignment.serial)]
    else if frame.topic == OnControl && frame.payload.TaskPullResponse? && frame.payload.tasks != []
    then [Assigned(frame.payload.tasks[0].taskId, frame.payload.tasks[0].serial)]
    else if frame.topic == OnControl && frame.payload.TaskCancel?
    then [CancelSent(frame.payload.taskId, frame.payload.serial)]
    else []
  }

  function ReplyOf(frame: Frame<Topic>): seq<Reply> {
    if !frame.Publish? then []
    else if frame.topic == OnAck && frame.payload.TaskAck? then [Acked(frame.payload.taskId, frame.payload.serial)]
    else if frame.topic == OnResult && frame.payload.TaskResult? then [Returned(frame.payload.taskId, frame.payload.serial)]
    else []
  }

  function Marks(frames: seq<Frame<Topic>>): seq<Mark> {
    if frames == [] then [] else MarkOf(frames[0]) + Marks(frames[1..])
  }

  function Replies(frames: seq<Frame<Topic>>): seq<Reply> {
    if frames == [] then [] else ReplyOf(frames[0]) + Replies(frames[1..])
  }

  lemma {:induction false} MarksAppend(a: seq<Frame<Topic>>, b: seq<Frame<Topic>>)
    ensures Marks(a + b) == Marks(a) + Marks(b)
  {
    hide MarkOf;
    if a == [] { assert a + b == b; }
    else {
      MarksAppend(a[1..], b);
      assert (a + b)[0] == a[0] && (a + b)[1..] == a[1..] + b;
      assert Marks(a + b) == MarkOf(a[0]) + (Marks(a[1..]) + Marks(b));
    }
  }

  lemma {:induction false} RepliesAppend(a: seq<Frame<Topic>>, b: seq<Frame<Topic>>)
    ensures Replies(a + b) == Replies(a) + Replies(b)
  {
    hide ReplyOf;
    if a == [] { assert a + b == b; }
    else {
      RepliesAppend(a[1..], b);
      assert (a + b)[0] == a[0] && (a + b)[1..] == a[1..] + b;
      assert Replies(a + b) == ReplyOf(a[0]) + (Replies(a[1..]) + Replies(b));
    }
  }

  // ----- where the token is

  datatype Token = Token(taskId: nat, serial: nat)

  /** The dispatch the session has published and waits for, and whether it has sent its cancel. */
  datatype Carried = Nothing | Carries(token: Token, canceled: bool)

  function CarriedBy(s: Session): Carried {
    if s.pc.Assigning? then Carries(Token(s.pc.task.taskId, s.pc.serial), false)
    else if s.slot.Some? then Carries(Token(s.slot.value.taskId, s.slot.value.serial), s.slot.value.cancelRequested)
    else Nothing
  }

  function RunningToken(client: ClientPhase): Option<Token> {
    if client.Looping? && client.running.Some?
    then Some(Token(client.running.value.taskId, client.running.value.serial)) else None
  }

  /** The cancel that belongs behind the assignment of `token`. */
  function OwnCancel(token: Token, canceled: bool): seq<Mark> {
    if canceled then [CancelSent(token.taskId, token.serial)] else []
  }

  /** At most one cancel, left over from an earlier dispatch. */
  predicate StaleCancel(marks: seq<Mark>) {
    marks == [] || (|marks| == 1 && marks[0].CancelSent?)
  }

  /** The assignment is still on its way: behind at most one stale cancel, before its own. */
  predicate OnItsWay(token: Token, canceled: bool, marks: seq<Mark>) {
    var rest := [Assigned(token.taskId, token.serial)] + OwnCancel(token, canceled);
    marks == rest || (|marks| > 0 && marks[0].CancelSent? && marks[1..] == rest)
  }

  predicate OnlyOwnCancel(token: Token, canceled: bool, marks: seq<Mark>) {
    marks == [] || marks == OwnCancel(token, canceled)
  }

  predicate MaybeAck(token: Token, replies: seq<Reply>) {
    replies == [] || replies == [Acked(token.taskId, token.serial)]
  }

  predicate OnItsWayBack(token: Token, replies: seq<Reply>) {
    var returned := Returned(token.taskId, token.serial);
    replies == [returned] || replies == [Acked(token.taskId, token.serial), returned]
  }

  predicate TokenOk(carried: Carried, running: Option<Token>, marks: seq<Mark>, replies: seq<Reply>) {
    match carried
    case Nothing => running.None? && replies == [] && StaleCancel(marks)
    case Carries(token, canceled) =>
      || (running.None? && replies == [] && OnItsWay(token, canceled, marks))
      || (running == Some(token) && MaybeAck(token, replies) && OnlyOwnCancel(token, canceled, marks))
      || (running.None? && OnItsWayBack(token, replies) && OnlyOwnCancel(token, canceled, marks))
  }

  /** After the client has left, at most what it had already sent is still to come. */
  predicate OrphanOk(carried: Carried, replies: seq<Reply>) {
    match carried
    case Nothing => replies == []
    case Carries(token, _) => MaybeAck(token, replies) || OnItsWayBack(token, replies)
  }

  predicate LinkTokens(link: Link) {
    !link.session.pc.Closing? ==>
      var carried, replies := CarriedBy(link.session), Replies(link.toServer);
      if link.client.Gone? then OrphanOk(carried, replies)
      else TokenOk(carried, RunningToken(link.client), Marks(link.toClient), replies)
  }

  /** Every stored result came from the dispatch that was open. */
  predicate LogFresh(log: seq<Completion>) {
    forall k | 0 <= k < |log| :: log[k].serial == log[k].open
  }

  ghost predicate TokensOk(sys: System) {
    (forall node | node in sys.links :: LinkTokens(sys.links[node])) && LogFresh(sys.log)
  }

  // ----- what each session step does to tokens

  predicate Move(c: Carried, c': Carried, sent: seq<Mark>) {
    || (c' == c && sent == [])
    || (c.Nothing? && c'.Carries? && !c'.canceled && sent == [Assigned(c'.token.taskId, c'.token.serial)])
    || (c.Carries? && !c.canceled && c' == Carries(c.token, true) && sent == [CancelSent(c.token.taskId, c.token.serial)])
  }

  lemma AdvanceMoves(node: string, st: Store, s: Session, now: U64)
    requires InHandler(s) && ShapeOk(s)
    ensures var e := Advance(node, st, s, now); Move(CarriedBy(s), CarriedBy(e.session), Marks(e.sent))
  {
    hide ClaimTask, RegisterNode;
    var e := Advance(node, st, s, now);
    if |e.sent| > 0 { MarksOfTwo(e.sent); }
  }

  lemma MarksOfTwo(frames: seq<Frame<Topic>>)
    requires 1 <= |frames| <= 2
    ensures Marks(frames) == MarkOf(frames[0]) + if |frames| == 2 then MarkOf(frames[1]) else []
  {
    if |frames| == 2 { assert Marks(frames[1..][1..]) == []; }
  }

  lemma RepliesOfTwo(frames: seq<Frame<Topic>>)
    requires 1 <= |frames| <= 2
    ensures Replies(frames) == ReplyOf(frames[0]) + if |frames| == 2 then ReplyOf(frames[1]) else []
  {
    if |frames| == 2 { assert Replies(frames[1..][1..]) == []; }
  }

  lemma HeartbeatMoves(node: string, st: Store, s: Session, now: U64)
    requires s.pc.Select?
    ensures var e := HeartbeatTick(node, st, s, now);
            CarriedBy(e.session) == CarriedBy(s) && Marks(e.sent) == []
  {
    hide RetryTask;
    var e := HeartbeatTick(node, st, s, now);
    if |e.sent| > 0 { MarksOfTwo(e.sent); }
  }

  lemma SignalMoves(s: Session, signal: Signal)
    requires s.pc.Select? && ShapeOk(s)
    ensures var (s', sent) := TakeSignal(s, signal); Move(CarriedBy(s), CarriedBy(s'), Marks(sent))
  {
    var (s', sent) := TakeSignal(s, signal);
    if |sent| > 0 { MarksOfTwo(sent); }
  }

  predicate Silent(s: Session, e: Effect) {
    CarriedBy(e.session) == CarriedBy(s) && |e.sent| <= 1 && forall f | f in e.sent :: MarkOf(f) == []
  }

  lemma ControlMoves(node: string, st: Store, s: Session, payload: Payload, now: U64)
    requires s.pc.Select?
    ensures Silent(s, ReceiveControl(node, st, s, payload, now))
  {
    hide ClaimTask;
  }

  lemma HelloMoves(node: string, st: Store, s: Session, payload: Payload, now: U64)
    requires s.pc.Select?
    ensures Silent(s, ReceiveHello(node, st, s, payload, now))
  {
    hide RequeueIncompleteTasks, UpdateNodeCommands, CatalogFromPb;
  }

  lemma AckMoves(node: string, st: Store, s: Session, payload: Payload, now: U64)
    requires s.pc.Select?
    ensures Silent(s, ReceiveAck(node, st, s, payload, now))
  {
    hide AcknowledgeTask;
  }

  predicate EndsDispatch(s: Session, frame: Frame<Topic>) {
    s.slot.Some? && ReplyOf(frame) != [] && ReplyOf(frame)[0].Returned? && ReplyOf(frame)[0].taskId == s.slot.value.taskId
  }

  lemma ResultMoves(node: string, st: Store, s: Session, payload: Payload, now: U64)
    requires s.pc.Select?
    ensures var e := ReceiveResult(node, st, s, payload, now);
            if EndsDispatch(s, Publish(OnResult, payload)) then CarriedBy(e.session).Nothing? && e.sent == [] else Silent(s, e)
  {
    hide SubmitTaskResult;
  }

  /** Only the awaited result ends a dispatch, and no frame makes the server publish an assignment
      or a cancel in the same step. */
  lemma ReceiveMoves(node: string, st: Store, s: Session, frame: Frame<Topic>, now: U64)
    requires s.pc.Select?
    ensures var e := Receive(node, st, s, frame, now);
            && Marks(e.sent) == []
            && CarriedBy(e.session) == if EndsDispatch(s, frame) then Nothing else CarriedBy(s)
  {
    hide ReceiveControl, ReceiveHello, ReceiveAck, ReceiveResult;
    var e := Receive(node, st, s, frame, now);
    if frame.Publish? {
      ControlMoves(node, st, s, frame.payload, now);
      HelloMoves(node, st, s, frame.payload, now);
      AckMoves(node, st, s, frame.payload, now);
      ResultMoves(node, st, s, frame.payload, now);
    }
    if |e.sent| > 0 { MarksOfTwo(e.sent); }
  }

  lemma MoveKeeps(c: Carried, c': Carried, sent: seq<Mark>, running: Option<Token>, marks: seq<Mark>, replies: seq<Reply>)
    requires Move(c, c', sent) && TokenOk(c, running, marks, replies)
    ensures TokenOk(c', running, marks + sent, replies)
  {
    assert marks + [] == marks;
    if c.Nothing? && c' != c && marks != [] {
      assert (marks + sent)[1..] == sent;
    }
    if c.Carries? && c' != c && marks != [] {
      assert (marks + sent)[1..] == marks[1..] + sent;
      assert [Assigned(c.token.taskId, c.token.serial)] + [] + sent
          == [Assigned(c.token.taskId, c.token.serial)] + sent;
    }
  }

  // ----- what each client step does to tokens

  /** An assignment reaches a client that runs nothing: it starts, or fails to, which is a result at once. */
  lemma AssignmentKeeps(config: ClientConfig, running: Option<RunningTask>, task: TaskAssignment,
                        marks: seq<Mark>, replies: seq<Reply>, carried: Carried,
                        spawnError: Option<string>, elapsedMs: U64)
    requires marks != [] && marks[0] == Assigned(task.taskId, task.serial)
    requires TokenOk(carried, RunningToken(Looping(running)), marks, replies)
    ensures running.None?
    ensures var e := StartAssignment(config, running, task, spawnError, elapsedMs);
            TokenOk(carried, RunningToken(Looping(e.running)), marks[1..], replies + Replies(e.sent))
  {
    hide StartCommand;
    var e := StartAssignment(config, running, task, spawnError, elapsedMs);
    assert carried.Carries? && OnItsWay(carried.token, carried.canceled, marks);
    assert marks[1..] == OwnCancel(carried.token, carried.canceled);
    assert running.None? && replies == [];
    RepliesOfTwo(e.sent);
  }

  /** A cancel that the client reads changes no token; if something runs, it is what the cancel is for. */
  lemma CancelKeeps(running: Option<RunningTask>, taskId: nat, serial: nat, reason: Option<string>,
                    marks: seq<Mark>, replies: seq<Reply>, carried: Carried)
    requires marks != [] && marks[0] == CancelSent(taskId, serial)
    requires TokenOk(carried, RunningToken(Looping(running)), marks, replies)
    ensures TokenOk(carried, RunningToken(Looping(HandleCancel(running, taskId, reason))), marks[1..], replies)
    ensures running.Some? ==> running.value.taskId == taskId && running.value.serial == serial
  {
    assert RunningToken(Looping(HandleCancel(running, taskId, reason))) == RunningToken(Looping(running));
    if |marks| == 1 { assert marks[1..] == []; }
  }

  /** A frame starts a task, cancels one, or is answered with nothing that counts. */
  lemma FrameMeaning(config: ClientConfig, running: Option<RunningTask>, frame: Frame<Topic>,
                     spawnError: Option<string>, elapsedMs: U64)
    ensures |MarkOf(frame)| <= 1
    ensures var e := ClientReceive(config, running, frame, spawnError, elapsedMs);
            if MarkOf(frame) == [] then e.running == running && Replies(e.sent) == []
            else if MarkOf(frame)[0].CancelSent? then
              e == ClientEffect(HandleCancel(running, frame.payload.taskId, frame.payload.reason), [])
            else
              exists task: TaskAssignment :: MarkOf(frame) == [Assigned(task.taskId, task.serial)]
                             && e == StartAssignment(config, running, task, spawnError, elapsedMs)
  {
    hide StartAssignment, HandleCancel, Replies;
    var e := ClientReceive(config, running, frame, spawnError, elapsedMs);
    if MarkOf(frame) == [] {
      if |e.sent| > 0 { RepliesOfTwo(e.sent); } else { NoReplies(); }
    }
  }

  lemma NoReplies()
    ensures Replies([]) == [] && Marks([]) == []
  {
  }

  lemma ClientReceiveKeeps(config: ClientConfig, running: Option<RunningTask>, frames: seq<Frame<Topic>>,
                           replies: seq<Reply>, carried: Carried, spawnError: Option<string>, elapsedMs: U64)
    requires frames != [] && TokenOk(carried, RunningToken(Looping(running)), Marks(frames), replies)
    ensures var e := ClientReceive(config, running, frames[0], spawnError, elapsedMs);
            TokenOk(carried, RunningToken(Looping(e.running)), Marks(frames[1..]), replies + Replies(e.sent))
  {
    var frame, marks := frames[0], Marks(frames);
    assert marks == MarkOf(frame) + Marks(frames[1..]);
    hide StartAssignment, HandleCancel, TokenOk, Replies, Marks, MarkOf, ClientReceive, RunningToken;
    assert replies + [] == replies;
    NoReplies();
    FrameMeaning(config, running, frame, spawnError, elapsedMs);
    if MarkOf(frame) == [] {
      assert marks == Marks(frames[1..]);
    } else {
      assert marks[0] == MarkOf(frame)[0] && Marks(frames[1..]) == marks[1..];
      if marks[0].CancelSent? {
        CancelFrame(frame);
        CancelKeeps(running, marks[0].taskId, marks[0].serial, frame.payload.reason, marks, replies, carried);
      } else {
        var task: TaskAssignment :| MarkOf(frame) == [Assigned(task.taskId, task.serial)]
                    && ClientReceive(config, running, frame, spawnError, elapsedMs)
                       == StartAssignment(config, running, task, spawnError, elapsedMs);
        AssignmentKeeps(config, running, task, marks, replies, carried, spawnError, elapsedMs);
      }
    }
  }

  lemma CancelFrame(frame: Frame<Topic>)
    requires MarkOf(frame) != [] && MarkOf(frame)[0].CancelSent?
    ensures frame.Publish? && frame.payload.TaskCancel? && frame.payload.taskId == MarkOf(frame)[0].taskId
  {
  }

  lemma ReportKeeps(config: ClientConfig, running: RunningTask, durationMs: U64,
                    carried: Carried, marks: seq<Mark>, replies: seq<Reply>)
    requires running.exited.Some? && TokenOk(carried, RunningToken(Looping(Some(running))), marks, replies)
    ensures TokenOk(carried, None, marks, replies + Replies(ProgressTick(config, running, durationMs)))
  {
    RepliesOfTwo(ProgressTick(config, running, durationMs));
  }

  // ----- system steps

  ghost predicate FullInv(sys: System) {
    Inv(sys) && TokensOk(sys)
  }

  /** A session step that moves the token and sends nothing else of note keeps the link's tokens. */
  lemma MoveKeepsLink(link: Link, s': Session, sent: seq<Frame<Topic>>, signals': seq<Signal>)
    requires LinkTokens(link) && !link.session.pc.Closing? && !s'.pc.Closing?
    requires Move(CarriedBy(link.session), CarriedBy(s'), Marks(sent))
    ensures LinkTokens(link.(session := s', signals := signals', toClient := link.toClient + sent))
  {
    hide Move, TokenOk, CarriedBy;
    MarksAppend(link.toClient, sent);
    var c, c', replies := CarriedBy(link.session), CarriedBy(s'), Replies(link.toServer);
    if link.client.Gone? {
      OrphanMoves(c, c', Marks(sent), replies);
    } else {
      MoveKeeps(c, c', Marks(sent), RunningToken(link.client), Marks(link.toClient), replies);
    }
  }

  lemma OrphanMoves(c: Carried, c': Carried, sent: seq<Mark>, replies: seq<Reply>)
    requires Move(c, c', sent) && OrphanOk(c, replies)
    ensures OrphanOk(c', replies)
  {
  }

  /** The head of the channel to the server, while the session waits in its `select!`. */
  lemma HeadReply(link: Link)
    requires LinkTokens(link) && link.toServer != [] && link.session.pc.Select?
    ensures var frame := link.toServer[0];
            ReplyOf(frame) != [] ==>
              var slot := link.session.slot;
              && slot.Some?
              && ReplyOf(frame)[0].taskId == slot.value.taskId && ReplyOf(frame)[0].serial == slot.value.serial
              && (ReplyOf(frame)[0].Returned? ==> Replies(link.toServer[1..]) == [])
  {
    var frame, replies := link.toServer[0], Replies(link.toServer);
    assert replies == ReplyOf(frame) + Replies(link.toServer[1..]);
    if ReplyOf(frame) != [] {
      assert replies[0] == ReplyOf(frame)[0] && replies[1..] == Replies(link.toServer[1..]);
      assert CarriedBy(link.session).Carries?;
    }
  }

  lemma ReceiveKeepsLink(node: string, st: Store, link: Link, now: U64)
    requires LinkTokens(link) && link.toServer != [] && link.session.pc.Select?
    ensures var e := Receive(node, st, link.session, link.toServer[0], now);
            LinkTokens(link.(session := e.session, toClient := link.toClient + e.sent, toServer := link.toServer[1..]))
  {
    hide Receive, ReplyOf, MarkOf;
    var frame := link.toServer[0];
    var e := Receive(node, st, link.session, frame, now);
    var replies := Replies(link.toServer);
    assert replies == ReplyOf(frame) + Replies(link.toServer[1..]);
    ReceiveMoves(node, st, link.session, frame, now);
    MarksAppend(link.toClient, e.sent);
    assert Marks(link.toClient) + [] == Marks(link.toClient);
    HeadReply(link);
    if ReplyOf(frame) == [] {
      assert replies == Replies(link.toServer[1..]);
    } else {
      assert |ReplyOf(frame)| == 1 by { ReplyLength(frame); }
      assert replies[1..] == Replies(link.toServer[1..]);
    }
  }

  lemma ReplyLength(frame: Frame<Topic>)
    ensures |ReplyOf(frame)| <= 1
  {
  }

  /** A result that completes a row carries the serial of the dispatch open in that row. */
  lemma CompletionFresh(node: string, st: Store, link: Link, now: U64, notices: multiset<Notice>)
    requires LinkTokens(link) && link.toServer != [] && link.session.pc.Select?
    requires SessionOk(st, node, link.session, link.signals, notices)
    ensures var frame := link.toServer[0];
            LogFresh(Completed1(node, st, Receive(node, st, link.session, frame, now).store, frame))
  {
    hide SubmitTaskResult, LinkTokens;
    var frame, s := link.toServer[0], link.session;
    var st' := Receive(node, st, s, frame, now).store;
    if Completed1(node, st, st', frame) != [] {
      HeadReply(link);
      if frame.topic != OnResult {
        Safety.NoCompletion(st, node, s, frame.topic, frame.payload, now);
      }
      SubmitNeedsActive(st, frame.payload.taskId, node, frame.payload.result, now);
    }
  }

  lemma SubmitNeedsActive(st: Store, id: nat, node: string, result: ExecutionResult, now: U64)
    ensures !ActiveAt(st, node, id) ==> SubmitTaskResult(st, id, node, result, now).0 == st
  {
  }

  lemma SessionStepTokens(sys: System, step: Step)
    requires FullInv(sys) && Enabled(sys, step)
    requires SessionStep(step)
    ensures LinkTokens(Apply(sys, step).links[step.node]) && LogFresh(Apply(sys, step).log)
  {
    hide Receive, Advance, HeartbeatTick, TakeSignal, Completed1, LinkTokens, StoreOk, Fifo, LogOk, NoticesOk, LogFresh,
         HeldOk, ActiveOk, CancelOk, WakeOk, SignalsOk, ShapeOk;
    var link := sys.links[step.node];
    var s, st := link.session, sys.store;
    assert LinkTokens(link) && SessionOk(st, step.node, s, link.signals, sys.notices);
    assert ShapeOk(s);
    match step
    case ServerHeartbeat(node, now) =>
      HeartbeatMoves(node, st, s, now);
      MoveKeepsLink(link, HeartbeatTick(node, st, s, now).session, HeartbeatTick(node, st, s, now).sent, link.signals) by {
        assert !HeartbeatTick(node, st, s, now).session.pc.Closing? by { NeverCloses(node, st, s, now, TryDispatch); }
      }
    case ServerAdvances(node, now) =>
      AdvanceMoves(node, st, s, now);
      NeverCloses(node, st, s, now, TryDispatch);
      MoveKeepsLink(link, Advance(node, st, s, now).session, Advance(node, st, s, now).sent, link.signals);
    case ServerSignaled(node) =>
      SignalMoves(s, link.signals[0]);
      NeverCloses(node, st, s, 0, link.signals[0]);
      MoveKeepsLink(link, TakeSignal(s, link.signals[0]).0, TakeSignal(s, link.signals[0]).1, link.signals[1..]);
    case ServerReceives(node, now) =>
      ReceiveKeepsLink(node, st, link, now);
      CompletionFresh(node, st, link, now, sys.notices);
      FreshAppend(sys.log, Completed1(node, st, Receive(node, st, s, link.toServer[0], now).store, link.toServer[0]));
  }

  lemma FreshAppend(a: seq<Completion>, b: seq<Completion>)
    requires LogFresh(a) && LogFresh(b)
    ensures LogFresh(a + b)
  {
  }

  lemma NeverCloses(node: string, st: Store, s: Session, now: U64, signal: Signal)
    requires !s.pc.Closing?
    ensures !HeartbeatTick(node, st, s, now).session.pc.Closing? && !TakeSignal(s, signal).0.pc.Closing?
    ensures InHandler(s) ==> !Advance(node, st, s, now).session.pc.Closing?
  {
  }

  lemma ClientStepTokens(sys: System, step: Step)
    requires FullInv(sys) && Enabled(sys, step)
    requires ClientStep(step)
    ensures LinkTokens(Apply(sys, step).links[step.node])
  {
    hide Inv, LogFresh, ClientReceive, ProgressTick, Marks;
    var link := sys.links[step.node];
    var replies := Replies(link.toServer);
    assert LinkTokens(link) && replies + [] == replies;
    match step
    case ClientLeaves(_) =>
    case ClientHeartbeat(_, now) =>
      RepliesAppend(link.toServer, [PingReq(now)]);
    case ClientGreets(_) =>
      var frame := Greeting(link.config, link.client.sent);
      assert ReplyOf(frame) == [];
      RepliesAppend(link.toServer, [frame]);
    case ClientReceives(_, spawnError, elapsedMs) =>
      var e := ClientReceive(link.config, link.client.running, link.toClient[0], spawnError, elapsedMs);
      RepliesAppend(link.toServer, e.sent);
      if !link.session.pc.Closing? {
        ClientReceiveKeeps(link.config, link.client.running, link.toClient, replies, CarriedBy(link.session), spawnError, elapsedMs);
      }
    case ProcessExits(_, _) =>
    case ClientReports(_, durationMs) =>
      RepliesAppend(link.toServer, ProgressTick(link.config, link.client.running.value, durationMs));
      if !link.session.pc.Closing? {
        ReportKeeps(link.config, link.client.running.value, durationMs, CarriedBy(link.session), Marks(link.toClient), replies);
      }
  }

  /** With the repository's client, every step keeps the tokens as well. */
  lemma StepKeepsFull(sys: System, step: Step)
    requires FullInv(sys) && Enabled(sys, step) && !step.Forge?
    ensures FullInv(Apply(sys, step))
  {
    hide Inv, LogFresh, LinkTokens, Apply, Enabled;
    Safety.StepKeepsInv(sys, step);
    var sys' := Apply(sys, step);
    if SessionStep(step) { SessionStepTokens(sys, step); }
    if ClientStep(step) { ClientStepTokens(sys, step); }
    forall node | node in sys'.links ensures LinkTokens(sys'.links[node]) {
      if !OwnStep(step, node) { OtherLinkTokens(sys, step, node); }
    }
    if !step.ServerReceives? { LogKept(sys, step); }
  }

  lemma OtherLinkTokens(sys: System, step: Step, node: string)
    requires Enabled(sys, step) && node in Apply(sys, step).links && !OwnStep(step, node)
    requires node in sys.links ==> LinkTokens(sys.links[node])
    ensures LinkTokens(Apply(sys, step).links[node])
  {
    hide LinkTokens, Apply, Enabled;
    OtherLinks(sys, step, node);
    var link' := Apply(sys, step).links[node];
    if step.Open? && step.node == node { FreshLink(step.config); }
    else if link'.session.pc.Closing? { ClosingTokens(link'); }
    else { SignalsAreNoTokens(sys.links[node], link'.signals); }
  }

  lemma FreshLink(config: ClientConfig)
    ensures LinkTokens(Link(OPENED, [], [], [], config, Greets(0)))
  {
  }

  lemma ClosingTokens(link: Link)
    requires link.session.pc.Closing?
    ensures LinkTokens(link)
  {
  }

  lemma SignalsAreNoTokens(link: Link, signals: seq<Signal>)
    requires LinkTokens(link)
    ensures LinkTokens(link.(signals := signals))
  {
  }

  lemma {:induction false} TraceKeepsFull(sys: System, steps: seq<Step>, sys': System)
    requires FullInv(sys) && Trace(sys, steps, sys') && NoForgery(steps)
    ensures FullInv(sys')
    decreases |steps|
  {
    if steps != [] {
      StepKeepsFull(sys, steps[0]);
      TraceKeepsFull(Apply(sys, steps[0]), steps[1..], sys');
    }
  }
}
