/** Without timeouts, new tasks, disconnects or crashes for a node, its protocol runs out of steps
    other than heartbeats, and when it has, every one of its tasks is over. */
module Drain {
  import opened Prelude
  import opened Topics
  import opened Tasks
  import opened Store
  import opened Messages
  import opened ServerSession
  import opened ClientSession
  import opened Protocol
  import opened Invariant
  import opened Tokens
  import opened Handshake
  import Isolation
  import Safety

  // ----- the measure

  /** A task that has to be claimed (again) weighs most; a canceled one weighs what is left of
      telling the session. */
  function RowWeight(node: string, id: nat, row: TaskRow, registered: bool, notices: multiset<Notice>): nat {
    if row.status.Queued? then 18
    else if Active(row) then if registered then 4 else 18
    else if row.status.Canceled? then 3 * notices[NotifyCancel(node, id, row.cancelReason)]
    else 0
  }

  function TaskWeight(st: Store, node: string, id: nat, registered: bool, notices: multiset<Notice>): nat {
    if Owned(st, node, id) then RowWeight(node, id, st.tasks[id], registered, notices) else 0
  }

  function RowSum(st: Store, node: string, registered: bool, notices: multiset<Notice>, k: nat): nat {
    if k == 0 then 0 else RowSum(st, node, registered, notices, k - 1) + TaskWeight(st, node, k - 1, registered, notices)
  }

  /** The rows weigh no more than before, and row `id` at least `drop` less. */
  lemma {:induction false} RowSumDrops(st: Store, st': Store, node: string, reg: bool, reg': bool,
                                       notices: multiset<Notice>, notices': multiset<Notice>, k: nat, id: nat, drop: nat)
    requires forall i: nat | i < k :: TaskWeight(st', node, i, reg', notices') <= TaskWeight(st, node, i, reg, notices)
    requires id < k ==> TaskWeight(st', node, id, reg', notices') + drop <= TaskWeight(st, node, id, reg, notices)
    ensures RowSum(st', node, reg', notices', k) + (if id < k then drop else 0) <= RowSum(st, node, reg, notices, k)
  {
    if k > 0 { RowSumDrops(st, st', node, reg, reg', notices, notices', k - 1, id, drop); }
  }

  function Total(frames: seq<Frame<Topic>>, weight: Frame<Topic> -> nat): nat {
    if frames == [] then 0 else weight(frames[0]) + Total(frames[1..], weight)
  }

  lemma {:induction false} TotalAppend(a: seq<Frame<Topic>>, b: seq<Frame<Topic>>, weight: Frame<Topic> -> nat)
    ensures Total(a + b, weight) == Total(a, weight) + Total(b, weight)
  {
    if a == [] { assert a + b == b; }
    else {
      TotalAppend(a[1..], b, weight);
      assert (a + b)[1..] == a[1..] + b;
    }
  }

  lemma TotalOfTwo(frames: seq<Frame<Topic>>, weight: Frame<Topic> -> nat)
    requires |frames| <= 2
    ensures Total(frames, weight) == (if |frames| >= 1 then weight(frames[0]) else 0) + (if |frames| == 2 then weight(frames[1]) else 0)
  {
    if |frames| == 2 { assert Total(frames[1..][1..], weight) == 0; }
  }

  function DownWeight(): Frame<Topic> -> nat {
    (f: Frame<Topic>) => if MarkOf(f) != [] && MarkOf(f)[0].Assigned? then 11 else if f.PingReq? then 2 else 1
  }

  function UpWeight(): Frame<Topic> -> nat {
    (f: Frame<Topic>) =>
      match f
      case Subscribe(_) => 4
      case Publish(topic, _) => if topic == OnHello || topic == OnResult then 3 else 2
      case PingReq(_) => 2
      case _ => 1
  }

  function PcWeight(pc: Pc): nat {
    match pc
    case Select => 0
    case Dispatching => 1
    case Registering(_) => 2
    case Publishing(_, _, _, _) => 13
    case Assigning(_, _, _) => 1
    case Expired => 4
    case Closing => 0
  }

  function ClientWeight(client: ClientPhase): nat {
    match client
    case Greets(k) => if k == 0 then 16 else if k == 1 then 11 else if k == 2 then 7 else 3
    case Looping(running) => if running.None? then 0 else if running.value.exited.None? then 8 else 7
    case Gone => 0
  }

  function LinkWeight(link: Link): nat {
    PcWeight(link.session.pc) + 2 * |link.signals| + ClientWeight(link.client)
    + Total(link.toClient, DownWeight()) + Total(link.toServer, UpWeight())
  }

  function Measure(sys: System, node: string): nat
    requires node in sys.links
  {
    RowSum(sys.store, node, sys.links[node].session.registered, sys.notices, sys.store.nextId)
    + 3 * sys.notices[NotifyNode(node)] + LinkWeight(sys.links[node])
  }

  // ----- session steps

  /** What the tables, the program counter and the sent frames weigh after a step. */
  function EffectWeight(e: Effect, node: string, notices: multiset<Notice>, k: nat): nat {
    RowSum(e.store, node, e.session.registered, notices, k) + PcWeight(e.session.pc) + Total(e.sent, DownWeight())
  }

  lemma SameSum(st: Store, st': Store, node: string, reg: bool, notices: multiset<Notice>, k: nat)
    requires forall i: nat | i < k :: TaskWeight(st', node, i, reg, notices) <= TaskWeight(st, node, i, reg, notices)
    ensures RowSum(st', node, reg, notices, k) <= RowSum(st, node, reg, notices, k)
  {
    RowSumDrops(st, st', node, reg, reg, notices, notices, k, k, 0);
  }

  lemma IdInRange(st: Store, id: nat)
    requires StoreOk(st) && id in st.tasks
    ensures id < st.nextId
  {
  }

  lemma ClaimingDrops(node: string, st: Store, s: Session, pushed: bool, now: U64, notices: multiset<Notice>)
    requires StoreOk(st) && s.registered
    ensures var e := Claiming(node, st, s, pushed, now);
            EffectWeight(e, node, notices, st.nextId) <= RowSum(st, node, true, notices, st.nextId) + (if pushed then 0 else 1)
  {
    hide ClaimTask, StoreOk;
    Safety.ClaimOutcomes(st, node, now);
    var e := Claiming(node, st, s, pushed, now);
    TotalOfTwo(e.sent, DownWeight());
    if e.session.pc.Publishing? {
      var id := e.session.pc.task.taskId;
      IdInRange(st, id);
      RowSumDrops(st, e.store, node, true, true, notices, notices, st.nextId, id, 14);
    } else {
      SameSum(st, e.store, node, true, notices, st.nextId);
    }
  }

  lemma AdvanceDrops(node: string, st: Store, s: Session, now: U64, notices: multiset<Notice>)
    requires InHandler(s) && StoreOk(st) && (!s.registered ==> s.pc.Registering? || s.pc.Dispatching?)
    ensures var e := Advance(node, st, s, now);
            EffectWeight(e, node, notices, st.nextId) < RowSum(st, node, s.registered, notices, st.nextId) + PcWeight(s.pc)
  {
    hide Claiming, StoreOk, RegisterNode, RowSum;
    var e := Advance(node, st, s, now);
    match s.pc
    case Registering(reg) =>
      Safety.RegisterTasks(st, reg, now);
      RowSumDrops(st, e.store, node, s.registered, true, notices, notices, st.nextId, st.nextId, 0);
    case Dispatching =>
      if Ready(s) { ClaimingDrops(node, st, s, true, now, notices); }
    case _ => TotalOfTwo(e.sent, DownWeight());
  }

  /** Before registration an active task weighs as much as the queued one it will be turned into. */
  lemma RequeueWeighsNothing(node: string, st: Store, notices: multiset<Notice>, reason: string)
    ensures RowSum(RequeueIncompleteTasks(st, node, reason), node, false, notices, st.nextId)
         <= RowSum(st, node, false, notices, st.nextId)
  {
    SameSum(st, RequeueIncompleteTasks(st, node, reason), node, false, notices, st.nextId);
  }

  lemma HelloDrops(node: string, st: Store, s: Session, payload: Payload, now: U64, notices: multiset<Notice>)
    requires s.pc.Select? && (IsHello(node)(Publish(OnHello, payload)) ==> !s.registered)
    ensures var e := ReceiveHello(node, st, s, payload, now);
            EffectWeight(e, node, notices, st.nextId) < RowSum(st, node, s.registered, notices, st.nextId) + 3
  {
    hide RowSum, CatalogFromPb, RequeueIncompleteTasks, UpdateNodeCommands;
    var e := ReceiveHello(node, st, s, payload, now);
    TotalOfTwo(e.sent, DownWeight());
    if payload.ClientHello? && payload.nodeId == node {
      RequeueWeighsNothing(node, st, notices, REREGISTERED_REASON);
    } else if payload.CommandCatalog? {
      CommandsWeighNothing(node, st, s.registered, CatalogFromPb(payload.commands), now, notices);
    }
  }

  lemma CommandsWeighNothing(node: string, st: Store, registered: bool, commands: seq<CommandDescriptor>, now: U64,
                             notices: multiset<Notice>)
    ensures RowSum(UpdateNodeCommands(st, node, commands, now).0, node, registered, notices, st.nextId)
         <= RowSum(st, node, registered, notices, st.nextId)
  {
    SameSum(st, UpdateNodeCommands(st, node, commands, now).0, node, registered, notices, st.nextId);
  }

  lemma ControlDrops(node: string, st: Store, s: Session, payload: Payload, now: U64, notices: multiset<Notice>)
    requires s.pc.Select? && StoreOk(st)
    ensures var e := ReceiveControl(node, st, s, payload, now);
            EffectWeight(e, node, notices, st.nextId) < RowSum(st, node, s.registered, notices, st.nextId) + 2
  {
    hide RowSum, Claiming, StoreOk;
    var e := ReceiveControl(node, st, s, payload, now);
    if payload.TaskPullRequest? && s.registered { ClaimingDrops(node, st, s, false, now, notices); }
    if |e.sent| <= 2 { TotalOfTwo(e.sent, DownWeight()); }
  }

  lemma AckDrops(node: string, st: Store, s: Session, payload: Payload, now: U64, notices: multiset<Notice>)
    requires s.pc.Select?
    ensures var e := ReceiveAck(node, st, s, payload, now);
            EffectWeight(e, node, notices, st.nextId) < RowSum(st, node, s.registered, notices, st.nextId) + 2
  {
    hide RowSum, AcknowledgeTask;
    var e := ReceiveAck(node, st, s, payload, now);
    if payload.TaskAck? { AckWeighsNothing(node, st, s.registered, payload.taskId, now, notices); }
    TotalOfTwo(e.sent, DownWeight());
  }

  lemma AckWeighsNothing(node: string, st: Store, registered: bool, id: nat, now: U64, notices: multiset<Notice>)
    ensures RowSum(AcknowledgeTask(st, id, node, now), node, registered, notices, st.nextId)
         <= RowSum(st, node, registered, notices, st.nextId)
  {
    SameSum(st, AcknowledgeTask(st, id, node, now), node, registered, notices, st.nextId);
  }

  lemma ResultDrops(node: string, st: Store, s: Session, payload: Payload, now: U64, notices: multiset<Notice>)
    requires s.pc.Select?
    ensures var e := ReceiveResult(node, st, s, payload, now);
            EffectWeight(e, node, notices, st.nextId) < RowSum(st, node, s.registered, notices, st.nextId) + 3
  {
    hide RowSum, SubmitTaskResult;
    var e := ReceiveResult(node, st, s, payload, now);
    if payload.TaskResult? { SubmitWeighsNothing(node, st, s.registered, payload, now, notices); }
    TotalOfTwo(e.sent, DownWeight());
  }

  lemma SubmitWeighsNothing(node: string, st: Store, registered: bool, payload: Payload, now: U64, notices: multiset<Notice>)
    requires payload.TaskResult?
    ensures RowSum(SubmitTaskResult(st, payload.taskId, node, payload.result, now).0, node, registered, notices, st.nextId)
         <= RowSum(st, node, registered, notices, st.nextId)
  {
    SameSum(st, SubmitTaskResult(st, payload.taskId, node, payload.result, now).0, node, registered, notices, st.nextId);
  }

  lemma ReceiveDrops(node: string, st: Store, s: Session, frame: Frame<Topic>, now: U64, notices: multiset<Notice>)
    requires s.pc.Select? && StoreOk(st) && (IsHello(node)(frame) ==> !s.registered)
    ensures var e := Receive(node, st, s, frame, now);
            EffectWeight(e, node, notices, st.nextId) < RowSum(st, node, s.registered, notices, st.nextId) + UpWeight()(frame)
  {
    hide RowSum, ReceiveHello, ReceiveControl, ReceiveAck, ReceiveResult, StoreOk;
    var e := Receive(node, st, s, frame, now);
    match frame
    case Publish(topic, payload) =>
      if topic == OnHello { HelloDrops(node, st, s, payload, now, notices); }
      if topic == OnControl { ControlDrops(node, st, s, payload, now, notices); }
      if topic == OnAck { AckDrops(node, st, s, payload, now, notices); }
      if topic == OnResult { ResultDrops(node, st, s, payload, now, notices); }
    case _ => TotalOfTwo(e.sent, DownWeight());
  }

  // ----- system steps

  /** Steps of the session, the client and its process, and the notification of a committed request. */
  predicate WorkStep(step: Step) {
    step.ServerReceives? || step.ServerSignaled? || step.ServerAdvances? || step.ClientGreets?
    || step.ClientReceives? || step.ProcessExits? || step.ClientReports? || step.HttpNotify?
  }

  predicate ProtocolStep(step: Step) {
    WorkStep(step) || step.HttpCancel?
  }

  /** The node is connected and neither side has left. */
  predicate Live(sys: System, node: string) {
    Connected(sys, node) && !sys.links[node].client.Gone?
  }

  lemma SessionFacts(sys: System, node: string)
    requires DrainInv(sys) && Connected(sys, node)
    ensures var link := sys.links[node]; var s := link.session;
            && StoreOk(sys.store) && ShapeOk(s) && link.config.nodeId == node
            && (!s.registered ==> s.slot.None? && !JustClaimed(s))
            && (link.session.pc.Select? && link.toServer != [] && IsHello(node)(link.toServer[0]) ==> !s.registered)
  {
    hide StoreOk, Fifo, LogOk, NoticesOk, HeldOk, ActiveOk, CancelOk, WakeOk, SignalsOk, LinkTokens;
    var link := sys.links[node];
    assert SessionOk(sys.store, node, link.session, link.signals, sys.notices);
    assert HandshakeOk(link);
  }

  lemma SessionStepDrops(sys: System, step: Step, node: string)
    requires DrainInv(sys) && Enabled(sys, step) && Live(sys, node) && StepNode(sys, step) == Some(node)
    requires step.ServerReceives? || step.ServerSignaled? || step.ServerAdvances?
    ensures Live(Apply(sys, step), node) && Measure(Apply(sys, step), node) < Measure(sys, node)
  {
    hide DrainInv, Receive, Advance, TakeSignal, RowSum, StoreOk, DownWeight, UpWeight, Completed1, PcWeight, ClientWeight;
    SessionFacts(sys, node);
    var link, st := sys.links[node], sys.store;
    var s := link.session;
    match step
    case ServerReceives(_, now) =>
      var frame := link.toServer[0];
      ReceiveDrops(node, st, s, frame, now, sys.notices);
      ReceiveHandshake(node, st, s, frame, now);
      Isolation.ReceiveKeepsNextId(node, st, s, frame, now);
      TotalAppend(link.toClient, Receive(node, st, s, frame, now).sent, DownWeight());
      assert PcWeight(s.pc) == 0 by { WeightOfSelect(); }
    case ServerAdvances(_, now) =>
      AdvanceDrops(node, st, s, now, sys.notices);
      AdvanceHandshake(node, st, s, now);
      Isolation.AdvanceKeepsNextId(node, st, s, now);
      TotalAppend(link.toClient, Advance(node, st, s, now).sent, DownWeight());
    case ServerSignaled(_) =>
      SignalDrops(s, link.signals[0]);
      TicksHandshake(node, st, s, 0, link.signals[0]);
      TotalAppend(link.toClient, TakeSignal(s, link.signals[0]).1, DownWeight());
  }

  lemma WeightOfSelect()
    ensures PcWeight(Select) == 0
  {
  }

  lemma SignalDrops(s: Session, signal: Signal)
    requires s.pc.Select?
    ensures var (s', sent) := TakeSignal(s, signal); PcWeight(s'.pc) + Total(sent, DownWeight()) <= PcWeight(s.pc) + 1
  {
    TotalOfTwo(TakeSignal(s, signal).1, DownWeight());
  }

  lemma ClientReceiveDrops(config: ClientConfig, running: Option<RunningTask>, frame: Frame<Topic>,
                           spawnError: Option<string>, elapsedMs: U64)
    ensures var e := ClientReceive(config, running, frame, spawnError, elapsedMs);
            ClientWeight(Looping(e.running)) + Total(e.sent, UpWeight()) < ClientWeight(Looping(running)) + DownWeight()(frame)
  {
    hide StartAssignment, HandleCancel;
    if frame.Publish? && frame.payload.Assign? { StartDrops(config, running, frame.payload.assignment, spawnError, elapsedMs); }
    if frame.Publish? && frame.payload.TaskPullResponse? && frame.payload.tasks != [] {
      StartDrops(config, running, frame.payload.tasks[0], spawnError, elapsedMs);
    }
    if frame.Publish? && frame.payload.TaskCancel? {
      assert ClientWeight(Looping(HandleCancel(running, frame.payload.taskId, frame.payload.reason)))
          == ClientWeight(Looping(running)) by { CancelWeighsNothing(running, frame.payload.taskId, frame.payload.reason); }
    }
    if frame.PingReq? { TotalOfTwo([PingResp(frame.unixSecs)], UpWeight()); }
  }

  lemma CancelWeighsNothing(running: Option<RunningTask>, taskId: nat, reason: Option<string>)
    ensures ClientWeight(Looping(HandleCancel(running, taskId, reason))) == ClientWeight(Looping(running))
  {
  }

  lemma StartDrops(config: ClientConfig, running: Option<RunningTask>, task: TaskAssignment,
                   spawnError: Option<string>, elapsedMs: U64)
    ensures var e := StartAssignment(config, running, task, spawnError, elapsedMs);
            ClientWeight(Looping(e.running)) + Total(e.sent, UpWeight()) < ClientWeight(Looping(running)) + 11
  {
    hide StartCommand;
    TotalOfTwo(StartAssignment(config, running, task, spawnError, elapsedMs).sent, UpWeight());
  }

  lemma ClientStepDrops(sys: System, step: Step, node: string)
    requires DrainInv(sys) && Enabled(sys, step) && Live(sys, node) && StepNode(sys, step) == Some(node)
    requires step.ClientGreets? || step.ClientReceives? || step.ProcessExits? || step.ClientReports?
    ensures Live(Apply(sys, step), node) && Measure(Apply(sys, step), node) < Measure(sys, node)
  {
    hide DrainInv, RowSum, ClientReceive, DownWeight, UpWeight, Greeting, ProgressTick, PcWeight;
    var link := sys.links[node];
    match step
    case ClientGreets(_) =>
      TotalAppend(link.toServer, [Greeting(link.config, link.client.sent)], UpWeight());
      GreetingDrops(link.config, link.client.sent);
    case ClientReceives(_, spawnError, elapsedMs) =>
      ClientReceiveDrops(link.config, link.client.running, link.toClient[0], spawnError, elapsedMs);
      TotalAppend(link.toServer,
                  ClientReceive(link.config, link.client.running, link.toClient[0], spawnError, elapsedMs).sent, UpWeight());
    case ProcessExits(_, _) =>
    case ClientReports(_, durationMs) =>
      var sent := ProgressTick(link.config, link.client.running.value, durationMs);
      TotalAppend(link.toServer, sent, UpWeight());
      ReportDrops(link.config, link.client.running.value, durationMs);
  }

  lemma GreetingDrops(config: ClientConfig, k: nat)
    requires k < GREETINGS
    ensures ClientWeight(if k + 1 == GREETINGS then Looping(None) else Greets(k + 1)) + Total([Greeting(config, k)], UpWeight())
          < ClientWeight(Greets(k))
  {
    TotalOfTwo([Greeting(config, k)], UpWeight());
  }

  lemma ReportDrops(config: ClientConfig, running: RunningTask, durationMs: U64)
    requires running.exited.Some?
    ensures Total(ProgressTick(config, running, durationMs), UpWeight()) < 7
  {
    TotalOfTwo(ProgressTick(config, running, durationMs), UpWeight());
  }

  /** A cancel that is accepted: the task weighed at least 4, its notice weighs 3. */
  lemma CancelDrops(sys: System, step: Step, node: string)
    requires DrainInv(sys) && Live(sys, node) && StepNode(sys, step) == Some(node) && step.HttpCancel?
    ensures Live(Apply(sys, step), node) && Measure(Apply(sys, step), node) < Measure(sys, node)
  {
    hide TokensOk, HandshakeOk, Fifo, LogOk, LinksOk, LinkWeight, RowOk;
    var sys' := Apply(sys, step);
    var reg := sys.links[node].session.registered;
    assert NotifyCancel(node, step.id, sys'.store.tasks[step.id].cancelReason) !in sys.notices;
    RowSumDrops(sys.store, sys'.store, node, reg, reg, sys.notices, sys'.notices, sys.store.nextId, step.id, 1);
  }

  lemma NotifyDrops(sys: System, notice: Notice, node: string)
    requires DrainInv(sys) && Live(sys, node) && notice.node == node && notice in sys.notices
    ensures var sys' := Apply(sys, HttpNotify(notice)); Live(sys', node) && Measure(sys', node) < Measure(sys, node)
  {
    hide TokensOk, HandshakeOk, Fifo, LogOk, LinksOk, RowOk, DownWeight, UpWeight, PcWeight, ClientWeight;
    var sys' := Apply(sys, HttpNotify(notice));
    var reg := sys.links[node].session.registered;
    var id := if notice.NotifyCancel? then notice.taskId else sys.store.nextId;
    assert notice.NotifyCancel? ==> id < sys.store.nextId;
    RowSumDrops(sys.store, sys'.store, node, reg, reg, sys.notices, sys'.notices, sys.store.nextId, id, 3);
  }

  /** Every protocol step of a live node strictly decreases its measure. */
  lemma ProtocolStepDrops(sys: System, step: Step, node: string)
    requires DrainInv(sys) && Enabled(sys, step) && Live(sys, node)
    requires StepNode(sys, step) == Some(node) && ProtocolStep(step)
    ensures Live(Apply(sys, step), node) && Measure(Apply(sys, step), node) < Measure(sys, node)
  {
    hide DrainInv, Measure, Apply;
    if step.HttpCancel? { CancelDrops(sys, step, node); }
    else if step.HttpNotify? { NotifyDrops(sys, step.notice, node); }
    else if step.ServerReceives? || step.ServerSignaled? || step.ServerAdvances? { SessionStepDrops(sys, step, node); }
    else { ClientStepDrops(sys, step, node); }
  }

  // ----- steps about other nodes

  lemma StoreOfInv(sys: System)
    requires DrainInv(sys)
    ensures StoreOk(sys.store)
  {
  }

  lemma SumUnchanged(st: Store, st': Store, node: string, reg: bool, notices: multiset<Notice>, notices': multiset<Notice>)
    requires SameRows(st, st', node) && st.nextId <= st'.nextId <= st.nextId + 1
    requires !Owned(st', node, st.nextId)
    requires forall notice: Notice | notice.node == node :: notices'[notice] == notices[notice]
    ensures RowSum(st', node, reg, notices', st'.nextId) <= RowSum(st, node, reg, notices, st.nextId)
  {
    forall i: nat ensures TaskWeight(st', node, i, reg, notices') == TaskWeight(st, node, i, reg, notices) {
      if Owned(st, node, i) || Owned(st', node, i) { assert st.tasks[i] == st'.tasks[i]; }
    }
    RowSumDrops(st, st', node, reg, reg, notices, notices', st.nextId, st.nextId, 0);
  }

  /** Whatever other nodes do, and even their clients leaving or sessions breaking, costs nothing. */
  lemma OtherStepKeeps(sys: System, step: Step, node: string)
    requires DrainInv(sys) && Enabled(sys, step) && !step.Crash? && Live(sys, node) && StepNode(sys, step) != Some(node)
    ensures Live(Apply(sys, step), node) && Measure(Apply(sys, step), node) <= Measure(sys, node)
  {
    hide TokensOk, HandshakeOk, Inv, RowSum, LinkWeight, SameRows, Apply;
    assert StoreOk(sys.store) by { StoreOfInv(sys); }
    Isolation.StepIsolates(sys, step, node);
    var sys' := Apply(sys, step);
    SumUnchanged(sys.store, sys'.store, node, sys.links[node].session.registered, sys.notices, sys'.notices);
  }

  // ----- heartbeats

  /** What the pings of a channel still cost: a ping is read and answered, its answer is read. */
  function PingWeight(): Frame<Topic> -> nat {
    (f: Frame<Topic>) => if f.PingReq? then 2 else if f.PingResp? then 1 else 0
  }

  predicate IsPing(frame: Frame<Topic>) { frame.PingReq? || frame.PingResp? }

  function PingLoad(link: Link): nat {
    Total(link.toClient, PingWeight()) + Total(link.toServer, PingWeight())
  }

  lemma {:induction false} TotalAtMost(frames: seq<Frame<Topic>>, light: Frame<Topic> -> nat, heavy: Frame<Topic> -> nat)
    requires forall f: Frame<Topic> :: light(f) <= heavy(f)
    ensures Total(frames, light) <= Total(frames, heavy)
  {
    if frames != [] { TotalAtMost(frames[1..], light, heavy); }
  }

  lemma PingsWithinLink(link: Link)
    ensures PingLoad(link) <= LinkWeight(link)
  {
    assert forall f :: PingWeight()(f) <= DownWeight()(f) && PingWeight()(f) <= UpWeight()(f) by { PingsWeighLess(); }
    TotalAtMost(link.toClient, PingWeight(), DownWeight());
    TotalAtMost(link.toServer, PingWeight(), UpWeight());
  }

  lemma PingsWeighLess()
    ensures forall f :: PingWeight()(f) <= DownWeight()(f) && PingWeight()(f) <= UpWeight()(f)
  {
  }

  /** The measure without pings: no heartbeat and no answer to one counts. */
  function Work(sys: System, node: string): nat
    requires node in sys.links
  {
    PingsWithinLink(sys.links[node]);
    Measure(sys, node) - PingLoad(sys.links[node])
  }

  predicate Beat(step: Step) { step.ServerHeartbeat? || step.ClientHeartbeat? }

  /** The session's heartbeat finds a task that took too long. */
  predicate TimesOut(sys: System, step: Step) {
    step.ServerHeartbeat? && step.node in sys.links
    && sys.links[step.node].session.slot.Some? && TimedOut(sys.links[step.node].session.slot.value, step.now)
  }

  /** Either end reads a ping or the answer to one. */
  predicate ReadsPing(sys: System, step: Step) {
    || (step.ServerReceives? && step.node in sys.links && sys.links[step.node].toServer != []
        && IsPing(sys.links[step.node].toServer[0]))
    || (step.ClientReceives? && step.node in sys.links && sys.links[step.node].toClient != []
        && IsPing(sys.links[step.node].toClient[0]))
  }

  /** A heartbeat puts one ping on its channel and changes nothing else. */
  lemma BeatSendsPing(sys: System, step: Step, node: string)
    requires Enabled(sys, step) && Live(sys, node) && StepNode(sys, step) == Some(node) && Beat(step) && !TimesOut(sys, step)
    ensures var sys', link := Apply(sys, step), sys.links[node];
            && sys' == sys.(links := sys.links[node := sys'.links[node]])
            && sys'.links[node] == if step.ServerHeartbeat? then link.(toClient := link.toClient + [PingReq(step.now)])
                                   else link.(toServer := link.toServer + [PingReq(step.now)])
  {
    hide RetryTask;
  }

  lemma PingWeights(frame: Frame<Topic>)
    requires IsPing(frame)
    ensures DownWeight()(frame) == UpWeight()(frame) == PingWeight()(frame) == if frame.PingReq? then 2 else 1
    ensures Total([frame], DownWeight()) == Total([frame], UpWeight()) == Total([frame], PingWeight()) == PingWeight()(frame)
    ensures forall weight: Frame<Topic> -> nat :: Total([], weight) == 0
  {
    TotalOfTwo([frame], DownWeight());
    TotalOfTwo([frame], UpWeight());
    TotalOfTwo([frame], PingWeight());
  }

  lemma BeatWeighsNothing(sys: System, step: Step, node: string)
    requires Enabled(sys, step) && Live(sys, node) && StepNode(sys, step) == Some(node) && Beat(step) && !TimesOut(sys, step)
    ensures Live(Apply(sys, step), node) && Work(Apply(sys, step), node) == Work(sys, node)
    ensures Measure(Apply(sys, step), node) == Measure(sys, node) + 2
  {
    hide Apply, Enabled, RowSum, DownWeight, UpWeight, PingWeight, PcWeight, ClientWeight;
    BeatSendsPing(sys, step, node);
    var link, ping := sys.links[node], PingReq(step.now);
    PingWeights(ping);
    TotalAppend(link.toClient, [ping], DownWeight());
    TotalAppend(link.toClient, [ping], PingWeight());
    TotalAppend(link.toServer, [ping], UpWeight());
    TotalAppend(link.toServer, [ping], PingWeight());
  }

  /** Reading a ping takes it off one channel and puts its answer, if it asks for one, on the other. */
  lemma PingIsAnswered(sys: System, step: Step, node: string)
    requires Enabled(sys, step) && Live(sys, node) && StepNode(sys, step) == Some(node) && ReadsPing(sys, step)
    ensures var sys', link := Apply(sys, step), sys.links[node];
            var frame := if step.ServerReceives? then link.toServer[0] else link.toClient[0];
            var answer := if frame.PingReq? then [PingResp(frame.unixSecs)] else [];
            && sys' == sys.(links := sys.links[node := sys'.links[node]])
            && sys'.links[node] == if step.ServerReceives?
                                   then link.(toServer := link.toServer[1..], toClient := link.toClient + answer)
                                   else link.(toClient := link.toClient[1..], toServer := link.toServer + answer)
  {
    assert sys.log + [] == sys.log;
  }

  lemma PingReadWeighsNothing(sys: System, step: Step, node: string)
    requires Enabled(sys, step) && Live(sys, node) && StepNode(sys, step) == Some(node) && ReadsPing(sys, step)
    ensures Live(Apply(sys, step), node) && Work(Apply(sys, step), node) == Work(sys, node)
  {
    hide Apply, Enabled, RowSum, DownWeight, UpWeight, PingWeight, PcWeight, ClientWeight;
    PingIsAnswered(sys, step, node);
    var link := sys.links[node];
    var frame := if step.ServerReceives? then link.toServer[0] else link.toClient[0];
    PingWeights(frame);
    if frame.PingReq? {
      var answer := PingResp(frame.unixSecs);
      PingWeights(answer);
      TotalAppend(link.toClient, [answer], DownWeight());
      TotalAppend(link.toClient, [answer], PingWeight());
      TotalAppend(link.toServer, [answer], UpWeight());
      TotalAppend(link.toServer, [answer], PingWeight());
    }
    assert link.toClient + [] == link.toClient && link.toServer + [] == link.toServer;
  }

  /** Reading anything else leaves the pings in the channels. */
  lemma PingsStay(sys: System, step: Step, node: string)
    requires Enabled(sys, step) && Live(sys, node) && StepNode(sys, step) == Some(node) && ProtocolStep(step) && !ReadsPing(sys, step)
    ensures node in Apply(sys, step).links ==> PingLoad(sys.links[node]) <= PingLoad(Apply(sys, step).links[node])
  {
    hide Receive, Advance, TakeSignal, ClientReceive, ProgressTick, Greeting, Completed1, CancelTask, PingWeight;
    var link := sys.links[node];
    NoPingWeight();
    match step
    case ServerReceives(_, now) =>
      TotalAppend(link.toClient, Receive(node, sys.store, link.session, link.toServer[0], now).sent, PingWeight());
    case ServerAdvances(_, now) => TotalAppend(link.toClient, Advance(node, sys.store, link.session, now).sent, PingWeight());
    case ServerSignaled(_) => TotalAppend(link.toClient, TakeSignal(link.session, link.signals[0]).1, PingWeight());
    case ClientGreets(_) => TotalAppend(link.toServer, [Greeting(link.config, link.client.sent)], PingWeight());
    case ClientReceives(_, spawnError, elapsedMs) =>
      TotalAppend(link.toServer, ClientReceive(link.config, link.client.running, link.toClient[0], spawnError, elapsedMs).sent, PingWeight());
    case ClientReports(_, durationMs) =>
      TotalAppend(link.toServer, ProgressTick(link.config, link.client.running.value, durationMs), PingWeight());
    case _ =>
  }

  lemma NoPingWeight()
    ensures forall f | !IsPing(f) :: PingWeight()(f) == 0
  {
  }

  /** Every other protocol step gets work done. */
  lemma WorkDrops(sys: System, step: Step, node: string)
    requires DrainInv(sys) && Enabled(sys, step) && Live(sys, node)
    requires StepNode(sys, step) == Some(node) && ProtocolStep(step) && !ReadsPing(sys, step)
    ensures Live(Apply(sys, step), node) && Work(Apply(sys, step), node) < Work(sys, node)
  {
    hide DrainInv, Measure, PingLoad, Apply, Enabled, ProtocolStep, ReadsPing;
    ProtocolStepDrops(sys, step, node);
    PingsStay(sys, step, node);
  }

  lemma OtherStepKeepsWork(sys: System, step: Step, node: string)
    requires DrainInv(sys) && Enabled(sys, step) && !step.Crash? && Live(sys, node) && StepNode(sys, step) != Some(node)
    ensures Live(Apply(sys, step), node) && Apply(sys, step).links[node] == sys.links[node]
    ensures Work(Apply(sys, step), node) <= Work(sys, node)
  {
    hide DrainInv, Measure, PingLoad, Apply, Enabled;
    OtherStepKeeps(sys, step, node);
    StoreOfInv(sys);
    Isolation.StepIsolates(sys, step, node);
  }

  // ----- runs

  /** The steps a draining node may take: those of the protocol, and heartbeats, as long as no task
      takes too long. */
  predicate DrainingStep(sys: System, step: Step) {
    ProtocolStep(step) || (Beat(step) && !TimesOut(sys, step))
  }

  /** A run in which nobody forges frames, the server does not crash, and node `node` takes draining
      steps only, while the other nodes do as they like. */
  predicate Draining(sys: System, steps: seq<Step>, node: string, sys': System)
    decreases |steps|
  {
    if steps == [] then sys' == sys
    else
      && Enabled(sys, steps[0]) && !steps[0].Forge? && !steps[0].Crash?
      && (StepNode(sys, steps[0]) == Some(node) ==> DrainingStep(sys, steps[0]))
      && Draining(Apply(sys, steps[0]), steps[1..], node, sys')
  }

  /** How many of the steps are protocol steps of `node`, how many of those do not just read a ping,
      and how many are its heartbeats. */
  function StepsOf(sys: System, steps: seq<Step>, node: string, sys': System): nat
    requires Draining(sys, steps, node, sys')
    decreases |steps|
  {
    if steps == [] then 0
    else (if StepNode(sys, steps[0]) == Some(node) && ProtocolStep(steps[0]) then 1 else 0)
         + StepsOf(Apply(sys, steps[0]), steps[1..], node, sys')
  }

  function WorkStepsOf(sys: System, steps: seq<Step>, node: string, sys': System): nat
    requires Draining(sys, steps, node, sys')
    decreases |steps|
  {
    if steps == [] then 0
    else (if StepNode(sys, steps[0]) == Some(node) && ProtocolStep(steps[0]) && !ReadsPing(sys, steps[0]) then 1 else 0)
         + WorkStepsOf(Apply(sys, steps[0]), steps[1..], node, sys')
  }

  function BeatsOf(sys: System, steps: seq<Step>, node: string, sys': System): nat
    requires Draining(sys, steps, node, sys')
    decreases |steps|
  {
    if steps == [] then 0
    else (if StepNode(sys, steps[0]) == Some(node) && Beat(steps[0]) then 1 else 0)
         + BeatsOf(Apply(sys, steps[0]), steps[1..], node, sys')
  }

  /** One step of such a run: `Work` never grows and drops with every step that is not a heartbeat or
      its echo; `Measure` drops with every step, and a heartbeat adds two. */
  lemma DrainingStepWeighs(sys: System, step: Step, node: string)
    requires DrainInv(sys) && Enabled(sys, step) && !step.Forge? && !step.Crash? && Live(sys, node)
    requires StepNode(sys, step) == Some(node) ==> DrainingStep(sys, step)
    ensures var sys', own := Apply(sys, step), StepNode(sys, step) == Some(node);
            && Live(sys', node)
            && Work(sys', node) + (if own && ProtocolStep(step) && !ReadsPing(sys, step) then 1 else 0) <= Work(sys, node)
            && Measure(sys', node) + (if own && ProtocolStep(step) then 1 else 0)
               <= Measure(sys, node) + (if own && Beat(step) then 2 else 0)
  {
    hide DrainInv, Measure, Work, Live, Enabled, Apply, ReadsPing, TimesOut;
    if StepNode(sys, step) != Some(node) {
      OtherStepKeeps(sys, step, node);
      OtherStepKeepsWork(sys, step, node);
    } else if ProtocolStep(step) {
      ProtocolStepDrops(sys, step, node);
      if ReadsPing(sys, step) { PingReadWeighsNothing(sys, step, node); } else { WorkDrops(sys, step, node); }
    } else {
      BeatWeighsNothing(sys, step, node);
    }
  }

  /** However many heartbeats a run has, the work of the node at its start bounds the steps that do
      any; and with two for each heartbeat added, the measure bounds all its steps. */
  lemma {:induction false} DrainBounded(sys: System, steps: seq<Step>, node: string, sys': System)
    requires DrainInv(sys) && Live(sys, node) && Draining(sys, steps, node, sys')
    ensures DrainInv(sys') && Live(sys', node)
    ensures WorkStepsOf(sys, steps, node, sys') + Work(sys', node) <= Work(sys, node)
    ensures StepsOf(sys, steps, node, sys') + Measure(sys', node) <= Measure(sys, node) + 2 * BeatsOf(sys, steps, node, sys')
    decreases |steps|
  {
    hide DrainInv, Measure, Work, Live, Enabled, Apply, ReadsPing, DrainingStep;
    if steps != [] {
      StepKeepsDrain(sys, steps[0]);
      DrainingStepWeighs(sys, steps[0], node);
      DrainBounded(Apply(sys, steps[0]), steps[1..], node, sys');
    }
  }

  predicate AllPings(frames: seq<Frame<Topic>>) {
    forall f | f in frames :: IsPing(f)
  }

  lemma {:induction false} PingsMeanNothing(frames: seq<Frame<Topic>>, node: string)
    requires AllPings(frames)
    ensures Marks(frames) == [] && Replies(frames) == []
    ensures Count(frames, IsHello(node)) == 0 && Count(frames, IsSubscribe()) == 0
  {
    if frames != [] {
      assert IsPing(frames[0]);
      PingsMeanNothing(frames[1..], node);
    }
  }

  /** With nothing but pings in the channels and nothing pending, a task that is not over is running
      at the client. */
  lemma QuietLinkRuns(st: Store, node: string, link: Link, notices: multiset<Notice>, id: nat)
    requires SessionOk(st, node, link.session, link.signals, notices) && LinkTokens(link) && HandshakeOk(link)
    requires link.session.pc.Select? && link.client.Looping?
    requires AllPings(link.toServer) && AllPings(link.toClient) && link.signals == [] && NotifyNode(node) !in notices
    requires QueuedAt(st, node, id) || ActiveAt(st, node, id)
    ensures link.client.running.Some?
  {
    hide HeldOk, CancelOk, SignalsOk, AllPings, Marks, Replies, Count;
    var s := link.session;
    PingsMeanNothing(link.toServer, link.config.nodeId);
    PingsMeanNothing(link.toClient, link.config.nodeId);
    assert s.registered && OnTask in s.subscriptions;
    assert s.slot.None? ==> Ready(s) && Held(s).None?;
    assert s.slot.Some? ==> CarriedBy(s).Carries?;
  }

  /** Nothing is ever stuck: a live node with a task that is not over can take a step of its own,
      without waiting for a cancel, a timeout or another node. */
  lemma SomeStepEnabled(sys: System, node: string, id: nat) returns (step: Step)
    requires DrainInv(sys) && Live(sys, node) && Owned(sys.store, node, id) && !Terminal(sys.store.tasks[id])
    ensures Enabled(sys, step) && WorkStep(step) && StepNode(sys, step) == Some(node)
  {
    hide StoreOk, Fifo, LogOk, NoticesOk, LogFresh, SessionOk, LinkTokens, RowOk;
    var link := sys.links[node];
    assert HandshakeOk(link);
    if !link.session.pc.Select? {
      InHandlerUnlessWaiting(sys.store, node, link, sys.notices);
      return ServerAdvances(node, 0);
    }
    if link.toServer != [] { return ServerReceives(node, 0); }
    if link.signals != [] { return ServerSignaled(node); }
    if NotifyNode(node) in sys.notices { return HttpNotify(NotifyNode(node)); }
    if link.client.Greets? { return ClientGreets(node); }
    if link.toClient != [] { return ClientReceives(node, None, 0); }
    QuietLinkRuns(sys.store, node, link, sys.notices, id);
    if link.client.running.value.exited.None? {
      return ProcessExits(node, ProcessExit(true, None, "", "", false, false));
    }
    return ClientReports(node, 0);
  }

  lemma InHandlerUnlessWaiting(st: Store, node: string, link: Link, notices: multiset<Notice>)
    requires SessionOk(st, node, link.session, link.signals, notices)
    requires !link.session.pc.Select? && !link.session.pc.Closing?
    ensures InHandler(link.session)
  {
  }

  ghost predicate AllOver(st: Store, node: string) {
    forall id: nat | Owned(st, node, id) :: Terminal(st.tasks[id])
  }

  /** A run that the node cannot continue has finished all of its tasks. */
  lemma MaximalRunIsDone(sys: System, steps: seq<Step>, node: string, sys': System)
    requires DrainInv(sys) && Live(sys, node) && Draining(sys, steps, node, sys')
    requires forall step | WorkStep(step) && StepNode(sys', step) == Some(node) :: !Enabled(sys', step)
    ensures AllOver(sys'.store, node)
  {
    DrainBounded(sys, steps, node, sys');
    forall id: nat | Owned(sys'.store, node, id) ensures Terminal(sys'.store.tasks[id]) {
      if !Terminal(sys'.store.tasks[id]) {
        var step := SomeStepEnabled(sys', node, id);
      }
    }
  }

  /** And such a run always exists, with the node's own steps alone and no cancel. */
  lemma {:induction false} DrainsOut(sys: System, node: string) returns (steps: seq<Step>, sys': System)
    requires DrainInv(sys) && Live(sys, node)
    ensures Trace(sys, steps, sys') && AllOver(sys'.store, node)
    ensures forall i | 0 <= i < |steps| :: WorkStep(steps[i])
    decreases Measure(sys, node)
  {
    hide DrainInv, Measure, Live, Enabled, Apply;
    if id: nat :| Owned(sys.store, node, id) && !Terminal(sys.store.tasks[id]) {
      var step := SomeStepEnabled(sys, node, id);
      StepKeepsDrain(sys, step);
      ProtocolStepDrops(sys, step, node);
      var rest;
      rest, sys' := DrainsOut(Apply(sys, step), node);
      steps := [step] + rest;
      assert steps[1..] == rest;
    } else {
      steps, sys' := [], sys;
    }
  }
}
