/** The opening of a connection: until it has arrived, exactly one hello is still to come, and so
    is the subscription to the task topic. */
module Handshake {
  import opened Prelude
  import opened Topics
  import opened Store
  import opened Messages
  import opened ServerSession
  import opened ClientSession
  import opened Protocol
  import opened Links
  import opened Tokens

  function Count(frames: seq<Frame<Topic>>, p: Frame<Topic> -> bool): nat {
    if frames == [] then 0 else (if p(frames[0]) then 1 else 0) + Count(frames[1..], p)
  }

  lemma {:induction false} CountAppend(a: seq<Frame<Topic>>, b: seq<Frame<Topic>>, p: Frame<Topic> -> bool)
    ensures Count(a + b, p) == Count(a, p) + Count(b, p)
  {
    if a == [] { assert a + b == b; }
    else {
      CountAppend(a[1..], b, p);
      assert (a + b)[1..] == a[1..] + b;
    }
  }

  function IsHello(node: string): Frame<Topic> -> bool {
    (f: Frame<Topic>) => f.Publish? && f.topic == OnHello && f.payload.ClientHello? && f.payload.nodeId == node
  }

  function IsSubscribe(): Frame<Topic> -> bool {
    (f: Frame<Topic>) => f.Subscribe? && OnTask in f.topics
  }

  function HellosDue(link: Link): nat {
    Count(link.toServer, IsHello(link.config.nodeId))
    + (if link.client.Greets? && link.client.sent <= 1 then 1 else 0)
    + (if link.session.registered || link.session.pc.Registering? then 1 else 0)
  }

  predicate HandshakeOk(link: Link) {
    !link.session.pc.Closing? ==>
      && HellosDue(link) <= 1
      && (link.client.Greets? ==> link.client.sent < GREETINGS)
      && (!link.client.Gone? ==>
            && HellosDue(link) == 1
            && (OnTask in link.session.subscriptions || link.client == Greets(0) || Count(link.toServer, IsSubscribe()) > 0))
  }

  ghost predicate DrainInv(sys: System) {
    FullInv(sys) && forall node | node in sys.links :: HandshakeOk(sys.links[node])
  }

  lemma {:induction false} CountZero(frames: seq<Frame<Topic>>, p: Frame<Topic> -> bool)
    requires forall f | f in frames :: !p(f)
    ensures Count(frames, p) == 0
  {
    if frames != [] { CountZero(frames[1..], p); }
  }

  predicate Undisturbed(s: Session, s': Session) {
    s'.registered == s.registered && !s'.pc.Registering? && !s'.pc.Closing? && s'.subscriptions == s.subscriptions
  }

  lemma ControlHandshake(node: string, st: Store, s: Session, payload: Payload, now: U64)
    requires s.pc.Select?
    ensures Undisturbed(s, ReceiveControl(node, st, s, payload, now).session)
  {
    hide ClaimTask;
  }

  lemma RepliesHandshake(node: string, st: Store, s: Session, payload: Payload, now: U64)
    requires s.pc.Select?
    ensures Undisturbed(s, ReceiveAck(node, st, s, payload, now).session)
    ensures Undisturbed(s, ReceiveResult(node, st, s, payload, now).session)
  {
    hide AcknowledgeTask, SubmitTaskResult;
  }

  lemma HelloHandshake(node: string, st: Store, s: Session, payload: Payload, now: U64)
    requires s.pc.Select?
    ensures var s' := ReceiveHello(node, st, s, payload, now).session;
            if payload.ClientHello? && payload.nodeId == node
            then s' == s.(pc := s'.pc) && s'.pc.Registering? else s' == s
  {
    hide RequeueIncompleteTasks, UpdateNodeCommands;
  }

  lemma ReceiveHandshake(node: string, st: Store, s: Session, frame: Frame<Topic>, now: U64)
    requires s.pc.Select?
    ensures var s' := Receive(node, st, s, frame, now).session;
            && s'.registered == s.registered && s'.pc.Registering? == IsHello(node)(frame) && !s'.pc.Closing?
            && s.subscriptions <= s'.subscriptions && (IsSubscribe()(frame) ==> OnTask in s'.subscriptions)
  {
    hide ReceiveControl, ReceiveAck, ReceiveResult, ReceiveHello;
    if frame.Publish? {
      ControlHandshake(node, st, s, frame.payload, now);
      RepliesHandshake(node, st, s, frame.payload, now);
      HelloHandshake(node, st, s, frame.payload, now);
    }
  }

  lemma AdvanceHandshake(node: string, st: Store, s: Session, now: U64)
    requires InHandler(s)
    ensures var s' := Advance(node, st, s, now).session;
            && s'.registered == (s.registered || s.pc.Registering?) && !s'.pc.Registering? && !s'.pc.Closing?
            && s'.subscriptions == s.subscriptions
  {
    hide ClaimTask, RegisterNode;
  }

  lemma TicksHandshake(node: string, st: Store, s: Session, now: U64, signal: Signal)
    requires s.pc.Select?
    ensures forall s' | s' == HeartbeatTick(node, st, s, now).session || s' == TakeSignal(s, signal).0 ::
              && s'.registered == s.registered && !s'.pc.Registering? && !s'.pc.Closing? && s'.subscriptions == s.subscriptions
  {
  }

  lemma ClientSendsNoHello(config: ClientConfig, running: Option<RunningTask>, frame: Frame<Topic>,
                           spawnError: Option<string>, elapsedMs: U64, node: string)
    ensures Count(ClientReceive(config, running, frame, spawnError, elapsedMs).sent, IsHello(node)) == 0
    ensures Count(ClientReceive(config, running, frame, spawnError, elapsedMs).sent, IsSubscribe()) == 0
  {
    hide StartCommand;
    var sent := ClientReceive(config, running, frame, spawnError, elapsedMs).sent;
    CountZero(sent, IsHello(node));
    CountZero(sent, IsSubscribe());
  }

  /** What one link step does to the frames still on their way to the server. */
  lemma Sends(link: Link, sent: seq<Frame<Topic>>)
    ensures Count(link.toServer + sent, IsHello(link.config.nodeId))
         == Count(link.toServer, IsHello(link.config.nodeId)) + Count(sent, IsHello(link.config.nodeId))
    ensures Count(link.toServer + sent, IsSubscribe()) == Count(link.toServer, IsSubscribe()) + Count(sent, IsSubscribe())
  {
    CountAppend(link.toServer, sent, IsHello(link.config.nodeId));
    CountAppend(link.toServer, sent, IsSubscribe());
  }

  lemma SessionStepHandshake(sys: System, step: Step)
    requires DrainInv(sys) && Enabled(sys, step)
    requires SessionStep(step)
    ensures HandshakeOk(Apply(sys, step).links[step.node])
  {
    hide FullInv, Receive, Advance, HeartbeatTick, TakeSignal, Completed1;
    var link := sys.links[step.node];
    var s, st := link.session, sys.store;
    assert link.config.nodeId == step.node by { ConfigNode(sys, step.node); }
    match step
    case ServerHeartbeat(node, now) => TicksHandshake(node, st, s, now, TryDispatch);
    case ServerAdvances(node, now) => AdvanceHandshake(node, st, s, now);
    case ServerSignaled(node) => TicksHandshake(node, st, s, 0, link.signals[0]);
    case ServerReceives(node, now) => ReceiveHandshake(node, st, s, link.toServer[0], now);
  }

  lemma ConfigNode(sys: System, node: string)
    requires FullInv(sys) && node in sys.links
    ensures sys.links[node].config.nodeId == node
  {
  }

  lemma OneCounted(frame: Frame<Topic>, p: Frame<Topic> -> bool)
    ensures Count([frame], p) == if p(frame) then 1 else 0
  {
    assert Count([frame][1..], p) == 0;
  }

  lemma GreetingCounts(config: ClientConfig, k: nat)
    requires k < GREETINGS
    ensures Count([Greeting(config, k)], IsHello(config.nodeId)) == if k == 1 then 1 else 0
    ensures Count([Greeting(config, k)], IsSubscribe()) == if k == 0 then 1 else 0
  {
    OneCounted(Greeting(config, k), IsHello(config.nodeId));
    OneCounted(Greeting(config, k), IsSubscribe());
  }

  lemma ReportSendsNoHello(config: ClientConfig, running: RunningTask, durationMs: U64, node: string)
    requires running.exited.Some?
    ensures Count(ProgressTick(config, running, durationMs), IsHello(node)) == 0
    ensures Count(ProgressTick(config, running, durationMs), IsSubscribe()) == 0
  {
    CountZero(ProgressTick(config, running, durationMs), IsHello(node));
    CountZero(ProgressTick(config, running, durationMs), IsSubscribe());
  }

  lemma ClientStepHandshake(sys: System, step: Step)
    requires DrainInv(sys) && Enabled(sys, step)
    requires ClientStep(step)
    ensures HandshakeOk(Apply(sys, step).links[step.node])
  {
    hide FullInv, ClientReceive, ProgressTick, Greeting, IsHello, IsSubscribe;
    var link := sys.links[step.node];
    match step
    case ClientHeartbeat(_, now) =>
      CountZero([PingReq(now)], IsHello(link.config.nodeId)) by { PingNoHello(now, link.config.nodeId); }
      CountZero([PingReq(now)], IsSubscribe()) by { PingNoHello(now, link.config.nodeId); }
      Sends(link, [PingReq(now)]);
    case ClientGreets(_) =>
      GreetingCounts(link.config, link.client.sent);
      Sends(link, [Greeting(link.config, link.client.sent)]);
    case ClientReceives(_, spawnError, elapsedMs) =>
      var sent := ClientReceive(link.config, link.client.running, link.toClient[0], spawnError, elapsedMs).sent;
      ClientSendsNoHello(link.config, link.client.running, link.toClient[0], spawnError, elapsedMs, link.config.nodeId);
      Sends(link, sent);
    case ClientReports(_, durationMs) =>
      ReportSendsNoHello(link.config, link.client.running.value, durationMs, link.config.nodeId);
      Sends(link, ProgressTick(link.config, link.client.running.value, durationMs));
    case _ =>
  }

  lemma PingNoHello(now: U64, node: string)
    ensures !IsHello(node)(PingReq(now)) && !IsSubscribe()(PingReq(now))
  {
  }

  lemma StepKeepsDrain(sys: System, step: Step)
    requires DrainInv(sys) && Enabled(sys, step) && !step.Forge?
    ensures DrainInv(Apply(sys, step))
  {
    hide FullInv, HandshakeOk, Apply, Enabled;
    StepKeepsFull(sys, step);
    var sys' := Apply(sys, step);
    if SessionStep(step) { SessionStepHandshake(sys, step); }
    if ClientStep(step) { ClientStepHandshake(sys, step); }
    forall node | node in sys'.links ensures HandshakeOk(sys'.links[node]) {
      if !OwnStep(step, node) {
        OtherLinks(sys, step, node);
        if step.Open? && step.node == node { FreshHandshake(step.config); }
        else { OtherHandshake(sys.links[node], sys'.links[node]); }
      }
    }
  }

  lemma FreshHandshake(config: ClientConfig)
    ensures HandshakeOk(Link(OPENED, [], [], [], config, Greets(0)))
  {
  }

  lemma OtherHandshake(link: Link, link': Link)
    requires HandshakeOk(link)
    requires link'.session.pc.Closing? || link' == link.(signals := link'.signals)
    ensures HandshakeOk(link')
  {
  }
}
