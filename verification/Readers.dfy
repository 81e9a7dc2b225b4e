/** A client that is still reading what a session had sent before it broke: the tokens stay as they
    were for the dispatch the session was waiting for, although nobody waits any more. */
module Readers {
  import opened Topics
  import opened Messages
  import opened ServerSession
  import opened ClientSession
  import opened Protocol
  import opened Links
  import opened Store
  import opened Tokens
  import opened Invariant
  import Safety

  /** The two channels and the client fit one dispatch, or none. */
  ghost predicate Fits(link: Link, carried: Carried) {
    TokenOk(carried, RunningToken(link.client), Marks(link.toClient), Replies(link.toServer))
  }

  ghost predicate ReaderOk(link: Link) {
    !link.client.Gone? ==> exists carried :: Fits(link, carried)
  }

  lemma LiveReader(link: Link)
    requires LinkTokens(link) && !link.session.pc.Closing?
    ensures ReaderOk(link)
  {
    if !link.client.Gone? { assert Fits(link, CarriedBy(link.session)); }
  }

  lemma ClientStepFits(sys: System, step: Step, carried: Carried)
    requires Enabled(sys, step) && ClientStep(step) && !step.ClientLeaves? && Fits(sys.links[step.node], carried)
    ensures Fits(Apply(sys, step).links[step.node], carried)
  {
    hide ClientReceive, ProgressTick, Marks, TokenOk, Replies;
    var link := sys.links[step.node];
    var replies := Replies(link.toServer);
    assert replies + [] == replies;
    match step
    case ClientHeartbeat(_, now) =>
      RepliesAppend(link.toServer, [PingReq(now)]);
      NoReply(PingReq(now));
    case ClientGreets(_) =>
      RepliesAppend(link.toServer, [Greeting(link.config, link.client.sent)]);
      NoReply(Greeting(link.config, link.client.sent));
    case ClientReceives(_, spawnError, elapsedMs) =>
      var e := ClientReceive(link.config, link.client.running, link.toClient[0], spawnError, elapsedMs);
      RepliesAppend(link.toServer, e.sent);
      ClientReceiveKeeps(link.config, link.client.running, link.toClient, replies, carried, spawnError, elapsedMs);
    case ProcessExits(_, _) =>
    case ClientReports(_, durationMs) =>
      RepliesAppend(link.toServer, ProgressTick(link.config, link.client.running.value, durationMs));
      ReportKeeps(link.config, link.client.running.value, durationMs, carried, Marks(link.toClient), replies);
  }

  lemma NoReply(frame: Frame<Topic>)
    requires ReplyOf(frame) == []
    ensures Replies([frame]) == []
  {
    RepliesOfTwo([frame]);
  }

  ghost predicate ReadersInv(sys: System) {
    FullInv(sys) && forall node | node in sys.links :: ReaderOk(sys.links[node])
  }

  /** Sessions leave by breaking only. */
  lemma StaysOpen(sys: System, step: Step)
    requires Enabled(sys, step)
    requires SessionStep(step)
    ensures step.node in Apply(sys, step).links && !Apply(sys, step).links[step.node].session.pc.Closing?
  {
    hide Receive, Advance, HeartbeatTick, TakeSignal, Completed1;
    var link := sys.links[step.node];
    match step
    case ServerHeartbeat(node, now) => NeverCloses(node, sys.store, link.session, now, TryDispatch);
    case ServerAdvances(node, now) => NeverCloses(node, sys.store, link.session, now, TryDispatch);
    case ServerSignaled(node) => NeverCloses(node, sys.store, link.session, 0, link.signals[0]);
    case ServerReceives(_, _) =>
  }

  /** A link whose session has left changes by its client's steps alone. */
  lemma ClosedLinks(sys: System, step: Step, node: string)
    requires Enabled(sys, step) && !step.Forge? && node in Apply(sys, step).links
    requires Apply(sys, step).links[node].session.pc.Closing? && !(ClientStep(step) && step.node == node)
    ensures node in sys.links
    ensures var link' := Apply(sys, step).links[node];
            link' == sys.links[node].(session := link'.session, signals := link'.signals)
  {
    hide Apply, Enabled;
    if SessionStep(step) && step.node == node { StaysOpen(sys, step); }
    OtherLinks(sys, step, node);
  }

  lemma StepKeepsReaders(sys: System, step: Step)
    requires ReadersInv(sys) && Enabled(sys, step) && !step.Forge?
    ensures ReadersInv(Apply(sys, step))
  {
    hide FullInv, LinkTokens, Apply, Fits;
    StepKeepsFull(sys, step);
    var sys' := Apply(sys, step);
    forall node | node in sys'.links ensures ReaderOk(sys'.links[node]) {
      if !sys'.links[node].session.pc.Closing? {
        TokensOfInv(sys', node);
        LiveReader(sys'.links[node]);
      } else if ClientStep(step) && step.node == node { ClientStepReads(sys, step); }
      else { ClosedLinks(sys, step, node); UntouchedReads(sys.links[node], sys'.links[node]); }
    }
  }

  lemma TokensOfInv(sys: System, node: string)
    requires FullInv(sys) && node in sys.links
    ensures LinkTokens(sys.links[node])
  {
    hide Inv, LinkTokens, LogFresh;
  }

  lemma UntouchedReads(link: Link, link': Link)
    requires ReaderOk(link) && link' == link.(session := link'.session, signals := link'.signals)
    ensures ReaderOk(link')
  {
    if !link.client.Gone? {
      var carried :| Fits(link, carried);
      assert Fits(link', carried);
    }
  }

  lemma ClientStepReads(sys: System, step: Step)
    requires Enabled(sys, step) && ClientStep(step) && ReaderOk(sys.links[step.node])
    ensures step.node in Apply(sys, step).links && ReaderOk(Apply(sys, step).links[step.node])
  {
    hide Fits, ClientReceive, ProgressTick, Greeting;
    if !step.ClientLeaves? {
      var carried :| Fits(sys.links[step.node], carried);
      ClientStepFits(sys, step, carried);
      assert Fits(Apply(sys, step).links[step.node], carried);
    }
  }

  lemma InitReaders()
    ensures ReadersInv(INIT)
  {
    Safety.InitOk();
  }

  lemma {:induction false} TraceKeepsReaders(from: System, steps: seq<Step>, sys: System)
    requires ReadersInv(from) && Trace(from, steps, sys) && NoForgery(steps)
    ensures ReadersInv(sys)
    decreases |steps|
  {
    hide ReadersInv, Enabled, Apply;
    if steps != [] {
      StepKeepsReaders(from, steps[0]);
      TraceKeepsReaders(Apply(from, steps[0]), steps[1..], sys);
    }
  }
}
