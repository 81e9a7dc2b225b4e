/** What becomes of a node in the long run: if each of its parts gets its turn, all its tasks end,
    although both ends send heartbeats forever. */
module Liveness {
  import opened Prelude
  import opened Topics
  import opened Tasks
  import opened Store
  import opened Messages
  import opened ServerSession
  import opened ClientSession
  import opened Protocol
  import opened Invariant
  import opened Tokens
  import opened Handshake
  import opened StepOps
  import opened Drain
  import Isolation
  import Runs = StoreRuns

  // ----- runs without end

  /** What can act for a node: its session inside a handler, reading a frame or taking a signal; the
      HTTP handler about to wake it; and its client greeting, reading, running and reporting. */
  datatype Part = Handler | Intake | Signals | Wakeup | Greeter | Reader | Process | Reporter

  predicate Takes(part: Part, step: Step, node: string) {
    match part
    case Handler => step.ServerAdvances? && step.node == node
    case Intake => step.ServerReceives? && step.node == node
    case Signals => step.ServerSignaled? && step.node == node
    case Wakeup => step == HttpNotify(NotifyNode(node))
    case Greeter => step.ClientGreets? && step.node == node
    case Reader => step.ClientReceives? && step.node == node
    case Process => step.ProcessExits? && step.node == node
    case Reporter => step.ClientReports? && step.node == node
  }

  predicate Can(part: Part, sys: System, node: string) {
    match part
    case Handler => Enabled(sys, ServerAdvances(node, 0))
    case Intake => Enabled(sys, ServerReceives(node, 0))
    case Signals => Enabled(sys, ServerSignaled(node))
    case Wakeup => Enabled(sys, HttpNotify(NotifyNode(node)))
    case Greeter => Enabled(sys, ClientGreets(node))
    case Reader => Enabled(sys, ClientReceives(node, None, 0))
    case Process => Enabled(sys, ProcessExits(node, ProcessExit(true, None, "", "", false, false)))
    case Reporter => Enabled(sys, ClientReports(node, 0))
  }

  /** Step `i` of a run in which nobody forges frames, the server does not crash, and `node` sees no
      timeout, new task or disconnect. */
  predicate RunStep(states: nat -> System, steps: nat -> Step, node: string, i: nat) {
    && Enabled(states(i), steps(i)) && states(i + 1) == Apply(states(i), steps(i))
    && !steps(i).Forge? && !steps(i).Crash?
    && (StepNode(states(i), steps(i)) == Some(node) ==> DrainingStep(states(i), steps(i)))
  }

  ghost predicate Run(states: nat -> System, steps: nat -> Step, node: string) {
    forall i: nat :: RunStep(states, steps, node, i)
  }

  /** At `j` the part acts, or cannot. */
  predicate Served(states: nat -> System, steps: nat -> Step, node: string, part: Part, j: nat) {
    Can(part, states(j), node) ==> Takes(part, steps(j), node)
  }

  ghost predicate ServedFrom(states: nat -> System, steps: nat -> Step, node: string, part: Part, i: nat) {
    exists j: nat :: i <= j && Served(states, steps, node, part, j)
  }

  /** No part that stays able to act is passed over forever; in particular processes exit. */
  ghost predicate Fair(states: nat -> System, steps: nat -> Step, node: string) {
    forall part: Part, i: nat :: ServedFrom(states, steps, node, part, i)
  }

  // ----- whose turn it is

  /** How many pings stand before the first other frame. */
  function FirstWork(frames: seq<Frame<Topic>>): (k: nat)
    ensures k <= |frames| && (k == |frames| <==> AllPings(frames))
  {
    if frames == [] || !IsPing(frames[0]) then 0
    else
      var k := FirstWork(frames[1..]);
      assert AllPings(frames) <==> AllPings(frames[1..]) by { PingsAhead(frames); }
      k + 1
  }

  lemma PingsAhead(frames: seq<Frame<Topic>>)
    requires frames != [] && IsPing(frames[0])
    ensures AllPings(frames) <==> AllPings(frames[1..])
  {
    assert forall f | f in frames :: f == frames[0] || f in frames[1..];
  }

  lemma {:induction false} PingBehind(frames: seq<Frame<Topic>>, ping: Frame<Topic>)
    requires IsPing(ping)
    ensures AllPings(frames + [ping]) <==> AllPings(frames)
    ensures !AllPings(frames) ==> FirstWork(frames + [ping]) == FirstWork(frames)
  {
    assert forall f | f in frames :: f in frames + [ping];
    if frames != [] && IsPing(frames[0]) {
      PingsAhead(frames);
      PingBehind(frames[1..], ping);
      assert (frames + [ping])[0] == frames[0] && (frames + [ping])[1..] == frames[1..] + [ping];
    }
  }

  /** The part whose turn gets work done, or brings it nearer. */
  function Due(link: Link, wake: bool): Part {
    if !link.session.pc.Select? then Handler
    else if !AllPings(link.toServer) then Intake
    else if link.signals != [] then Signals
    else if wake then Wakeup
    else if link.client.Greets? then Greeter
    else if !AllPings(link.toClient) then Reader
    else if link.client.Looping? && link.client.running.Some? && link.client.running.value.exited.None? then Process
    else Reporter
  }

  /** How many pings that part has to read first. */
  function Distance(link: Link, wake: bool): nat {
    match Due(link, wake)
    case Intake => FirstWork(link.toServer)
    case Reader => FirstWork(link.toClient)
    case _ => 0
  }

  function DueAt(sys: System, node: string): Part
    requires node in sys.links
  {
    Due(sys.links[node], NotifyNode(node) in sys.notices)
  }

  function DistanceAt(sys: System, node: string): nat
    requires node in sys.links
  {
    Distance(sys.links[node], NotifyNode(node) in sys.notices)
  }

  /** The part that is due can act, as long as the node has an unfinished task. */
  lemma DueCan(sys: System, node: string, id: nat)
    requires DrainInv(sys) && Live(sys, node) && Owned(sys.store, node, id) && !Terminal(sys.store.tasks[id])
    ensures Can(DueAt(sys, node), sys, node)
  {
    hide StoreOk, Fifo, LogOk, NoticesOk, LogFresh, SessionOk, LinkTokens, RowOk;
    var link := sys.links[node];
    assert HandshakeOk(link);
    if !link.session.pc.Select? {
      InHandlerUnlessWaiting(sys.store, node, link, sys.notices);
    } else if AllPings(link.toServer) && AllPings(link.toClient) && link.signals == [] && NotifyNode(node) !in sys.notices
              && link.client.Looping? {
      QuietLinkRuns(sys.store, node, link, sys.notices, id);
    }
  }

  predicate Neutral(sys: System, step: Step) {
    (Beat(step) && !TimesOut(sys, step)) || ReadsPing(sys, step)
  }

  /** Heartbeats and the reading of pings leave the turn where it is, and when the part whose turn it
      is reads a ping, its work is one nearer. */
  lemma NeutralKeepsDue(sys: System, step: Step, node: string)
    requires Enabled(sys, step) && Live(sys, node) && StepNode(sys, step) == Some(node) && Neutral(sys, step)
    ensures Live(Apply(sys, step), node) && DueAt(Apply(sys, step), node) == DueAt(sys, node)
    ensures DistanceAt(Apply(sys, step), node) <= DistanceAt(sys, node)
    ensures Takes(DueAt(sys, node), step, node) ==> DistanceAt(Apply(sys, step), node) < DistanceAt(sys, node)
  {
    hide Apply, AllPings, FirstWork;
    var link := sys.links[node];
    if Beat(step) {
      BeatSendsPing(sys, step, node);
      PingBehind(link.toClient, PingReq(step.now));
      PingBehind(link.toServer, PingReq(step.now));
    } else {
      PingIsAnswered(sys, step, node);
      var frame := if step.ServerReceives? then link.toServer[0] else link.toClient[0];
      PingBehind(link.toClient, PingResp(0));
      if frame.PingReq? {
        PingBehind(link.toClient, PingResp(frame.unixSecs));
        PingBehind(link.toServer, PingResp(frame.unixSecs));
      }
      if step.ServerReceives? { HeadPing(link.toServer); } else { HeadPing(link.toClient); }
      assert link.toClient + [] == link.toClient && link.toServer + [] == link.toServer;
    }
  }

  lemma HeadPing(frames: seq<Frame<Topic>>)
    requires frames != [] && IsPing(frames[0])
    ensures AllPings(frames) <==> AllPings(frames[1..])
    ensures FirstWork(frames) == FirstWork(frames[1..]) + 1
  {
    PingsAhead(frames);
  }

  lemma OtherKeepsDue(sys: System, step: Step, node: string)
    requires DrainInv(sys) && Enabled(sys, step) && !step.Crash? && Live(sys, node) && StepNode(sys, step) != Some(node)
    ensures Live(Apply(sys, step), node)
    ensures DueAt(Apply(sys, step), node) == DueAt(sys, node) && DistanceAt(Apply(sys, step), node) == DistanceAt(sys, node)
  {
    hide DrainInv, Apply, Enabled, Due, Distance;
    OtherStepKeepsWork(sys, step, node);
    StoreOfInv(sys);
    Isolation.StepIsolates(sys, step, node);
    assert Apply(sys, step).notices[NotifyNode(node)] == sys.notices[NotifyNode(node)];
  }

  /** One step: less work, or as much and the same turn, with no more pings ahead; and the turn
      taken brings it nearer. */
  lemma StepTurns(sys: System, step: Step, node: string)
    requires DrainInv(sys) && Enabled(sys, step) && !step.Forge? && !step.Crash? && Live(sys, node)
    requires StepNode(sys, step) == Some(node) ==> DrainingStep(sys, step)
    ensures Live(Apply(sys, step), node)
    ensures var sys' := Apply(sys, step);
            || Work(sys', node) < Work(sys, node)
            || (Work(sys', node) == Work(sys, node) && DueAt(sys', node) == DueAt(sys, node)
                && DistanceAt(sys', node) <= DistanceAt(sys, node)
                && (Takes(DueAt(sys, node), step, node) ==> DistanceAt(sys', node) < DistanceAt(sys, node)))
  {
    hide DrainInv, Work, Enabled, Apply, ReadsPing, TimesOut, DueAt, DistanceAt, Live;
    DrainingStepWeighs(sys, step, node);
    if StepNode(sys, step) != Some(node) {
      OtherKeepsDue(sys, step, node);
      TurnsAreOwn(sys, step, node);
    } else if Neutral(sys, step) {
      NeutralKeepsDue(sys, step, node);
    }
  }

  lemma TurnsAreOwn(sys: System, step: Step, node: string)
    ensures forall part: Part :: Takes(part, step, node) ==> StepNode(sys, step) == Some(node)
  {
  }

  // ----- the proof over a run

  lemma {:induction false} InvAlong(states: nat -> System, steps: nat -> Step, node: string, i: nat)
    requires Run(states, steps, node) && DrainInv(states(0)) && Live(states(0), node)
    ensures DrainInv(states(i)) && Live(states(i), node)
  {
    hide DrainInv, Live, Enabled, Apply, DrainingStep;
    if i > 0 {
      InvAlong(states, steps, node, i - 1);
      assert RunStep(states, steps, node, i - 1);
      StepKeepsDrain(states(i - 1), steps(i - 1));
      StepTurns(states(i - 1), steps(i - 1), node);
    }
  }

  ghost predicate SameTurn(sys: System, sys': System, node: string)
    requires node in sys.links && node in sys'.links
  {
    || Work(sys', node) < Work(sys, node)
    || (Work(sys', node) == Work(sys, node) && DueAt(sys', node) == DueAt(sys, node)
        && DistanceAt(sys', node) <= DistanceAt(sys, node))
  }

  lemma LiveLink(sys: System, node: string)
    requires Live(sys, node)
    ensures node in sys.links
  {
  }

  lemma {:induction false} TurnHolds(states: nat -> System, steps: nat -> Step, node: string, i: nat, j: nat)
    requires Run(states, steps, node) && DrainInv(states(0)) && Live(states(0), node) && i <= j
    ensures node in states(i).links && node in states(j).links && SameTurn(states(i), states(j), node)
    decreases j
  {
    hide DrainInv, Live, Enabled, Apply, DrainingStep, Work, DueAt, DistanceAt, Takes;
    InvAlong(states, steps, node, i);
    LiveLink(states(i), node);
    if i < j {
      TurnHolds(states, steps, node, i, j - 1);
      InvAlong(states, steps, node, j - 1);
      assert RunStep(states, steps, node, j - 1);
      StepTurns(states(j - 1), steps(j - 1), node);
      LiveLink(states(j), node);
    }
  }

  /** While a task is unfinished, some later state has less work left. */
  lemma {:induction false} WorkGetsDone(states: nat -> System, steps: nat -> Step, node: string, i: nat) returns (k: nat)
    requires Run(states, steps, node) && Fair(states, steps, node) && DrainInv(states(0)) && Live(states(0), node)
    requires node in states(i).links && !AllOver(states(i).store, node)
    ensures node in states(k).links && (Work(states(k), node) < Work(states(i), node) || AllOver(states(k).store, node))
    decreases DistanceAt(states(i), node)
  {
    hide DrainInv, Live, Enabled, Apply, DrainingStep, Work, DueAt, DistanceAt, Takes, Can, Run;
    var part := DueAt(states(i), node);
    assert ServedFrom(states, steps, node, part, i);
    var j: nat :| i <= j && Served(states, steps, node, part, j);
    TurnHolds(states, steps, node, i, j);
    if Work(states(j), node) < Work(states(i), node) || AllOver(states(j).store, node) { return j; }
    InvAlong(states, steps, node, j);
    var id: nat :| Owned(states(j).store, node, id) && !Terminal(states(j).store.tasks[id]);
    DueCan(states(j), node, id);
    assert Takes(part, steps(j), node);
    StepOfRun(states, steps, node, j);
    StepTurns(states(j), steps(j), node);
    LiveLink(states(j + 1), node);
    if Work(states(j + 1), node) < Work(states(j), node) || AllOver(states(j + 1).store, node) { return j + 1; }
    k := WorkGetsDone(states, steps, node, j + 1);
  }

  lemma StepOfRun(states: nat -> System, steps: nat -> Step, node: string, i: nat)
    requires Run(states, steps, node)
    ensures RunStep(states, steps, node, i)
  {
  }

  lemma {:induction false} FinishedFrom(states: nat -> System, steps: nat -> Step, node: string, i: nat) returns (n: nat)
    requires Run(states, steps, node) && Fair(states, steps, node) && DrainInv(states(0)) && Live(states(0), node)
    requires node in states(i).links
    ensures AllOver(states(n).store, node)
    decreases Work(states(i), node)
  {
    hide DrainInv, Live, Work, Run, Fair;
    n := i;
    if !AllOver(states(i).store, node) {
      n := WorkGetsDone(states, steps, node, i);
      if !AllOver(states(n).store, node) { n := FinishedFrom(states, steps, node, n); }
    }
  }

  // ----- and stays so

  lemma NoNewIds(sys: System, step: Step)
    requires Enabled(sys, step) && !step.HttpCreate?
    ensures Apply(sys, step).store.nextId == sys.store.nextId
  {
    hide Receive, Advance, HeartbeatTick, TakeSignal, ClientReceive, ProgressTick, Completed1, Greeting;
    if step.ServerReceives? {
      Isolation.ReceiveKeepsNextId(step.node, sys.store, sys.links[step.node].session, sys.links[step.node].toServer[0], step.now);
    }
    if step.ServerAdvances? { Isolation.AdvanceKeepsNextId(step.node, sys.store, sys.links[step.node].session, step.now); }
    if step.ServerHeartbeat? { var _ := HeartbeatOp(step.node, sys.store, sys.links[step.node].session, step.now); }
  }

  lemma StepKeepsOver(sys: System, step: Step, node: string)
    requires StoreOk(sys.store) && Enabled(sys, step) && AllOver(sys.store, node)
    requires StepNode(sys, step) == Some(node) ==> !step.HttpCreate?
    ensures AllOver(Apply(sys, step).store, node)
  {
    hide Apply, Enabled, StoreOk, Runs.Apply;
    var ops := StepIsOp(sys, step);
    NoOp(sys.store);
    if StepNode(sys, step) != Some(node) {
      Isolation.StepIsolates(sys, step, node);
    } else if ops != [] {
      assert ops == [ops[0]];
      OneOp(sys.store, ops[0]);
      NoNewIds(sys, step);
      Runs.ApplyKeepsOk(sys.store, ops[0]);
      forall id: nat | Owned(Apply(sys, step).store, node, id) ensures Terminal(Apply(sys, step).store.tasks[id]) {
        KnownId(sys.store, ops[0], id);
        Runs.ApplySteps(sys.store, ops[0], id);
      }
    }
  }

  lemma KnownId(st: Store, op: Runs.Op, id: nat)
    requires StoreOk(st) && id in Runs.Apply(st, op).tasks && Runs.Apply(st, op).nextId == st.nextId
    ensures id in st.tasks
  {
  }

  lemma {:induction false} OverFromThen(states: nat -> System, steps: nat -> Step, node: string, n: nat, m: nat)
    requires Run(states, steps, node) && DrainInv(states(0)) && Live(states(0), node)
    requires AllOver(states(n).store, node) && n <= m
    ensures AllOver(states(m).store, node)
    decreases m
  {
    hide DrainInv, Live, Enabled, Apply, Run, AllOver;
    if n < m {
      OverFromThen(states, steps, node, n, m - 1);
      StepOfRun(states, steps, node, m - 1);
      InvAlong(states, steps, node, m - 1);
      StoreOfInv(states(m - 1));
      StepKeepsOver(states(m - 1), steps(m - 1), node);
    }
  }

  /** From a live state of any kind, in any run without end in which the node sees no timeout, new
      task, disconnect or crash and no part of it is passed over forever: at some point all its tasks
      are over, and they stay so, heartbeats and other nodes notwithstanding. */
  lemma EveryFairRunFinishes(states: nat -> System, steps: nat -> Step, node: string) returns (n: nat)
    requires DrainInv(states(0)) && Live(states(0), node) && Run(states, steps, node) && Fair(states, steps, node)
    ensures forall m: nat | n <= m :: AllOver(states(m).store, node)
  {
    hide DrainInv, Live, Run, Fair, AllOver;
    LiveLink(states(0), node);
    n := FinishedFrom(states, steps, node, 0);
    forall m: nat | n <= m ensures AllOver(states(m).store, node) { OverFromThen(states, steps, node, n, m); }
  }
}
