/** Which link a step changes, and what becomes of the others. */
module Links {
  import opened ServerSession
  import opened ClientSession
  import opened Store
  import opened Protocol

  predicate SessionStep(step: Step) {
    step.ServerHeartbeat? || step.ServerReceives? || step.ServerAdvances? || step.ServerSignaled?
  }

  predicate ClientStep(step: Step) {
    step.ClientLeaves? || step.ClientHeartbeat? || step.ClientGreets? || step.ClientReceives?
    || step.ProcessExits? || step.ClientReports?
  }

  /** A step of the two ends of the connection of `node`, or of somebody writing to it. */
  predicate OwnStep(step: Step, node: string) {
    (SessionStep(step) || ClientStep(step) || step.Forge?) && step.node == node
  }

  /** Any other step leaves a link as it is, or closes its session, or adds a signal, or opens it. */
  lemma OtherLinks(sys: System, step: Step, node: string)
    requires Enabled(sys, step) && node in Apply(sys, step).links && !OwnStep(step, node)
    ensures var link' := Apply(sys, step).links[node];
            if step.Open? && step.node == node then link' == Link(OPENED, [], [], [], step.config, Greets(0))
            else node in sys.links
                 && (link'.session == sys.links[node].session || link'.session.pc.Closing?)
                 && link' == sys.links[node].(session := link'.session, signals := link'.signals)
  {
    hide Receive, Advance, HeartbeatTick, TakeSignal, ClientReceive, ProgressTick, Completed1,
         CreateTask, CancelTask, RequeueIncompleteTasks, Greeting;
  }

  lemma LinkOfOwnStep(sys: System, step: Step, node: string)
    requires Enabled(sys, step) && OwnStep(step, node)
    ensures node in sys.links && node in Apply(sys, step).links
  {
    hide Receive, Advance, HeartbeatTick, TakeSignal, ClientReceive, ProgressTick, Completed1, Greeting;
  }

  /** Only a received frame adds to the log. */
  lemma LogKept(sys: System, step: Step)
    requires Enabled(sys, step) && !step.ServerReceives?
    ensures Apply(sys, step).log == sys.log
  {
    hide Advance, HeartbeatTick, TakeSignal, ClientReceive, ProgressTick, CreateTask, CancelTask, RequeueIncompleteTasks, Greeting;
  }
}
