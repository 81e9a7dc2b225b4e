/** The database object: its methods change the two tables in place, each exactly as `Store` says. */
module Database {
  import opened Prelude
  import opened Tasks
  import Spec = Store

  /** The rows after the update has visited those below `id`. */
  ghost predicate RequeuedBelow(before: Spec.Store, node: string, reason: string, rows: map<nat, TaskRow>, id: nat) {
    rows.Keys == before.tasks.Keys
    && forall i | i in before.tasks ::
         rows[i] == if i < id && Spec.Requeueable(before, node, i) then RequeuedRow(before.tasks[i], reason) else before.tasks[i]
  }

  lemma RequeuedAll(before: Spec.Store, node: string, reason: string, rows: map<nat, TaskRow>)
    requires RequeuedBelow(before, node, reason, rows, before.nextId)
    requires forall id | id in before.tasks :: id < before.nextId
    ensures rows == Spec.RequeueIncompleteTasks(before, node, reason).tasks
  {
  }

  lemma RequeuedNone(before: Spec.Store, node: string, reason: string)
    ensures RequeuedBelow(before, node, reason, before.tasks, 0)
  {
  }

  /** Visiting one more row. */
  lemma RequeuedNext(before: Spec.Store, node: string, reason: string, rows: map<nat, TaskRow>, id: nat)
    requires RequeuedBelow(before, node, reason, rows, id)
    ensures var visit := id in rows && rows[id].nodeId == node && Active(rows[id]) && rows[id].finishedAt.None?;
            RequeuedBelow(before, node, reason, if visit then rows[id := RequeuedRow(rows[id], reason)] else rows, id + 1)
  {
    hide RequeuedRow;
  }

  class Database {
    var nodes: map<string, NodeRow>
    var tasks: map<nat, TaskRow>
    var nextId: nat

    function Contents(): Spec.Store
      reads this
    {
      Spec.Store(nodes, tasks, nextId)
    }

    /** The counter is ahead of every id in use. */
    predicate Valid()
      reads this
    {
      forall id | id in tasks :: id < nextId
    }

    constructor ()
      ensures Contents() == Spec.EMPTY && Valid()
    {
      nodes, tasks, nextId := map[], map[], 1;
    }

    method RegisterNode(reg: NodeRegistration, now: U64)
      requires Valid()
      modifies this
      ensures Valid()
      ensures Contents() == Spec.RegisterNode(old(Contents()), reg, now)
    {
      var commands := reg.commands;
      if commands == [] && reg.nodeId in nodes { commands := nodes[reg.nodeId].commands; }
      var registeredAt := AsI64(now);
      if reg.nodeId in nodes { registeredAt := nodes[reg.nodeId].registeredAt; }
      nodes := nodes[reg.nodeId := NodeRow(reg.hostname, reg.platform, AsI64(reg.pollIntervalSecs),
                                           registeredAt, AsI64(now), commands)];
    }

    method UpdateNodeCommands(node: string, commands: seq<CommandDescriptor>, now: U64) returns (updated: bool)
      requires Valid()
      modifies this
      ensures Valid()
      ensures (Contents(), updated) == Spec.UpdateNodeCommands(old(Contents()), node, commands, now)
    {
      updated := node in nodes;
      if updated { nodes := nodes[node := nodes[node].(commands := commands, lastSeen := AsI64(now))]; }
    }

    /** `iter().find(…)` over the commands of a node. */
    static method FindCommand(commands: seq<CommandDescriptor>, name: string) returns (found: Option<CommandDescriptor>)
      ensures found == Spec.FindCommand(commands, name)
    {
      var i := 0;
      while i < |commands|
        invariant 0 <= i <= |commands| && Spec.FindCommand(commands, name) == Spec.FindCommand(commands[i..], name)
      {
        if commands[i].name == name { return Some(commands[i]); }
        i := i + 1;
      }
      found := None;
    }

    method CreateTask(request: CreateTaskRequest, audit: TaskAudit, now: U64) returns (outcome: Spec.CreateOutcome)
      requires Valid()
      modifies this
      ensures Valid()
      ensures (Contents(), outcome) == Spec.CreateTask(old(Contents()), request, audit, now)
    {
      if request.nodeId !in nodes { return Spec.NodeNotFound; }
      var command := FindCommand(nodes[request.nodeId].commands, request.commandName);
      if command.None? { return Spec.UnsupportedCommand; }
      if !command.value.allowExtraArgs && request.args != [] { return Spec.ExtraArgsNotAllowed; }
      var id := nextId;
      tasks, nextId := tasks[id := QueuedRow(request, audit, now)], id + 1;
      outcome := Spec.Created(id);
    }

    /** Scans for the node's first queued task, marks it dispatched and hands it out. */
    method ClaimTask(node: string, now: U64) returns (outcome: Spec.ClaimOutcome)
      requires Valid()
      modifies this
      ensures Valid()
      ensures (Contents(), outcome) == Spec.ClaimTask(old(Contents()), node, now)
    {
      if node !in nodes { return Spec.UnknownNode; }
      ghost var before := Contents();
      nodes := nodes[node := nodes[node].(lastSeen := AsI64(now))];
      var id := 0;
      while id < nextId && !(id in tasks && tasks[id].nodeId == node && tasks[id].status.Queued?)
        invariant Contents() == Spec.TouchNode(before, node, now)
        invariant Spec.LeastQueued(before, node, 0) == Spec.LeastQueued(before, node, id)
        decreases nextId - id
      {
        id := id + 1;
      }
      if nextId <= id { return Spec.NoTask; }
      outcome := Spec.Claimed(ReadPending(id, tasks[id]));
      tasks := tasks[id := ClaimedRow(tasks[id], now)];
    }

    method AcknowledgeTask(id: nat, node: string, now: U64) returns (row: Option<TaskRow>)
      requires Valid()
      modifies this
      ensures Valid()
      ensures Contents() == Spec.AcknowledgeTask(old(Contents()), id, node, now)
      ensures row.Some? <==> old(Spec.Owned(Contents(), node, id) && tasks[id].status.Dispatched?)
      ensures row.Some? ==> id in tasks && row.value == tasks[id]
    {
      if id !in tasks || tasks[id].nodeId != node || !tasks[id].status.Dispatched? { return None; }
      tasks := tasks[id := AckedRow(tasks[id], now)];
      row := Some(tasks[id]);
    }

    method RetryTask(id: nat, node: string, reason: string) returns (row: Option<TaskRow>)
      requires Valid()
      modifies this
      ensures Valid()
      ensures Contents() == Spec.RetryTask(old(Contents()), id, node, reason)
      ensures row.Some? <==> old(Spec.ActiveAt(Contents(), node, id))
      ensures row.Some? ==> id in tasks && row.value == tasks[id]
    {
      if id !in tasks || tasks[id].nodeId != node || !Active(tasks[id]) { return None; }
      tasks := tasks[id := RetriedRow(tasks[id], reason)];
      row := Some(tasks[id]);
    }

    /** Visits every row and puts the node's unfinished ones back into the queue. */
    method RequeueIncompleteTasks(node: string, reason: string)
      requires Valid()
      modifies this
      ensures Valid()
      ensures Contents() == Spec.RequeueIncompleteTasks(old(Contents()), node, reason)
    {
      hide RequeuedBelow, RequeuedRow;
      ghost var before := Contents();
      RequeuedNone(before, node, reason);
      var id := 0;
      while id < nextId
        invariant 0 <= id <= nextId && nodes == before.nodes && nextId == before.nextId
        invariant RequeuedBelow(before, node, reason, tasks, id)
      {
        RequeuedNext(before, node, reason, tasks, id);
        if id in tasks && tasks[id].nodeId == node && Active(tasks[id]) && tasks[id].finishedAt.None? {
          tasks := tasks[id := RequeuedRow(tasks[id], reason)];
        }
        id := id + 1;
      }
      RequeuedAll(before, node, reason, tasks);
    }

    method SubmitTaskResult(id: nat, node: string, result: ExecutionResult, now: U64) returns (outcome: Spec.SubmitOutcome)
      requires Valid()
      modifies this
      ensures Valid()
      ensures (Contents(), outcome) == Spec.SubmitTaskResult(old(Contents()), id, node, result, now)
    {
      if id !in tasks { return Spec.TaskNotFound; }
      if tasks[id].nodeId != node { return Spec.NodeMismatch; }
      if Active(tasks[id]) { tasks := tasks[id := FinishedRow(tasks[id], result, now)]; }
      outcome := Spec.Updated(tasks[id]);
    }

    method CancelTask(id: nat, reason: Option<string>, audit: TaskAudit, now: U64) returns (outcome: Spec.CancelOutcome)
      requires Valid()
      modifies this
      ensures Valid()
      ensures (Contents(), outcome) == Spec.CancelTask(old(Contents()), id, reason, audit, now)
    {
      if id !in tasks { return Spec.NotFound; }
      if Terminal(tasks[id]) { return Spec.NotCancelable; }
      tasks := tasks[id := CanceledRow(tasks[id], reason, audit, now)];
      outcome := Spec.CanceledTask(tasks[id]);
    }
  }
}
