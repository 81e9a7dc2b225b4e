/** What each database method leaves in the tables, column by column, with times and widths read
    back as the program reads them, and which outcome it reports. Nothing here mentions how the
    statements are composed; `Store` is proved against it. */
module Records {
  import opened Prelude
  import opened Tasks
  import opened Store

  /** The column holds this clock reading or number. */
  predicate Holds(column: Option<I64>, value: U64) {
    column.Some? && AsU64(column.value) == value
  }

  predicate HoldsOpt(column: Option<I64>, value: Option<U64>) {
    match value case None => column.None? case Some(v) => Holds(column, v)
  }

  predicate NeverCanceled(row: TaskRow) {
    row.canceledAt.None? && row.cancelReason.None? && row.canceledVia.None? && row.canceledBy.None?
  }

  /** The columns a create fills and nothing changes. */
  predicate SameRequest(row: TaskRow, row': TaskRow) {
    row'.nodeId == row.nodeId && row'.commandName == row.commandName && row'.args == row.args
    && row'.createdAt == row.createdAt && row'.createdVia == row.createdVia && row'.createdBy == row.createdBy
    && row'.timeoutSecs == row.timeoutSecs
  }

  /** At most row `id` of the tasks differs. */
  predicate OnlyRow(s: Store, s': Store, id: nat) {
    s'.nextId == s.nextId && s'.tasks.Keys == s.tasks.Keys
    && forall i | i in s.tasks && i != id :: s'.tasks[i] == s.tasks[i]
  }

  /** At most row `node` of the nodes differs. */
  predicate OnlyNode(s: Store, s': Store, node: string) {
    s'.tasks == s.tasks && s'.nextId == s.nextId
    && s'.nodes.Keys == s.nodes.Keys + {node}
    && forall n | n in s.nodes && n != node :: s'.nodes[n] == s.nodes[n]
  }

  // ----- nodes

  lemma RegisterRecords(s: Store, reg: NodeRegistration, now: U64)
    ensures var s' := RegisterNode(s, reg, now);
            && OnlyNode(s, s', reg.nodeId) && reg.nodeId in s'.nodes
            && var row := s'.nodes[reg.nodeId];
            && row.hostname == reg.hostname && row.platform == reg.platform
            && AsU64(row.pollIntervalSecs) == reg.pollIntervalSecs && AsU64(row.lastSeen) == now
            && (reg.nodeId in s.nodes ==> row.registeredAt == s.nodes[reg.nodeId].registeredAt)
            && (reg.nodeId !in s.nodes ==> AsU64(row.registeredAt) == now)
            && (reg.commands != [] ==> row.commands == reg.commands)
            && (reg.commands == [] && reg.nodeId in s.nodes ==> row.commands == s.nodes[reg.nodeId].commands)
            && (reg.commands == [] && reg.nodeId !in s.nodes ==> row.commands == [])
  {
  }

  lemma CommandsRecord(s: Store, node: string, commands: seq<CommandDescriptor>, now: U64)
    ensures var (s', updated) := UpdateNodeCommands(s, node, commands, now);
            && (updated <==> node in s.nodes) && (!updated ==> s' == s)
            && (updated ==>
                  && OnlyNode(s, s', node) && node in s'.nodes
                  && s'.nodes[node].commands == commands && AsU64(s'.nodes[node].lastSeen) == now
                  && s'.nodes[node] == s.nodes[node].(commands := commands, lastSeen := s'.nodes[node].lastSeen))
  {
  }

  // ----- tasks

  /** The first command of that name, at position `i`. */
  predicate FirstNamed(commands: seq<CommandDescriptor>, name: string, i: nat) {
    i < |commands| && commands[i].name == name && forall j | 0 <= j < i :: commands[j].name != name
  }

  lemma {:induction false} FindIsFirst(commands: seq<CommandDescriptor>, name: string)
    ensures match FindCommand(commands, name)
            case None => forall i | 0 <= i < |commands| :: commands[i].name != name
            case Some(command) => exists i: nat :: FirstNamed(commands, name, i) && commands[i] == command
  {
    if commands != [] {
      if commands[0].name == name { assert FirstNamed(commands, name, 0); }
      else {
        FindIsFirst(commands[1..], name);
        var found := FindCommand(commands[1..], name);
        if found.Some? {
          var i: nat :| FirstNamed(commands[1..], name, i) && commands[1..][i] == found.value;
          forall j | 0 <= j < i + 1 ensures commands[j].name != name { if j > 0 { assert commands[j] == commands[1..][j - 1]; } }
          assert FirstNamed(commands, name, i + 1);
        }
      }
    }
  }

  /** A fresh row holds the request as it was made. */
  predicate Requested(row: TaskRow, request: CreateTaskRequest, audit: TaskAudit, now: U64) {
    && row.nodeId == request.nodeId && row.commandName == request.commandName && row.args == request.args
    && HoldsOpt(row.timeoutSecs, request.timeoutSecs) && AsU64(row.createdAt) == now
    && row.createdVia == Some(audit.source) && row.createdBy == audit.actor
  }

  lemma CreateRecords(s: Store, request: CreateTaskRequest, audit: TaskAudit, now: U64)
    requires s.nextId !in s.tasks
    ensures var (s', outcome) := CreateTask(s, request, audit, now);
            && (outcome.NodeNotFound? <==> request.nodeId !in s.nodes)
            && (request.nodeId in s.nodes ==>
                  var commands, name := s.nodes[request.nodeId].commands, request.commandName;
                  && (outcome.UnsupportedCommand? <==> forall i | 0 <= i < |commands| :: commands[i].name != name)
                  && (outcome.ExtraArgsNotAllowed? <==>
                        exists i: nat :: FirstNamed(commands, name, i) && !commands[i].allowExtraArgs && request.args != []))
            && (!outcome.Created? ==> s' == s)
            && (outcome.Created? ==>
                  && outcome.taskId == s.nextId && s'.nextId == s.nextId + 1 && s'.nodes == s.nodes
                  && s'.tasks.Keys == s.tasks.Keys + {s.nextId} && (forall i | i in s.tasks :: s'.tasks[i] == s.tasks[i])
                  && var row := s'.tasks[s.nextId];
                  && Requested(row, request, audit, now) && row.status.Queued? && NeverCanceled(row)
                  && row.dispatchedAt.None? && row.ackedAt.None? && row.startedAt.None? && row.finishedAt.None?
                  && row.retryCount == 0 && row.retryReason.None? && row.result.None?)
  {
    if request.nodeId in s.nodes {
      FindIsFirst(s.nodes[request.nodeId].commands, request.commandName);
    }
  }

  /** What a claim hands out is the row's request, under its id, with the low 32 bits of its retries. */
  predicate HandsOut(task: PendingTask, id: nat, row: TaskRow) {
    && task.taskId == id && task.nodeId == row.nodeId && task.commandName == row.commandName && task.args == row.args
    && task.createdAt == AsU64(row.createdAt) && HoldsOpt(row.timeoutSecs, task.timeoutSecs)
    && task.retryCount == row.retryCount % 0x1_0000_0000
  }

  lemma ClaimRecords(s: Store, node: string, now: U64)
    requires StoreOk(s)
    ensures var (s', outcome) := ClaimTask(s, node, now);
            && (outcome.UnknownNode? <==> node !in s.nodes) && (outcome.UnknownNode? ==> s' == s)
            && (outcome.NoTask? <==> node in s.nodes && forall id: nat :: !QueuedAt(s, node, id))
            && (outcome.NoTask? ==> s'.tasks == s.tasks && s'.nextId == s.nextId)
            && (!outcome.UnknownNode? ==>
                  && s'.nodes.Keys == s.nodes.Keys && (forall n | n in s.nodes && n != node :: s'.nodes[n] == s.nodes[n])
                  && AsU64(s'.nodes[node].lastSeen) == now
                  && s'.nodes[node] == s.nodes[node].(lastSeen := s'.nodes[node].lastSeen))
            && (outcome.Claimed? ==>
                  var id := outcome.task.taskId;
                  && QueuedAt(s, node, id) && (forall i: nat | i < id :: !QueuedAt(s, node, i)) && OnlyRow(s, s', id)
                  && HandsOut(outcome.task, id, s.tasks[id])
                  && var row' := s'.tasks[id];
                  && SameRequest(s.tasks[id], row') && row'.status.Dispatched? && Holds(row'.dispatchedAt, now)
                  && row'.ackedAt.None? && row'.startedAt.None? && row'.finishedAt.None? && NeverCanceled(row') && row'.result.None?
                  && row'.retryCount == s.tasks[id].retryCount && row'.retryReason == s.tasks[id].retryReason)
  {
    hide RowOk;
    GuardsAreExact(s, node, "");
    if node !in s.nodes {
      forall id: nat ensures !QueuedAt(s, node, id) { assert id in s.tasks ==> s.tasks[id].nodeId in s.nodes; }
    }
  }

  lemma AckRecords(s: Store, id: nat, node: string, now: U64)
    ensures var s' := AcknowledgeTask(s, id, node, now);
            if id in s.tasks && s.tasks[id].nodeId == node && s.tasks[id].status.Dispatched? then
              && OnlyRow(s, s', id) && s'.nodes == s.nodes
              && var row, row' := s.tasks[id], s'.tasks[id];
              && Holds(row'.ackedAt, now) && (row.startedAt.None? ==> Holds(row'.startedAt, now))
              && (row.startedAt.Some? ==> row'.startedAt == row.startedAt)
              && row' == row.(status := Running, ackedAt := row'.ackedAt, startedAt := row'.startedAt)
            else s' == s
  {
  }

  lemma RetryRecords(s: Store, id: nat, node: string, reason: string)
    ensures var s' := RetryTask(s, id, node, reason);
            if id in s.tasks && s.tasks[id].nodeId == node && (s.tasks[id].status.Dispatched? || s.tasks[id].status.Running?) then
              && OnlyRow(s, s', id) && s'.nodes == s.nodes
              && var row, row' := s.tasks[id], s'.tasks[id];
              && SameRequest(row, row') && row'.status.Queued? && NeverCanceled(row') && row'.result.None?
              && row'.dispatchedAt.None? && row'.ackedAt.None? && row'.startedAt.None? && row'.finishedAt.None?
              && row'.retryCount == row.retryCount + 1 && row'.retryReason == Some(reason)
            else s' == s
  {
  }

  lemma RequeueRecords(s: Store, node: string, reason: string, id: nat)
    requires id in s.tasks
    ensures var s' := RequeueIncompleteTasks(s, node, reason);
            && s'.nodes == s.nodes && s'.nextId == s.nextId && s'.tasks.Keys == s.tasks.Keys
            && var row, row' := s.tasks[id], s'.tasks[id];
            if row.nodeId == node && (row.status.Dispatched? || row.status.Running?) && row.finishedAt.None? then
              && SameRequest(row, row') && row'.status.Queued? && NeverCanceled(row')
              && row'.dispatchedAt.None? && row'.ackedAt.None? && row'.startedAt.None?
              && row'.finishedAt == row.finishedAt && row'.result == row.result
              && row'.retryCount == row.retryCount + 1 && row'.retryReason == Some(reason)
            else row' == row
  {
  }

  lemma SubmitRecords(s: Store, id: nat, node: string, result: ExecutionResult, now: U64)
    ensures var (s', outcome) := SubmitTaskResult(s, id, node, result, now);
            && (outcome.TaskNotFound? <==> id !in s.tasks)
            && (outcome.NodeMismatch? <==> id in s.tasks && s.tasks[id].nodeId != node)
            && (outcome.Updated? ==> id in s'.tasks && outcome.row == s'.tasks[id])
            && if id in s.tasks && s.tasks[id].nodeId == node && (s.tasks[id].status.Dispatched? || s.tasks[id].status.Running?) then
                 && OnlyRow(s, s', id) && s'.nodes == s.nodes
                 && var row, row' := s.tasks[id], s'.tasks[id];
                 && Holds(row'.finishedAt, now) && row'.result == Some(result)
                 && row'.status == (if result.success then Succeeded else Failed)
                 && (if row.ackedAt.None? then Holds(row'.ackedAt, now) else row'.ackedAt == row.ackedAt)
                 && (if row.startedAt.None? then Holds(row'.startedAt, now) else row'.startedAt == row.startedAt)
                 && row' == row.(status := row'.status, ackedAt := row'.ackedAt, startedAt := row'.startedAt,
                                 finishedAt := row'.finishedAt, result := row'.result)
               else s' == s
  {
  }

  lemma CancelRecords(s: Store, id: nat, reason: Option<string>, audit: TaskAudit, now: U64)
    ensures var (s', outcome) := CancelTask(s, id, reason, audit, now);
            && (outcome.NotFound? <==> id !in s.tasks)
            && (outcome.NotCancelable? <==>
                  id in s.tasks && (s.tasks[id].status.Succeeded? || s.tasks[id].status.Failed? || s.tasks[id].status.Canceled?))
            && (!outcome.CanceledTask? ==> s' == s)
            && (outcome.CanceledTask? ==>
                  && OnlyRow(s, s', id) && s'.nodes == s.nodes
                  && var row, row' := s.tasks[id], s'.tasks[id];
                  && outcome.row == row' && row'.status.Canceled?
                  && Holds(row'.finishedAt, now) && Holds(row'.canceledAt, now)
                  && row'.cancelReason == (if reason.Some? then reason else Some("canceled by server"))
                  && row'.canceledVia == Some(audit.source) && row'.canceledBy == audit.actor
                  && row' == row.(status := Canceled, finishedAt := row'.finishedAt, canceledAt := row'.canceledAt,
                                  cancelReason := row'.cancelReason, canceledVia := row'.canceledVia, canceledBy := row'.canceledBy))
  {
  }
}
