# Verification of the task control protocol

A Dafny 4.11 model of the command plane: a server that stores tasks for nodes, one session per
connected node that hands them out one at a time, and the client that runs them. A task goes
Queued, Dispatched, Running, then Succeeded, Failed or Canceled; a timeout, a new hello or a
disconnect puts it back into the queue, and an HTTP cancel may arrive at any moment.

`dafny verify dfyconfig.toml` checks everything.

## How it is built

- `Prelude`, `Topics`, `Tasks`, `Messages`: machine integers and casts, topic names and routing,
  rows and the SET clauses of the UPDATE statements, frames and conversions.
- `Store` says what each database method does to the two tables, and `Records` checks it column by
  column; `StoreRuns` proves what holds over every interleaving of those methods, whoever calls them.
  `Database` is the object itself, changing its tables in place, proved to do exactly what `Store` says.
- `ServerSession` is one server session cut into steps wherever another task of the server can run:
  between two accesses to the database, and between claim, publish and slot assignment.
  `ClientSession` is the client. `Handlers` (the server session), `ClientLoop` and `Registry` are
  the objects with their fields updated in place; each handler is proved equal to its steps taken
  without interruption, and `Refinement` shows that to be a run of the system.
- `Protocol` composes tables, sessions, signal queues, both directions of every connection, clients,
  and the HTTP handlers between commit and notification. Any part may take the next step, and
  connections, breaks, crashes, clock readings and process exits come from outside.
- `Links` and `StepOps` say which link a step changes and which database operation it performs.
  `Invariant`, `Safety` and `Sent` (any client), `Tokens`, `Readers` and `Handshake` (the repository's
  own client), `Isolation`, `Timeouts`, `Timestamps`, `Catalog`, `Answers`, `Subscriptions`, `Delivery`,
  `Reports`, `Drain` and `Liveness` hold the proofs; `Theorems` states most results over whole runs.

`serial` numbers the claims of a task and travels with assignments, acks, results and cancels as
bookkeeping. On the wire those carry only the task id (assignments also a 32-bit attempt), and no
step decides anything by it.

## What is assumed

- At most one session of a node at a time: a connection opens only after the previous session of
  the node has run its closing requeue, or the server has restarted. The code does not enforce this.
  `Overlap.OverlapStoresStaleResult` says for all frames sent to a second session exactly when the
  first one then stores a result that is not that of the open dispatch, and `Registry.HeardIff` that
  a closing older session takes the newer one off the registry
  (apps/command-server/src/app_state.rs:140-154).
- A failed send, a failed database call in a handler, a decoding error or a closed socket ends the
  session at whatever point its handler has reached (`Break`).
- Frames that a handler sends in a row, with no database access in between, are sent in one step.
- "The repository's own client" means `NoForgery`; results without it hold for arbitrary frames.

## Where the code and its documentation differ

- The long-connection document in `doc/` (section 4) says that the server should not push business
  messages to a node before it has subscribed. The code checks the subscription for assignments
  only, not for cancels. `Subscriptions.PushedUnsubscribed` says exactly when the rule is broken,
  `Subscriptions.CancelWithoutSubscription` gives a run that breaks it, and
  `Subscriptions.OwnClientSubscribesFirst` shows that the repository's client never sees this.
- Section 6 of that document reads the ack as "received and execution begun". The code follows the
  order of its section 7.2, ack before execution, and acks even before it checks the command.
  `Theorems.RunningWithoutProcess` shows a task go over Running to Failed without a process, and
  `ClientSession.AckMeansStart` says exactly when an ack is followed by a start.
- The 409 answer to a refused cancel mentions running tasks (apps/command-server/src/http.rs:268),
  but running tasks are cancelable; only finished ones are refused (`Theorems.CancelRefused`).

## Model

| member | source | states |
|---|---|---|
| `Theorems.SingleInFlight` | apps/command-server/src/session.rs:98-100 | any client: no node, connected or not, ever has two active tasks; an unregistered session has an empty slot; the held task of a registered one is the node's only active task and is never one whose result is ignored |
| `Theorems.FifoCompletion` | apps/command-server/src/db.rs:720-789 | any client: while a task is active every older task of its node is over; a node's completions come in increasing id order, and the log lists exactly the completed rows |
| `Theorems.NoLostWakeup` | apps/command-server/src/http.rs:205-208 | any client: a free, ready, waiting session with a queued task has a TryDispatch pending in its queue or in a committed HTTP create |
| `Theorems.NoLostCancel` | apps/command-server/src/http.rs:270-273 | any client: if the held task is canceled in the table, the cancel was sent, or the signal with the stored reason is queued or about to be |
| `Theorems.CancelRefused` | apps/command-server/src/http.rs:253-271 | a cancel is refused if and only if the task completed or was canceled before; a running one is always canceled |
| `Theorems.RunningWithoutProcess` | apps/command-client/src/ws.rs:270-291 | the ack alone turns the row Running; an assignment that cannot be started goes from Dispatched over Running to Failed and no process ever exists |
| `Theorems.SentAtMostOnce` | apps/command-server/src/session.rs:533-563 | any client, over a whole run with its retries and reconnects: the cancel of one dispatch is sent at most once, and so is its assignment |
| `Theorems.StartedAtMostOnce` | apps/command-client/src/ws.rs:256-294 | over a whole run, at whichever clients and whatever is forged towards the server, at most one process is started for a dispatch |
| `Theorems.OwnSlotAccepted` | apps/command-server/src/session.rs:449-460 | submitting for the slot's task never meets TaskNotFound or NodeMismatch |
| `Theorems.TokenConservation` | apps/command-client/src/ws.rs:256-294 | the tokens on a live link (assignment on its way, run, result on its way back) are exactly the one dispatch the session accounts for, or none |
| `Theorems.ResultFreshness` | apps/command-server/src/session.rs:412-461 | every result ever stored came from the dispatch open at that moment, across timeouts, cancels, retries, crashes and reconnects |
| `Delivery.RowsAreRequests` | apps/command-server/src/db.rs:227-283 | every row of a run holds the node, command, arguments, timeout, audit and time of the create that made it |
| `Delivery.AssignmentsCarryRequests` | crates/command-protocol/src/conversions.rs:49-60 | any client: whatever a session sends, pushed or pulled, carries at most one assignment, with the command, arguments, timeout and time of the create of its task, and the number of its claim modulo 2^32 |
| `Delivery.ProcessesRunRequests` | apps/command-client/src/executor.rs:28-58 | every process of a run is the program of the first command of that name, with its default arguments followed by exactly those of the create |
| `Delivery.CancelsCarryReasons` | apps/command-server/src/session.rs:533-563 | every cancel sent gives the reason stored with the cancel of its task, or says that the task took too long |
| `Reports.RowsTellWhatHappened` | apps/command-client/src/executor.rs:107-132 | with the repository's client every completed row stems from a report on its open dispatch: a process with the requested arguments, whose output it stores and which it calls a success if and only if the process succeeded and no cancel was read, or a start that failed, with its reason |
| `Reports.CanceledRunFails` | apps/command-client/src/ws.rs:231-244 | a run that has read a cancel is reported as a failure with its first reason, however its process exits |
| `Answers.NeverRefused` | apps/command-server/src/session.rs:291-474 | the repository's client is never answered with an error |
| `Answers.RegisteredAsConfigured` | apps/command-server/src/session.rs:305-334 | while its session is registered the node's row holds that client's host name, platform and poll interval |
| `Answers.ErrorsExactly` | apps/command-server/src/session.rs:291-474 | any client: each error is sent exactly for its frames, alone, and nothing else happens then |
| `Answers.SubscriptionAnswered` | apps/command-server/src/session.rs:232-263 | a subscription adds its topics, is acknowledged, and brings the session info if and only if the control topic is subscribed |
| `Answers.HelloRegisters` | apps/command-server/src/session.rs:305-334 | a hello first puts active tasks back into the queue, then the node's row takes its data, keeping commands and first registration time |
| `Answers.CloseRequeues` | apps/command-server/src/session.rs:184-194 | a closing session puts exactly the tasks it leaves active back into the queue, for that reason |
| `Answers.Opening` | apps/command-client/src/ws.rs:43-82 | the client subscribes to both topics, says hello, lists its commands and asks for one task, in this order |
| `Theorems.RepliesExpected` | apps/command-server/src/session.rs:384-435 | an ack or result of the client always matches the slot, is never answered with an error, and changes the row only if it stems from the open dispatch |
| `Theorems.ClientExpects` | apps/command-client/src/ws.rs:231-268 | the client is idle when it reads an assignment, and a cancel read during a run was sent for exactly that dispatch, also after the session has broken |
| `Theorems.CancelFollowsItsAssignment` | apps/command-server/src/session.rs:476-609 | any client: in everything sent on a connection, read or not, each cancel stands directly behind its own assignment, nothing occurs twice, and the unread frames are the rest of it |
| `Theorems.UnreadAssignmentIsNewest` | apps/command-server/src/session.rs:533-563 | with the repository's client nothing follows an unread assignment but its own cancel |
| `Theorems.EveryRunDrains` | apps/command-server/src/session.rs:102-184 | without timeouts, new tasks, disconnects or crashes, but with any number of heartbeats at both ends, a live node takes a bounded number of steps other than heartbeats and their echoes, by a bound no heartbeat raises; when nothing but heartbeats is left to do all its tasks are over, whatever other nodes do |
| `Theorems.EveryFairRunFinishes` | apps/command-client/src/ws.rs:90-137 | in every run of that kind without end in which no part of the node is passed over forever (processes exit, channels are read), from some point on all its tasks are over |
| `Theorems.NeverDead` | apps/command-server/src/session.rs:28-196 | from every state of a run with the repository's client, some continuation without cancels and with at most one reconnection finishes all tasks of a node |
| `Theorems.RunOfTrace` | apps/command-server/src/db.rs:11-13 | the tables of any run are those of some sequence of atomic database operations |
| `Theorems.RowsOfARun` | apps/command-server/src/db.rs:674-992 | in every run rows have the shape of their status, and claims balance retries |
| `Safety.StepKeepsInv` | apps/command-server/src/session.rs:28-196 | every step, forged frames and crashes included, keeps the invariant of tables, log and sessions |
| `Safety.ReceiveOk` | apps/command-server/src/session.rs:219-474 | any received frame keeps that invariant and logs exactly the completion it causes |
| `Safety.ClaimingOk` | apps/command-server/src/session.rs:488-495 | claiming keeps it although the claim statement checks nothing but the queue |
| `Safety.SubmitKeeps` | apps/command-server/src/db.rs:874-941 | storing the result of an active task keeps completion order and appends it to the log |
| `Safety.RetriedSession` | apps/command-server/src/session.rs:595-607 | after the timeout retry the held task is no longer active, so the slot may ignore its result |
| `Safety.HttpCreateOk` | apps/command-server/src/http.rs:183-211 | a create interleaved anywhere keeps the invariant and, if it commits, leaves the queued row with a wake-up of its node pending |
| `Safety.HttpCancelOk` | apps/command-server/src/http.rs:246-275 | a cancel interleaved anywhere, also between claim and slot, keeps the invariant and, if it commits, leaves the signal with the stored reason pending |
| `Isolation.SessionIsolates` | apps/command-server/src/session.rs:219-609 | any session in any state, with any number of others of its node: no frame it receives, no step and no closing requeue touches a row of another node |
| `Isolation.StepIsolates` | apps/command-server/src/session.rs:291-474 | no step of the system about one node touches rows, link or pending notices of another, on any well-formed tables |
| `Tokens.StepKeepsFull` | apps/command-client/src/ws.rs:90-137 | with the repository's client every step keeps each dispatch in exactly one place |
| `Tokens.AssignmentKeeps` | apps/command-client/src/ws.rs:256-294 | an assignment finds the client idle and becomes a run or, at once, a result |
| `Tokens.CancelKeeps` | apps/command-client/src/ws.rs:231-244 | a cancel moves no token and, during a run, is for that run's dispatch |
| `Tokens.CompletionFresh` | apps/command-server/src/session.rs:449-461 | a result that completes a row carries the serial open in that row |
| `Tokens.ReceiveMoves` | apps/command-server/src/session.rs:412-471 | only the awaited result ends a dispatch, and no frame makes the server send an assignment or cancel in the same step |
| `Handshake.StepKeepsDrain` | apps/command-client/src/ws.rs:43-82 | until registration exactly one hello is still to come, and the subscription is on its way or arrived |
| `Drain.ProtocolStepDrops` | apps/command-server/src/session.rs:102-184 | every protocol step of a live node strictly decreases its measure |
| `Drain.DrainingStepWeighs` | apps/command-server/src/session.rs:106-125 | the work left of a node grows by no step, drops by every one that is not a heartbeat or its echo, and a heartbeat costs at most two more steps |
| `Liveness.StepTurns` | apps/command-client/src/ws.rs:90-137 | no heartbeat takes the turn away from the part of a node whose turn gets work done, and each turn taken brings that work nearer |
| `Drain.OtherStepKeeps` | apps/command-server/src/app_state.rs:116-138 | steps about other nodes never increase it |
| `Drain.SomeStepEnabled` | apps/command-server/src/session.rs:476-531 | a live node with an unfinished task can always take a step of its own |
| `Drain.MaximalRunIsDone` | apps/command-server/src/session.rs:476-531 | a run, heartbeats included, after which the node has nothing but heartbeats to do has finished all its tasks |
| `Drain.DrainsOut` | apps/command-server/src/session.rs:476-531 | such a run always exists, with the node's own steps alone |
| `Timeouts.RetriesExactly` | apps/command-server/src/session.rs:575-609 | a heartbeat retries if and only if the held task is active, was created with a timeout, and that many seconds have passed since the slot was occupied, or time is at its end |
| `Timeouts.TimeoutCancels` | apps/command-server/src/session.rs:595-607 | the retried row gives the timeout as its reason, and the client is then sent a cancel with the same reason and a ping, and the slot ignores its result |
| `Timeouts.RetryClosesDispatch` | apps/command-server/src/session.rs:575-609 | a heartbeat changes the tables only for the slot's own open dispatch, past its time, and then only by the retry |
| `Timeouts.TimeoutNotEarly` | apps/command-server/src/session.rs:591-593 | if no session sees its own clock go back, the retry comes no earlier than the row's dispatch time plus the row's timeout, or at the end of time |
| `Timeouts.SlotCountsFromDispatch` | apps/command-server/src/session.rs:489-495 | the time a slot counts from lies between the claim and the session's last clock reading |
| `Timestamps.TimestampsOfRun` | apps/command-server/src/db.rs:769-929 | in every such run a completed task has dispatched ≤ acked = started ≤ finished, with or without an ack, whatever the clock did between sessions |
| `Timeouts.TimeoutOncePerDispatch` | apps/command-server/src/session.rs:587-607 | two timeout retries of a task never close the same dispatch, whatever happens in between |
| `StoreRuns.RowShapes` | apps/command-server/src/db.rs:674-992 | after any database operations each row has exactly the null pattern of its status |
| `StoreRuns.TerminalAbsorbs` | apps/command-server/src/db.rs:874-992 | a finished row never changes again, although three of the statements filter by id only |
| `StoreRuns.ApplySteps` | apps/command-server/src/db.rs:674-992 | one operation moves a row along the life cycle only, keeps its request, and counts a retry exactly when it puts the row back into the queue |
| `StoreRuns.ApplyIsolates` | apps/command-server/src/db.rs:795-900 | an operation for one node changes no row of another, whatever ids it names |
| `StoreRuns.AttemptAccounting` | apps/command-server/src/db.rs:687-687 | whatever its status, a task was claimed retry_count times, plus once if dispatched_at is set: none when queued, once when active or completed |
| `StoreRuns.KthClaimIsAttemptK` | crates/command-protocol/src/conversions.rs:49-60 | the assignment made from the k-th claim of a task carries attempt k exactly when k fits in 32 bits |
| `StoreRuns.TimestampOrder` | apps/command-server/src/db.rs:795-941 | the same for any interleaving of database operations whose clock does not go back between two requeues of the node |
| `Store.GuardsAreExact` | apps/command-server/src/db.rs:674-735 | the claim query finds a task iff one is queued, and the finished_at guard of the requeue holds back no active row |
| `Records.RegisterRecords` | apps/command-server/src/db.rs:112-170 | every column of the node's row after a registration, and that nothing else changes |
| `Records.CommandsRecord` | apps/command-server/src/db.rs:202-225 | likewise for a catalog, and the answer for an unknown node |
| `Records.CreateRecords` | apps/command-server/src/db.rs:227-283 | the condition of each outcome, and every column of the new row |
| `Records.ClaimRecords` | apps/command-server/src/db.rs:704-793 | the condition of each outcome, the least queued row with its columns, and each field handed out |
| `Records.AckRecords` | apps/command-server/src/db.rs:795-829 | when a row starts running, with which times, and that nothing else changes |
| `Records.RetryRecords` | apps/command-server/src/db.rs:831-872 | when a row is retried, its columns and reason, and that nothing else changes |
| `Records.RequeueRecords` | apps/command-server/src/db.rs:674-702 | the same for each row of a requeue |
| `Records.SubmitRecords` | apps/command-server/src/db.rs:874-941 | the condition of each outcome, and the finished row with its result and times |
| `Records.CancelRecords` | apps/command-server/src/db.rs:943-992 | the condition of each outcome, and the canceled row with its reason, audit and times |
| `Tasks.StatusColumnRoundTrip` | apps/command-server/src/db.rs:1208-1229 | the status column parses back to what was written and nothing else does |
| `Prelude.AsI64` | apps/command-server/src/db.rs:273-273 | storing a u64 in a signed column and reading it back is the identity |
| `Topics.TopicInjective` | crates/command-protocol/src/topic.rs:1-19 | different nodes or kinds never share a topic, ids with '/' included |
| `Topics.TopicsOf` | crates/command-protocol/src/topic.rs:1-19 | the five topics of a node as they are spelled |
| `Topics.RouteExact` | apps/command-server/src/session.rs:303-412 | each topic test holds for exactly its own topic, so their order is irrelevant, and another node's topics match none |
| `Dispatch.PushExactly` | apps/command-server/src/session.rs:476-498 | a push happens iff registered, subscribed, free and something is queued, and takes the oldest |
| `Dispatch.PullExactly` | apps/command-server/src/session.rs:500-531 | a pull yields a task iff it names the node, asks for at least one, and the session is registered and free with something queued; otherwise one empty response or error |
| `Dispatch.PullIgnoresSubscriptions` | apps/command-server/src/session.rs:513-528 | a session without any subscription still gets an assignment by pulling |
| `Subscriptions.PushedUnsubscribed` | apps/command-server/src/session.rs:476-563 | any client: a session is pushed something on a topic it has not subscribed to if and only if a cancel is due while the control topic is not subscribed |
| `Subscriptions.CancelWithoutSubscription` | apps/command-server/src/session.rs:533-563 | a run in which that happens: a client registers and pulls without ever subscribing, and is sent the cancel of its task |
| `Subscriptions.OwnClientSubscribesFirst` | apps/command-client/src/ws.rs:43-82 | with the repository's client nothing is ever pushed on a topic its session has not subscribed to |
| `Catalog.CatalogReceived` | apps/command-server/src/session.rs:336-355 | the client is registered by the time its catalog is read, so the catalog is stored and never answered with an error |
| `Catalog.CatalogHolds` | apps/command-server/src/db.rs:202-248 | over runs, from then until the node connects again, the table holds this catalog and a request is accepted if and only if this client would start it |
| `ClientSession.WhitelistAgreement` | apps/command-client/src/executor.rs:28-58 | server acceptance, each refusal, and the client's own checks agree request by request, duplicates included; argv is the defaults followed by the request's arguments |
| `ClientSession.FindCommutes` | crates/command-protocol/src/conversions.rs:4-24 | first-match lookup by name commutes with the catalog conversions |
| `ClientSession.FirstReasonWins` | apps/command-client/src/executor.rs:91-132 | a run canceled any number of times reports failure with the first reason |
| `ClientSession.CancelTakesEffect` | apps/command-client/src/ws.rs:231-244 | a cancel reaches exactly the run it names, which keeps an earlier reason or takes this one or the default |
| `ClientSession.ReportSays` | apps/command-client/src/executor.rs:107-132 | a report says what became of the process, field by field, and a request for one task follows |
| `ClientSession.AckMeansStart` | apps/command-client/src/ws.rs:256-294 | an idle client acks every assignment, and a process, the configured one, exists then if and only if the first command of that name takes the arguments and spawning works; otherwise a failure with the reason follows at once |
| `OutputCapture.ReadOutput` | apps/command-client/src/executor.rs:148-184 | however the stream is split into reads, exactly its first 65536 bytes are kept, and the flag is set iff there was more |
| `Overlap.OverlapStoresStaleResult` | apps/command-server/src/session.rs:311-334 | in any reached state where a session waits for its open dispatch, after another socket of the node is served any frames whatever: the first result is stored if and only if those frames leave the task alone or make the second session take it, and is stale if and only if they make it take it |
| `Overlap.TakenIffAsked` | apps/command-server/src/session.rs:476-531 | with one hello and no result for the task, the second session takes it if and only if it subscribes to the task topic, before or after, or pulls after |
| `Registry.HeardIff` | apps/command-server/src/app_state.rs:140-154 | a session is notified iff its insertion is the last registry change of its node |
| `Registry.AppState.NotifyNode` | apps/command-server/src/app_state.rs:116-126 | the signal reaches exactly that session's queue, or none |
| `Registry.AppState.NotifyTaskCancel` | apps/command-server/src/app_state.rs:128-138 | likewise for a cancel with its id and reason |
| `Database.Database.RegisterNode` | apps/command-server/src/db.rs:112-170 | upserts the node, keeping first registration time and, for an empty list, the known commands |
| `Database.Database.UpdateNodeCommands` | apps/command-server/src/db.rs:202-225 | replaces the commands of a known node and says whether there was one |
| `Database.Database.CreateTask` | apps/command-server/src/db.rs:227-283 | the checks in order, then one new queued row under the next id |
| `Database.Database.ClaimTask` | apps/command-server/src/db.rs:704-793 | the scan finds the node's least queued id, dispatches that row and hands it out |
| `Database.Database.AcknowledgeTask` | apps/command-server/src/db.rs:795-829 | only a dispatched row of the node starts running |
| `Database.Database.RetryTask` | apps/command-server/src/db.rs:831-872 | only an active row of the node goes back to the queue |
| `Database.Database.RequeueIncompleteTasks` | apps/command-server/src/db.rs:674-702 | the update over all rows requeues exactly the node's unfinished active ones |
| `Database.Database.SubmitTaskResult` | apps/command-server/src/db.rs:874-941 | outcome and row change for every combination of missing, foreign, closed and active task |
| `Database.Database.CancelTask` | apps/command-server/src/db.rs:943-992 | any unfinished row becomes canceled, finished ones are refused |
| `Handlers.NodeSession.HandleBinaryMessage` | apps/command-server/src/session.rs:219-289 | on the wire topics, the handler leaves tables, session and frames exactly as the steps of the session do |
| `Handlers.NodeSession.HandlePublish` | apps/command-server/src/session.rs:291-474 | the same for a publish, whose string tests agree with the routing |
| `Handlers.NodeSession.TryDispatchNextTask` | apps/command-server/src/session.rs:476-498 | the same for claim, publish and slot |
| `Handlers.NodeSession.RespondToTaskPull` | apps/command-server/src/session.rs:500-531 | the same for a pull request |
| `Handlers.NodeSession.HandleCancelSignal` | apps/command-server/src/session.rs:533-563 | the same for a cancel signal |
| `Handlers.NodeSession.HeartbeatTick` | apps/command-server/src/session.rs:106-126 | the same for the timeout check and ping |
| `Refinement.SettleIsRun` | apps/command-server/src/session.rs:476-498 | an uninterrupted handler is a run of the system made of that session's steps alone |
| `ClientLoop.Loop.HandleBinaryMessage` | apps/command-client/src/ws.rs:171-229 | on the wire topics, the client's state and replies are those of its step in the system |
| `ClientLoop.Loop.StartTaskAssignment` | apps/command-client/src/ws.rs:256-294 | ack first, then a run or a failed result; nothing while another task runs |
| `ClientLoop.Loop.OnProgressTick` | apps/command-client/src/ws.rs:102-108 | a finished process is reported and followed by a pull, anything else changes nothing |
| `ClientLoop.Loop.Greet` | apps/command-client/src/ws.rs:43-82 | subscribe, hello, catalog and pull, in this order |

## Left out

- Two live sessions of one node: assumed away in `Protocol`, with the consequences shown in `Overlap` and `Registry`.
- The connect and token checks before a session opens, bootstrap over HTTP, admin login and the console pages.
- The session event log and the list queries, which would restate ORDER BY and LIMIT.
- Schema creation and the migration of legacy tables; the tables start empty.
- The byte encodings (Protobuf, JSON, WebSocket) and SQLite itself: messages and rows are values, and each database method is one step.
- Process spawning, exit codes, durations, lossy decoding, and errors of waiting for a process or reading its output: they are inputs.
- Retry counts beyond 2^63, where SQLite would leave integers: the column is a natural number here.
