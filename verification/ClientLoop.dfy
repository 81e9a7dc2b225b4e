/** The client's session loop as the object it is: one running task, set and taken in place. */
module ClientLoop {
  import opened Prelude
  import opened Topics
  import opened Messages
  import opened ServerSession
  import opened ClientSession
  import Handlers

  class Loop {
    const config: ClientConfig
    var running: Option<RunningTask>
    var sent: seq<Frame<string>>

    function Sent(): seq<Frame<Topic>>
      reads this
    {
      RouteFrames(config.nodeId, sent)
    }

    constructor (config: ClientConfig)
      ensures this.config == config && running.None? && sent == []
    {
      this.config := config;
      running, sent := None, [];
    }

    method SendPublish(kind: Topic, payload: Payload)
      requires kind != Elsewhere
      modifies this`sent
      ensures Sent() == old(Sent()) + [Publish(kind, payload)]
    {
      var frame := Publish(TopicName(config.nodeId, kind), payload);
      Handlers.RouteNames(config.nodeId);
      Handlers.RouteAppend(config.nodeId, sent, frame);
      sent := sent + [frame];
    }

    /** The frames between CONNACK and the loop. */
    method Greet()
      modifies this`sent
      ensures Sent() == old(Sent()) + [Greeting(config, 0), Greeting(config, 1), Greeting(config, 2), Greeting(config, 3)]
    {
      hide TopicName, Route, AdvertisedCatalog;
      var topics := [TopicName(config.nodeId, OnTask), TopicName(config.nodeId, OnControl)];
      Handlers.RouteNames(config.nodeId);
      Handlers.RouteAppend(config.nodeId, sent, Subscribe(topics));
      assert RouteFrame(config.nodeId, Subscribe(topics)).topics == [OnTask, OnControl];
      sent := sent + [Subscribe(topics)];
      SendPublish(OnHello, ClientHello(config.nodeId, config.hostname, config.platform, config.pollIntervalSecs));
      SendPublish(OnHello, CommandCatalog(AdvertisedCatalog(config)));
      SendPublish(OnControl, TaskPullRequest(config.nodeId, 1));
    }

    method StartTaskAssignment(task: TaskAssignment, spawnError: Option<string>, elapsedMs: U64)
      modifies this
      ensures var e := StartAssignment(config, old(running), task, spawnError, elapsedMs);
              running == e.running && Sent() == old(Sent()) + e.sent
    {
      hide RouteFrames, StartCommand;
      assert Sent() + [] == Sent();
      if running.Some? { return; }
      SendPublish(OnAck, TaskAck(task.taskId, task.serial));
      match StartCommand(config, task.commandName, task.args, spawnError, elapsedMs)
      case Started(program, argv) => running := Some(RunningTask(task.taskId, program, argv, None, None, task.serial));
      case Rejected(result) => SendPublish(OnResult, TaskResult(task.taskId, result, task.serial));
    }

    method HandleTaskCancel(taskId: nat, reason: Option<string>)
      modifies this`running
      ensures running == HandleCancel(old(running), taskId, reason)
    {
      if running.None? || running.value.taskId != taskId { return; }
      if running.value.cancelReason.None? {
        running := Some(running.value.(cancelReason := if reason.Some? then reason else Some(ClientSession.REPORTED_CANCEL_REASON)));
      }
    }

    method HandlePublish(topic: string, payload: Payload, spawnError: Option<string>, elapsedMs: U64)
      modifies this
      ensures var e := ClientReceive(config, old(running), Publish(Route(config.nodeId, topic), payload), spawnError, elapsedMs);
              running == e.running && Sent() == old(Sent()) + e.sent
    {
      RouteExact(config.nodeId, topic);
      hide RouteFrames, StartAssignment, Route, TopicName;
      assert Sent() + [] == Sent();
      if topic == TopicName(config.nodeId, OnTask) {
        if payload.Assign? { StartTaskAssignment(payload.assignment, spawnError, elapsedMs); }
      } else if topic == TopicName(config.nodeId, OnControl) {
        match payload
        case TaskPullResponse(tasks) =>
          if tasks != [] { StartTaskAssignment(tasks[0], spawnError, elapsedMs); }
        case TaskCancel(taskId, reason, _) => HandleTaskCancel(taskId, reason);
        case _ =>
      }
    }

    method HandleBinaryMessage(frame: Frame<string>, spawnError: Option<string>, elapsedMs: U64)
      modifies this
      ensures var e := ClientReceive(config, old(running), RouteFrame(config.nodeId, frame), spawnError, elapsedMs);
              running == e.running && Sent() == old(Sent()) + e.sent
    {
      hide RouteFrames, StartAssignment, Route;
      assert Sent() + [] == Sent();
      match frame
      case Publish(topic, payload) => HandlePublish(topic, payload, spawnError, elapsedMs);
      case PingReq(unixSecs) =>
        Handlers.RouteAppend(config.nodeId, sent, PingResp(unixSecs));
        sent := sent + [PingResp(unixSecs)];
      case _ =>
    }

    /** The progress tick: reports a process that is gone and asks for the next task. */
    method OnProgressTick(durationMs: U64)
      modifies this
      ensures if old(running).Some? && old(running).value.exited.Some?
              then running.None? && Sent() == old(Sent()) + ProgressTick(config, old(running).value, durationMs)
              else running == old(running) && sent == old(sent)
    {
      hide RouteFrames;
      if running.Some? && running.value.exited.Some? {
        var done := running.value;
        running := None;
        SendPublish(OnResult, TaskResult(done.taskId, FinishedResult(done, durationMs), done.serial));
        SendPublish(OnControl, TaskPullRequest(config.nodeId, 1));
      }
    }
  }
}
