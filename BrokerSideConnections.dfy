/**
 * BrokerSideConnection, the broker's end of one worker session, as a class
 * whose methods update its fields in place, proved against ConnectionModel.
 */
module BrokerSideConnections {
  import opened Protocol
  import opened ConnectionModel

  /** The static session-id counter shared by all connections */
  class SessionCounter {
    var last: nat

    constructor ()
      ensures last == 0
    {
      last := 0;
    }
  }

  /**
   * The state of the collaborators that the broker-side components touch:
   * the WorkerStatus records on file, the acceptor's workersConnections map,
   * and the calls made into broker, worker managers and scheduler, in order.
   */
  class Broker {
    var workerStatuses: map<WorkerId, WorkerState>
    var workersConnections: map<WorkerId, BrokerSideConnection>
    var notices: seq<Notice<BrokerSideConnection>>

    constructor (workerStatuses: map<WorkerId, WorkerState>)
      ensures this.workerStatuses == workerStatuses
      ensures workersConnections == map[] && notices == []
    {
      this.workerStatuses := workerStatuses;
      workersConnections := map[];
      notices := [];
    }

    ghost function World(): World<BrokerSideConnection>
      reads this
    {
      ConnectionModel.World(workersConnections, notices)
    }
  }

  class BrokerSideConnection {
    var workerId: Option<WorkerId>
    var workerProcessId: Option<ProcessId>
    var connectionId: nat
    var maximumNumberOfTasks: Option<map<string, int>>
    var location: Option<string>
    var lastReceivedMessageTs: int
    // the channel: what was sent on it, in order, and whether it has been closed
    var outbox: seq<Sent>
    var closed: bool
    const broker: Broker

    ghost function View(): Session
      reads this
    {
      Session(workerId, workerProcessId, connectionId, maximumNumberOfTasks, location,
              lastReceivedMessageTs, outbox, closed)
    }

    /** Each new connection takes the next session id */
    constructor (counter: SessionCounter, broker: Broker)
      modifies counter
      ensures counter.last == old(counter.last) + 1
      ensures View() == Opened(counter.last)
      ensures this.broker == broker
    {
      counter.last := counter.last + 1;
      connectionId := counter.last;
      workerId, workerProcessId := None, None;
      maximumNumberOfTasks, location := None, None;
      lastReceivedMessageTs := 0;
      outbox, closed := [], false;
      this.broker := broker;
    }

    function GetLastReceivedMessageTs(): (ts: int)
      reads this
      ensures ts == View().lastReceivedMessageTs
    {
      lastReceivedMessageTs
    }

    /**
     * Handles one inbound message received at `now`; `logAvailable` is whether
     * the broker's log accepts the append this message calls for.
     */
    method MessageReceived(m: Inbound, now: int, logAvailable: bool) returns (outcome: Outcome)
      modifies this, broker
      ensures var r := Receive(this, old(View()), old(broker.World()), m, now, logAvailable);
        View() == r.session && broker.World() == r.world && outcome == r.outcome
      ensures broker.workerStatuses == old(broker.workerStatuses)
    {
      lastReceivedMessageTs := now;
      match m
      case WorkerConnectionRequest(sender, id, processId, loc, maxThreads, running) =>
        if workerProcessId.Some? {
          if sender.None? {
            return NullPointer(MessageProcessId);
          }
          if sender.value != workerProcessId.value {
            outbox := outbox + [Sent(AwaitingReply, KillWorker(workerProcessId))];
            closed := true;
            return Done;
          }
        }
        workerId := id;
        if id.None? {
          AnswerConnectionNotAcceptedAndClose(m, InvalidWorkerId);
          return Done;
        }
        workerProcessId := processId;
        location := loc;
        maximumNumberOfTasks := maxThreads;
        if id.value in broker.workersConnections {
          AnswerConnectionNotAcceptedAndClose(m, AlreadyConnected(id.value));
          return Done;
        }
        if !logAvailable {
          AnswerConnectionNotAcceptedAndClose(m, LogNotAvailable);
          return Done;
        }
        broker.notices := broker.notices + [BrokerWorkerConnected(id.value, loc, maxThreads, running, now)];
        broker.workersConnections := broker.workersConnections[id.value := this];
        broker.notices := broker.notices + [ConnectionBound(id.value, this)];
        broker.notices := broker.notices + [ManagerActivated(id.value, this)];
        AnswerConnectionAccepted(m);
        broker.notices := broker.notices + [SchedulerWorkerConnected(id.value, maxThreads, running)];
        outcome := Done;
      case TaskFinished(taskId, status, results) =>
        if taskId.None? {
          return NullPointer(TaskIdParameter);
        }
        if logAvailable {
          broker.notices := broker.notices + [BrokerTaskFinished(workerId, taskId.value, status, results)];
          outbox := outbox + [Sent(ReplyTo(m), Ack(workerProcessId))];
        } else {
          outbox := outbox + [Sent(ReplyTo(m), Error(workerProcessId, LogNotAvailable))];
        }
        outcome := Done;
      case OtherInbound(_) =>
        outcome := Done;
    }

    /** Replies ERROR to the request, addressed to the current process id; the channel stays open */
    method AnswerConnectionNotAcceptedAndClose(request: Inbound, reason: Reason)
      modifies this
      ensures View() == old(View()).(outbox := old(outbox) + [Sent(ReplyTo(request), Error(workerProcessId, reason))])
    {
      outbox := outbox + [Sent(ReplyTo(request), Error(workerProcessId, reason))];
    }

    /** Replies ACK to the request, addressed to the current process id */
    method AnswerConnectionAccepted(request: Inbound)
      modifies this
      ensures View() == old(View()).(outbox := old(outbox) + [Sent(ReplyTo(request), Ack(workerProcessId))])
    {
      outbox := outbox + [Sent(ReplyTo(request), Ack(workerProcessId))];
    }

    /**
     * Sends the task one-way to the worker process; the callback receives no
     * result and the send's error, if any, unchanged.
     */
    method SendTaskAssigned(task: Task, sendError: Option<SendError>) returns (completion: Completion)
      modifies this
      ensures View() == old(View()).(outbox := old(outbox) +
                [Sent(OneWay, TaskAssigned(workerProcessId, TaskAssignedParameters(task)))])
      ensures completion == Completion(None, sendError)
    {
      var params: map<string, Value> := map[];
      params := params["taskid" := LongValue(task.taskId)];
      params := params["tasktype" := StringValue(task.taskType)];
      params := params + task.parameters;
      outbox := outbox + [Sent(OneWay, TaskAssigned(workerProcessId, params))];
      completion := Completion(None, sendError);
    }

    /** Sends KILL_WORKER to the current process id and closes the channel, whatever the send's outcome */
    method WorkerDied()
      modifies this
      ensures View() == ConnectionModel.WorkerDied(old(View()))
    {
      outbox := outbox + [Sent(OneWay, KillWorker(workerProcessId))];
      closed := true;
    }
  }
}
