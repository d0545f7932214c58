/**
 * Values exchanged between the broker and its workers, and the records the
 * broker-side components leave with their collaborators (broker, acceptor,
 * worker managers, scheduler).  Java's null becomes `None`; an exception a
 * handler lets escape becomes an `Outcome`.
 */
module Protocol {

  datatype Option<+T> = None | Some(value: T)

  type WorkerId = string
  type ProcessId = string

  /** The three values of WorkerStatus.STATUS_* */
  datatype WorkerState = Connected | Disconnected | Dead

  /** An entry of a parameter map: a long, a string, or any other object */
  datatype Value = LongValue(n: int) | StringValue(s: string) | OtherValue(id: nat)

  /** A task as the connection sees it when it delivers an assignment */
  datatype Task = Task(taskId: int, taskType: string, parameters: map<string, Value>)

  /**
   * An inbound message, by type.  A connection request carries the sender's
   * process id in its header and the handshake fields among its parameters,
   * any of which may be null; `OtherInbound` stands for every type the
   * handler's switch does not list.
   */
  datatype Inbound =
    | WorkerConnectionRequest(sender: Option<ProcessId>, workerId: Option<WorkerId>,
                              processId: Option<ProcessId>, location: Option<string>,
                              maximumThreadPerTag: Option<map<string, int>>,
                              actualRunningTasks: Option<set<int>>)
    | TaskFinished(taskId: Option<int>, status: Option<string>, results: Option<map<string, Value>>)
    | OtherInbound(typeCode: int)

  /** Why a connection request or a task report was refused */
  datatype Reason = InvalidWorkerId | AlreadyConnected(workerId: WorkerId) | LogNotAvailable

  /** An outbound message; each is addressed to a worker process id (possibly null) */
  datatype Outgoing =
    | Ack(processId: Option<ProcessId>)
    | Error(processId: Option<ProcessId>, reason: Reason)
    | KillWorker(processId: Option<ProcessId>)
    | TaskAssigned(processId: Option<ProcessId>, parameters: map<string, Value>)

  /** How the channel was asked to send: as the reply to a request, one-way, or expecting a reply */
  datatype Delivery = ReplyTo(request: Inbound) | OneWay | AwaitingReply

  datatype Sent = Sent(delivery: Delivery, message: Outgoing)

  /** Where a null reference is dereferenced */
  datatype Site = ConnectionField | WorkerStatusLookup | MessageProcessId | TaskIdParameter

  /** How a handler ends: normally, or with a NullPointerException at `site` */
  datatype Outcome = Done | NullPointer(site: Site)

  /** The error a send completion may carry (a Throwable) */
  datatype SendError = SendError(code: nat)

  /** What a SimpleCallback receives: a result (always null here) and an optional error */
  datatype Completion = Completion(result: Option<()>, error: Option<SendError>)

  /**
   * One call into a collaborator, in the order it was made: the broker, the
   * acceptor's workersConnections map (`ConnectionBound` is its put), a worker
   * manager, the scheduler.  `C` is the type of connection references.
   * Broker calls that raise LogNotAvailable leave no notice.
   */
  datatype Notice<C> =
    | BrokerWorkerConnected(workerId: WorkerId, location: Option<string>,
                            maximumThreadPerTag: Option<map<string, int>>,
                            actualRunningTasks: Option<set<int>>, timestamp: int)
    | BrokerTaskFinished(worker: Option<WorkerId>, taskId: int, status: Option<string>,
                         results: Option<map<string, Value>>)
    | ConnectionBound(workerId: WorkerId, connection: C)
    | ManagerActivated(workerId: WorkerId, connection: C)
    | SchedulerWorkerConnected(workerId: WorkerId, maximumThreadPerTag: Option<map<string, int>>,
                               actualRunningTasks: Option<set<int>>)
    | SchedulerWorkerDied(workerId: WorkerId)
}
