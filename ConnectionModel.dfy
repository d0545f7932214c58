/**
 * The broker side of one worker session (BrokerSideConnection), as values:
 * the session's own fields, the channel as an outbox plus a closed flag, and
 * the shared world it touches (the acceptor's workersConnections map and the
 * ordered log of calls into broker, worker manager and scheduler).
 *
 * `C` is the type of connection references; the session stores itself as `self`.
 */
module ConnectionModel {
  import opened Protocol

  datatype Session = Session(
    workerId: Option<WorkerId>,
    workerProcessId: Option<ProcessId>,
    connectionId: nat,
    maximumNumberOfTasks: Option<map<string, int>>,
    location: Option<string>,
    lastReceivedMessageTs: int,
    outbox: seq<Sent>,
    closed: bool)

  datatype World<C> = World(workersConnections: map<WorkerId, C>, notices: seq<Notice<C>>)

  /** The session and world after handling one message, and how the handler ended */
  datatype Step<C> = Step(session: Session, world: World<C>, outcome: Outcome)

  /** One inbound message, the time it arrived and whether the broker's log accepts appends then */
  datatype Arrival = Arrival(message: Inbound, at: int, logAvailable: bool)

  /** A freshly constructed connection: only its session id is set */
  function Opened(connectionId: nat): Session
  {
    Session(None, None, connectionId, None, None, 0, [], false)
  }

  function Send(s: Session, d: Delivery, m: Outgoing): Session
  {
    s.(outbox := s.outbox + [Sent(d, m)])
  }

  /** A connection request passes the process-id guard (no process id on file, or the same one) */
  predicate Admitted(s: Session, m: Inbound)
    requires m.WorkerConnectionRequest?
  {
    s.workerProcessId.None? || m.sender == s.workerProcessId
  }

  /** A connection request that the handler accepts and registers */
  predicate Accepted<C>(s: Session, w: World<C>, m: Inbound, logAvailable: bool)
  {
    && m.WorkerConnectionRequest?
    && Admitted(s, m)
    && m.workerId.Some?
    && m.workerId.value !in w.workersConnections
    && logAvailable
  }

  /**
   * messageReceived: stamp the arrival time, then dispatch on the message type.
   * `logAvailable` decides whether broker.workerConnected / broker.taskFinished
   * succeed or raise LogNotAvailable.
   */
  function Receive<C(==)>(self: C, s: Session, w: World<C>, m: Inbound, now: int, logAvailable: bool): (r: Step<C>)
    ensures r.session.lastReceivedMessageTs == now
    ensures r.session.connectionId == s.connectionId
    ensures s.outbox <= r.session.outbox && |r.session.outbox| <= |s.outbox| + 1
    ensures s.closed ==> r.session.closed
    ensures forall id :: id in w.workersConnections ==>
              id in r.world.workersConnections && r.world.workersConnections[id] == w.workersConnections[id]
    ensures w.notices <= r.world.notices
  {
    var t := s.(lastReceivedMessageTs := now);
    match m
    case WorkerConnectionRequest(sender, workerId, processId, location, maxThreads, running) =>
      if t.workerProcessId.Some? && sender.None? then
        Step(t, w, NullPointer(MessageProcessId))
      else if t.workerProcessId.Some? && sender.value != t.workerProcessId.value then
        // the kill is sent to the process id on file; the channel closes whatever the send's outcome
        Step(Send(t, AwaitingReply, KillWorker(t.workerProcessId)).(closed := true), w, Done)
      else if workerId.None? then
        var u := t.(workerId := None);
        Step(Send(u, ReplyTo(m), Error(u.workerProcessId, InvalidWorkerId)), w, Done)
      else
        var id := workerId.value;
        var u := t.(workerId := workerId, workerProcessId := processId, location := location,
                    maximumNumberOfTasks := maxThreads);
        if id in w.workersConnections then
          Step(Send(u, ReplyTo(m), Error(processId, AlreadyConnected(id))), w, Done)
        else if !logAvailable then
          Step(Send(u, ReplyTo(m), Error(processId, LogNotAvailable)), w, Done)
        else
          var notices := w.notices + [BrokerWorkerConnected(id, location, maxThreads, running, now),
                                      ConnectionBound(id, self),
                                      ManagerActivated(id, self),
                                      SchedulerWorkerConnected(id, maxThreads, running)];
          Step(Send(u, ReplyTo(m), Ack(processId)), World(w.workersConnections[id := self], notices), Done)
    case TaskFinished(taskId, status, results) =>
      if taskId.None? then
        Step(t, w, NullPointer(TaskIdParameter))
      else if logAvailable then
        var notices := w.notices + [BrokerTaskFinished(t.workerId, taskId.value, status, results)];
        Step(Send(t, ReplyTo(m), Ack(t.workerProcessId)), w.(notices := notices), Done)
      else
        Step(Send(t, ReplyTo(m), Error(t.workerProcessId, LogNotAvailable)), w, Done)
    case OtherInbound(_) =>
      Step(t, w, Done)
  }

  /**
   * The session handling `arrivals` one after the other, in order; the outcome
   * is that of the last message.
   */
  function ReceiveAll<C(==)>(self: C, s: Session, w: World<C>, arrivals: seq<Arrival>): (r: Step<C>)
    decreases |arrivals|
    ensures r.session.connectionId == s.connectionId
    ensures s.outbox <= r.session.outbox && |r.session.outbox| <= |s.outbox| + |arrivals|
    ensures s.closed ==> r.session.closed
    ensures forall id :: id in w.workersConnections ==>
              id in r.world.workersConnections && r.world.workersConnections[id] == w.workersConnections[id]
    ensures w.notices <= r.world.notices
    ensures arrivals != [] ==> r.session.lastReceivedMessageTs == arrivals[|arrivals| - 1].at
  {
    if arrivals == [] then Step(s, w, Done)
    else
      var before := ReceiveAll(self, s, w, arrivals[..|arrivals| - 1]);
      var last := arrivals[|arrivals| - 1];
      Receive(self, before.session, before.world, last.message, last.at, last.logAvailable)
  }

  /** workerDied: one KILL_WORKER to the current process id, then the channel is closed */
  function WorkerDied(s: Session): (r: Session)
    ensures r.outbox == s.outbox + [Sent(OneWay, KillWorker(s.workerProcessId))]
    ensures r.closed
    ensures r.(outbox := s.outbox, closed := s.closed) == s
  {
    Send(s, OneWay, KillWorker(s.workerProcessId)).(closed := true)
  }

  /**
   * The payload of a TASK_ASSIGNED message: task id and type, then every task
   * parameter, which wins on a key clash.
   */
  function TaskAssignedParameters(task: Task): (r: map<string, Value>)
    ensures r.Keys == {"taskid", "tasktype"} + task.parameters.Keys
    ensures forall k :: k in task.parameters ==> r[k] == task.parameters[k]
    ensures "taskid" !in task.parameters ==> r["taskid"] == LongValue(task.taskId)
    ensures "tasktype" !in task.parameters ==> r["tasktype"] == StringValue(task.taskType)
  {
    map["taskid" := LongValue(task.taskId), "tasktype" := StringValue(task.taskType)] + task.parameters
  }

  /** A message of an unlisted type only stamps the arrival time */
  lemma OtherMessageOnlyStamps<C>(self: C, s: Session, w: World<C>, m: Inbound, now: int, logAvailable: bool)
    requires m.OtherInbound?
    ensures Receive(self, s, w, m, now, logAvailable) == Step(s.(lastReceivedMessageTs := now), w, Done)
  {
  }

  /**
   * A connection request from another process than the one on file: one
   * KILL_WORKER addressed to the stored process id, the channel closed, and
   * nothing registered or overwritten.
   */
  lemma ConflictingProcessKilled<C>(self: C, s: Session, w: World<C>, m: Inbound, now: int, logAvailable: bool)
    requires m.WorkerConnectionRequest? && s.workerProcessId.Some?
    requires m.sender.Some? && m.sender.value != s.workerProcessId.value
    ensures var r := Receive(self, s, w, m, now, logAvailable);
      && r.session == s.(lastReceivedMessageTs := now,
                         outbox := s.outbox + [Sent(AwaitingReply, KillWorker(s.workerProcessId))],
                         closed := true)
      && r.world == w
      && r.outcome == Done
  {
  }

  /** With a process id on file, a request whose header carries none dereferences null */
  lemma NullSenderFaults<C>(self: C, s: Session, w: World<C>, m: Inbound, now: int, logAvailable: bool)
    requires m.WorkerConnectionRequest? && s.workerProcessId.Some? && m.sender.None?
    ensures Receive(self, s, w, m, now, logAvailable) ==
            Step(s.(lastReceivedMessageTs := now), w, NullPointer(MessageProcessId))
  {
  }

  /** A task report without a task id dereferences null; nothing is sent or recorded */
  lemma NullTaskIdFaults<C>(self: C, s: Session, w: World<C>, m: Inbound, now: int, logAvailable: bool)
    requires m.TaskFinished? && m.taskId.None?
    ensures Receive(self, s, w, m, now, logAvailable) ==
            Step(s.(lastReceivedMessageTs := now), w, NullPointer(TaskIdParameter))
  {
  }

  /**
   * An admitted request without a worker id: one ERROR reply to the process id
   * on file, the worker id field cleared, the channel left open, nothing registered.
   */
  lemma MissingWorkerIdRefused<C>(self: C, s: Session, w: World<C>, m: Inbound, now: int, logAvailable: bool)
    requires m.WorkerConnectionRequest? && Admitted(s, m) && m.workerId.None?
    ensures var r := Receive(self, s, w, m, now, logAvailable);
      && r.session == s.(lastReceivedMessageTs := now, workerId := None,
                         outbox := s.outbox + [Sent(ReplyTo(m), Error(s.workerProcessId, InvalidWorkerId))])
      && r.world == w
      && r.outcome == Done
  {
  }

  /**
   * An admitted request for a worker id already bound, or one the broker cannot
   * log: one ERROR reply, the registry and the notices untouched, the channel
   * left open, but the handshake fields already overwritten.
   */
  lemma RefusedRequestLeavesRegistry<C>(self: C, s: Session, w: World<C>, m: Inbound, now: int, logAvailable: bool)
    requires m.WorkerConnectionRequest? && Admitted(s, m) && m.workerId.Some?
    requires m.workerId.value in w.workersConnections || !logAvailable
    ensures var r := Receive(self, s, w, m, now, logAvailable);
      var reason := if m.workerId.value in w.workersConnections then AlreadyConnected(m.workerId.value)
                    else LogNotAvailable;
      && r.session == s.(lastReceivedMessageTs := now, workerId := m.workerId,
                         workerProcessId := m.processId, location := m.location,
                         maximumNumberOfTasks := m.maximumThreadPerTag,
                         outbox := s.outbox + [Sent(ReplyTo(m), Error(m.processId, reason))])
      && r.world == w
      && r.outcome == Done
  {
  }

  /**
   * An accepted request registers with the broker, binds the worker id to this
   * connection, activates the worker's manager, acknowledges, and tells the
   * scheduler, with the same capacity map and running-task set.
   */
  lemma AcceptedRequestRegisters<C>(self: C, s: Session, w: World<C>, m: Inbound, now: int, logAvailable: bool)
    requires Accepted(s, w, m, logAvailable)
    ensures var r := Receive(self, s, w, m, now, logAvailable);
      var id := m.workerId.value;
      && r.world.workersConnections == w.workersConnections[id := self]
      && r.world.notices == w.notices + [BrokerWorkerConnected(id, m.location, m.maximumThreadPerTag, m.actualRunningTasks, now),
                                         ConnectionBound(id, self),
                                         ManagerActivated(id, self),
                                         SchedulerWorkerConnected(id, m.maximumThreadPerTag, m.actualRunningTasks)]
      && r.session == s.(lastReceivedMessageTs := now, workerId := m.workerId,
                         workerProcessId := m.processId, location := m.location,
                         maximumNumberOfTasks := m.maximumThreadPerTag,
                         outbox := s.outbox + [Sent(ReplyTo(m), Ack(m.processId))])
      && r.outcome == Done
  {
  }

  /**
   * A message changes the registry exactly when it is an accepted connection
   * request, and a manager is activated exactly then.
   */
  lemma RegistrationIff<C>(self: C, s: Session, w: World<C>, m: Inbound, now: int, logAvailable: bool)
    ensures var r := Receive(self, s, w, m, now, logAvailable);
      && (r.world.workersConnections != w.workersConnections <==> Accepted(s, w, m, logAvailable))
      && (r.world.workersConnections != w.workersConnections <==>
          (exists k :: |w.notices| <= k < |r.world.notices| && r.world.notices[k].ManagerActivated?))
  {
    var r := Receive(self, s, w, m, now, logAvailable);
    if Accepted(s, w, m, logAvailable) {
      var id := m.workerId.value;
      assert id in r.world.workersConnections && id !in w.workersConnections;
      assert r.world.notices[|w.notices| + 2].ManagerActivated?;
    } else {
      assert r.world.workersConnections == w.workersConnections;
      if m.TaskFinished? && m.taskId.Some? && logAvailable {
        assert r.world.notices == w.notices + [BrokerTaskFinished(s.workerId, m.taskId.value, m.status, m.results)];
      } else {
        assert r.world.notices == w.notices;
      }
    }
  }

  /**
   * A task report with a task id gets exactly one reply: ACK when the broker
   * logs it, ERROR when the log is unavailable.  No handshake is required.
   */
  lemma TaskFinishedReplied<C>(self: C, s: Session, w: World<C>, m: Inbound, now: int, logAvailable: bool)
    requires m.TaskFinished? && m.taskId.Some?
    ensures var r := Receive(self, s, w, m, now, logAvailable);
      var reply := if logAvailable then Ack(s.workerProcessId) else Error(s.workerProcessId, LogNotAvailable);
      && r.session == s.(lastReceivedMessageTs := now, outbox := s.outbox + [Sent(ReplyTo(m), reply)])
      && r.world.workersConnections == w.workersConnections
      && r.world.notices == (if logAvailable
                             then w.notices + [BrokerTaskFinished(s.workerId, m.taskId.value, m.status, m.results)]
                             else w.notices)
      && r.outcome == Done
  {
  }

  /**
   * No handshake is demanded before a task report: on a fresh session the
   * report is passed to the broker with a null worker id and acknowledged to
   * a null process id.
   */
  lemma ReportBeforeHandshakeAccepted<C>(self: C, id: nat, w: World<C>, m: Inbound, now: int)
    requires m.TaskFinished? && m.taskId.Some?
    ensures var r := Receive(self, Opened(id), w, m, now, true);
      && r.world.notices == w.notices + [BrokerTaskFinished(None, m.taskId.value, m.status, m.results)]
      && r.session.outbox == [Sent(ReplyTo(m), Ack(None))]
      && r.outcome == Done
  {
  }

  /**
   * A second process connecting under a worker id that a first connection
   * already holds is refused, on a new session, and the first binding stays.
   */
  lemma DuplicateWorkerRejected<C>(first: C, second: C, w: World<C>, a: Inbound, b: Inbound,
                                       idA: nat, idB: nat, t1: int, t2: int, logAvailable: bool)
    requires a.WorkerConnectionRequest? && b.WorkerConnectionRequest?
    requires a.workerId.Some? && b.workerId == a.workerId
    requires a.workerId.value !in w.workersConnections
    ensures var ra := Receive(first, Opened(idA), w, a, t1, true);
      var rb := Receive(second, Opened(idB), ra.world, b, t2, logAvailable);
      && ra.world.workersConnections[a.workerId.value] == first
      && rb.world == ra.world
      && rb.session.outbox == [Sent(ReplyTo(b), Error(b.processId, AlreadyConnected(a.workerId.value)))]
  {
    var ra := Receive(first, Opened(idA), w, a, t1, true);
    AcceptedRequestRegisters(first, Opened(idA), w, a, t1, true);
    RefusedRequestLeavesRegistry(second, Opened(idB), ra.world, b, t2, logAvailable);
  }
}
