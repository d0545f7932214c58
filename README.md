# Broker-side worker session and liveness watchdog (majordodo / dodo-core)

This project models two small sequential state machines on the broker side of
the majordodo task broker, and proves properties of them in Dafny:

- **WorkerManager** (`dodo.scheduler.WorkerManager`): the per-worker liveness
  watchdog. Each tick at time `now` records `lastWakeup := now`. With no active
  connection it downgrades CONNECTED to DISCONNECTED and, after more than
  `MAX_IDLE_TIME` (60000 ms) since the previous tick, declares the worker DEAD.
  With an active connection that has been silent for more than `MAX_IDLE_TIME`
  it declares the worker DEAD, kills the connection, tells the scheduler and
  drops the connection reference. In the no-connection timeout the source never
  reaches the scheduler: it faults on the null connection first (see
  "## Findings").
- **BrokerSideConnection** (`dodo.worker.BrokerSideConnection`): the
  per-session protocol handler. It stamps every inbound message with its arrival
  time. It handles the connection handshake: a process-id conflict, a missing
  worker id, a worker id already bound, and a broker log failure are checked in
  that order. It acknowledges or refuses task-finished reports; the code does
  not demand a completed handshake first, although the design expects one, and
  the model follows the code. It also sends task assignments and the kill
  directive.

Layout:

- `Protocol.dfy` holds the shared values: messages in and out, worker states,
  the `Outcome` of a handler (`Done`, or a `NullPointer` at a named site), and
  the `Notice` log of calls into the broker, the acceptor's connection map,
  worker managers and the scheduler.
- `ConnectionModel.dfy` is the specification of a session as values.
  `Receive` handles one message and `ReceiveAll` a sequence of them. The module
  also holds the task-assignment payload, `WorkerDied`, and the lemmas for each
  branch of the handler.
- `BrokerSideConnections.dfy` holds the classes `BrokerSideConnection`, `Broker`
  and `SessionCounter`. `Broker` is the collaborators' state: the WorkerStatus
  records on file, the acceptor's `workersConnections`, and the notice log. The
  class methods update fields in place and are proved against `ConnectionModel`.
- `WatchdogModel.dfy` is the specification of one watchdog tick as values.
  `WakeUp` is the tick as written and `WakeUpIntended` the corrected tick. The
  module also holds the lemmas for each branch and over sequences of ticks.
- `WorkerManagers.dfy` holds the class `WorkerManager`, proved against
  `WatchdogModel`. Its connection field is a real `BrokerSideConnection`
  reference, and a silent connection is killed through that object's
  `WorkerDied`.

The clock is the `now` parameter. Whether the broker's log accepts an append is
the `logAvailable` parameter. The error a send completion carries is the
`sendError` parameter. A null dereference in the source becomes a `NullPointer`
outcome. The state changes made before the exception stay in the model.

## Model

| member | source | states |
|---|---|---|
| `BrokerSideConnections.SessionCounter.constructor` | dodo-core/src/main/java/dodo/worker/BrokerSideConnection.java:53 | the shared session counter starts at zero |
| `BrokerSideConnections.BrokerSideConnection.constructor` | dodo-core/src/main/java/dodo/worker/BrokerSideConnection.java:53-57 | a new connection takes the counter's next value as its session id; the counter grows by one; every other field is unset, the outbox is empty and the channel is open |
| `BrokerSideConnections.BrokerSideConnection.GetLastReceivedMessageTs` | dodo-core/src/main/java/dodo/worker/BrokerSideConnection.java:115-117 | returns the arrival time of the last inbound message (the duplicated getter is modelled once) |
| `ConnectionModel.Receive` | dodo-core/src/main/java/dodo/worker/BrokerSideConnection.java:124-178 | every inbound message sets `lastReceivedMessageTs` to its arrival time and keeps the session id. It sends at most one message and only appends to the outbox. A closed channel stays closed. Existing `workersConnections` entries are never removed or rebound. The notice log only grows |
| `ConnectionModel.ReceiveAll` | dodo-core/src/main/java/dodo/worker/BrokerSideConnection.java:124-178 | over any sequence of inbound messages: the session id is kept and the outbox grows by at most one message per inbound message. Closed stays closed. Registry bindings persist. The notice log only grows. The last arrival time is the one on file |
| `BrokerSideConnections.BrokerSideConnection.MessageReceived` | dodo-core/src/main/java/dodo/worker/BrokerSideConnection.java:124-180 | the in-place handler leaves the session, the registry, the notice log and its outcome exactly as `Receive` gives them; the WorkerStatus records are untouched |
| `ConnectionModel.OtherMessageOnlyStamps` | dodo-core/src/main/java/dodo/worker/BrokerSideConnection.java:125-127 | a message of a type the switch does not list changes nothing but the arrival time |
| `ConnectionModel.ConflictingProcessKilled` | dodo-core/src/main/java/dodo/worker/BrokerSideConnection.java:129-136 | a connection request from a process other than the one on file sends exactly one KILL_WORKER, addressed to the stored process id, and closes the channel. Nothing is registered and no other field changes |
| `ConnectionModel.NullSenderFaults` | dodo-core/src/main/java/dodo/worker/BrokerSideConnection.java:129 | with a process id on file, a request whose header carries no process id raises a NullPointerException after only the time stamp |
| `ConnectionModel.MissingWorkerIdRefused` | dodo-core/src/main/java/dodo/worker/BrokerSideConnection.java:138-142 | an admitted request without a worker id gets one ERROR reply, addressed to the process id on file. The worker id field is cleared, the channel is not closed, and nothing is registered |
| `ConnectionModel.RefusedRequestLeavesRegistry` | dodo-core/src/main/java/dodo/worker/BrokerSideConnection.java:143-157 | a request for a worker id already bound, or one the broker cannot log, gets one ERROR with that reason. The registry and the notice log stay unchanged and the channel stays open. The session's process id, location and capacity map have already been overwritten |
| `ConnectionModel.AcceptedRequestRegisters` | dodo-core/src/main/java/dodo/worker/BrokerSideConnection.java:152-162 | a successful request makes four collaborator calls, in this order: it registers with the broker, binds the worker id to this connection in the acceptor's map, activates the worker's manager, and tells the scheduler, passing the broker and the scheduler the same capacity map and running-task set. It also sends one ACK to the new process id and records the request's fields in the session |
| `ConnectionModel.RegistrationIff` | dodo-core/src/main/java/dodo/worker/BrokerSideConnection.java:147-162 | a message changes the registry if and only if it is an accepted connection request, and it activates a manager if and only if it changes the registry |
| `ConnectionModel.TaskFinishedReplied` | dodo-core/src/main/java/dodo/worker/BrokerSideConnection.java:166-177 | a task report gets exactly one reply: ACK and a broker notice when the log append succeeds, ERROR and no notice when it raises LogNotAvailable |
| `ConnectionModel.NullTaskIdFaults` | dodo-core/src/main/java/dodo/worker/BrokerSideConnection.java:167 | a task report without a task id raises a NullPointerException after only the time stamp: nothing is sent and nothing is recorded |
| `ConnectionModel.ReportBeforeHandshakeAccepted` | dodo-core/src/main/java/dodo/worker/BrokerSideConnection.java:166-177 | no handshake is demanded before a task report: on a fresh session the report reaches the broker with a null worker id and is acknowledged to a null process id |
| `ConnectionModel.DuplicateWorkerRejected` | dodo-core/src/main/java/dodo/worker/BrokerSideConnection.java:147-151 | after a first session has bound a worker id, a second session's request for that id gets exactly one ERROR (already connected), and the first binding stays |
| `BrokerSideConnections.BrokerSideConnection.AnswerConnectionNotAcceptedAndClose` | dodo-core/src/main/java/dodo/worker/BrokerSideConnection.java:182-184 | sends one ERROR reply, addressed to the current process id, and does not close the channel despite its name |
| `BrokerSideConnections.BrokerSideConnection.AnswerConnectionAccepted` | dodo-core/src/main/java/dodo/worker/BrokerSideConnection.java:186-188 | sends one ACK reply, addressed to the current process id |
| `ConnectionModel.TaskAssignedParameters` | dodo-core/src/main/java/dodo/worker/BrokerSideConnection.java:191-194 | the payload's keys are `taskid`, `tasktype` and the task's parameter keys. Every task parameter appears with its own value, so a parameter overrides on a key clash. `taskid` and `tasktype` carry the task's id and type when no parameter shadows them |
| `BrokerSideConnections.BrokerSideConnection.SendTaskAssigned` | dodo-core/src/main/java/dodo/worker/BrokerSideConnection.java:190-201 | sends exactly one one-way TASK_ASSIGNED with that payload to the current process id. The callback receives a null result and the send error unchanged |
| `ConnectionModel.WorkerDied` | dodo-core/src/main/java/dodo/worker/BrokerSideConnection.java:204-213 | one one-way KILL_WORKER to the current process id is appended and the channel is closed; nothing else changes |
| `BrokerSideConnections.BrokerSideConnection.WorkerDied` | dodo-core/src/main/java/dodo/worker/BrokerSideConnection.java:204-213 | the in-place kill leaves the session as `ConnectionModel.WorkerDied` gives it; the channel is closed whatever the send's outcome |
| `WorkerManagers.WorkerManager.constructor` | dodo-core/src/main/java/dodo/scheduler/WorkerManager.java:40-46 | a new manager has no connection and its last wakeup at construction time |
| `WatchdogModel.WakeUp` | dodo-core/src/main/java/dodo/scheduler/WorkerManager.java:58-93 | every tick sets `lastWakeup := now`. It never creates or removes a WorkerStatus, and DEAD stays DEAD. It only keeps or drops the connection. It tells the connection and the scheduler each once, exactly when it drops the connection. It faults on the null connection if and only if there is no connection, a status is on file, and more than 60000 ms have passed since the previous tick |
| `WorkerManagers.WorkerManager.WakeUp` | dodo-core/src/main/java/dodo/scheduler/WorkerManager.java:58-93 | the in-place tick leaves the watch as `WatchdogModel.WakeUp` gives it and changes only this worker's status. It keeps the registry. It appends a scheduler `workerDied` exactly when the model notifies the scheduler, and kills the old connection exactly when the model notifies it |
| `WatchdogModel.UnknownWorkerOnlyTicks` | dodo-core/src/main/java/dodo/scheduler/WorkerManager.java:62-68 | with no connection and no WorkerStatus on file, a tick changes nothing but `lastWakeup` |
| `WatchdogModel.OrphanDowngraded` | dodo-core/src/main/java/dodo/scheduler/WorkerManager.java:69-71 | with no connection and a tick within 60000 ms, CONNECTED becomes DISCONNECTED, DISCONNECTED and DEAD stay, and nothing is called |
| `WatchdogModel.LateTickFaults` | dodo-core/src/main/java/dodo/scheduler/WorkerManager.java:72-76 | with no connection and more than 60000 ms since the previous tick, the status becomes DEAD and the tick faults on the null connection. The scheduler is never told |
| `WatchdogModel.RecentTrafficKeepsAlive` | dodo-core/src/main/java/dodo/scheduler/WorkerManager.java:81-83 | with a connection heard from within 60000 ms, a tick changes nothing but `lastWakeup` |
| `WatchdogModel.SilentConnectionDeclaredDead` | dodo-core/src/main/java/dodo/scheduler/WorkerManager.java:82-91 | a connection silent for more than 60000 ms makes the worker DEAD. The connection and the scheduler are each told exactly once and the reference is dropped. The next timely tick takes the no-connection path and changes nothing but its time |
| `WatchdogModel.SilentConnectionWithoutStatusFaults` | dodo-core/src/main/java/dodo/scheduler/WorkerManager.java:85-86 | a silent connection whose worker has no WorkerStatus on file faults on the status lookup before anything is notified |
| `WatchdogModel.SilenceMeasuredOnActiveConnection` | dodo-core/src/main/java/dodo/scheduler/WorkerManager.java:82-83 | with a status on file, the worker is declared dead if and only if the active connection's last message is more than 60000 ms old |
| `WorkerManagers.WorkerManager.ActivateConnection` | dodo-core/src/main/java/dodo/scheduler/WorkerManager.java:95-97 | only the connection reference changes; the watch then reads the new connection's timestamp |
| `WorkerManagers.WorkerManager.WakeUpOnTaskAssigned` | dodo-core/src/main/java/dodo/scheduler/WorkerManager.java:99-101 | changes no state |
| `WatchdogModel.RegularTicksNeverFault` | dodo-core/src/main/java/dodo/scheduler/WorkerManager.java:60-76 | if every tick comes at most 60000 ms after the previous one, no tick ever reaches the null-connection dereference |
| `WatchdogModel.LateTickReachesFault` | dodo-core/src/main/java/dodo/scheduler/WorkerManager.java:60-76 | conversely, for a worker with any status on file and no connection, the ticks before the first one that comes more than 60000 ms late all end normally, and that tick faults on the null connection |
| `WatchdogModel.FirstLate` | dodo-core/src/main/java/dodo/scheduler/WorkerManager.java:72 | the index of the first tick more than 60000 ms after its predecessor: it exists when the ticks are not all timely, and every tick before it is timely |
| `WatchdogModel.WakeUpIntended` | dodo-core/src/main/java/dodo/scheduler/WorkerManager.java:72-78 | the corrected tick never faults on the connection. It tells the scheduler if and only if a status is on file and the relevant silence exceeds 60000 ms: since the previous tick without a connection, or since the last message with one |
| `WatchdogModel.IntendedDeclaresAbandonedWorkerDead` | dodo-core/src/main/java/dodo/scheduler/WorkerManager.java:72-78 | in the no-connection timeout the corrected tick sets DEAD and tells the scheduler exactly once, with no call on the connection |
| `WatchdogModel.IntendedDiffersOnlyAtFault` | dodo-core/src/main/java/dodo/scheduler/WorkerManager.java:72-78 | the corrected tick differs from the written one if and only if the written one faults on the null connection |
| `WatchdogModel.OrphanTimeoutNeedsLateTick` | dodo-core/src/main/java/dodo/scheduler/WorkerManager.java:58-78 | with no connection and ticks at most 60000 ms apart, the corrected tick never notifies anyone, so the no-connection timeout fires only when the ticks themselves stop |

## Left out

- Concurrency is not modelled: the `AtomicLong` session counter is a plain counter, and races between `wakeUp` and `messageReceived` are out of scope. Send callbacks complete synchronously, with the error as a parameter.
- The wall clock is the `now` parameter. The second clock read in `wakeUp` (WorkerManager.java:82) is taken to return the same `now`. The handshake's own clock read for `broker.workerConnected` (BrokerSideConnection.java:153) is also taken to be the arrival time `now`, so the `BrokerWorkerConnected` timestamp equals the session's `lastReceivedMessageTs`.
- Timestamps are unbounded integers: 64-bit overflow of Java's `long` subtraction is not modelled, since epoch milliseconds do not come near it.
- Logging (`LOGGER`, `System.out`) is dropped.
- Setters and getters other than `getLastReceivedMessageTs` are left out. The broker is fixed at construction instead of `setBroker`, and the channel is the connection's own outbox and closed flag instead of `setChannel`. `setConnectionId`, which could break session-id uniqueness, is not modelled.
- Message parameters are typed in the model: an ill-typed parameter (a ClassCastException in the source) cannot be expressed. A null `taskid` (the unboxing NullPointerException) and a null header process id are modelled.
- `Task.taskExecutorStatusToTaskStatus` is not part of this model: the executor's status string is passed to the broker notice unchanged.
- The broker, scheduler, acceptor, commit log and tasks heap are not part of this model. Calls into them are recorded as notices, in order. Whether `broker.workerConnected` and `broker.taskFinished` raise LogNotAvailable is a parameter. What the broker does on those calls is not modelled, for example creating a WorkerStatus.
- The acceptor's `workersConnections.put` is both applied to the registry and recorded as a `ConnectionBound` notice, so its place among the other calls is fixed. The worker-manager lookup and activation on a successful handshake (BrokerSideConnection.java:159-160) is recorded as a `ManagerActivated` notice. The model does not call `WorkerManager.ActivateConnection` there, and the connection's `manager` field is not kept.
- BrokerSideConnections.BrokerSideConnection.MessageReceived: the outbox and the notice log are separate sequences. The contract fixes the ACK and the order of the broker, acceptor, manager and scheduler calls. It does not fix that the ACK is sent after the manager activation and before the scheduler call.
- ConnectionModel.AcceptedRequestRegisters: for the same reason, it states the ACK and the four ordered collaborator calls, but not the ACK's place between the manager activation and the scheduler call (BrokerSideConnection.java:161).
- The channel itself is not modelled: a send on a closed channel is recorded like any other. The completion of a kill send is not a parameter, because its callback closes the channel whatever the error.
- `WatchdogModel.Outcomes`, used by the tick-sequence lemmas, keeps the connection's last-message time fixed between ticks. Messages arriving between ticks are covered by the single-tick lemmas.
- The Netty broker locator, the broker-restart integration test and the `SimpleCallback` interface are not part of this model. The callback is represented only by the `Completion` value that `SendTaskAssigned` returns.

## Findings

| source | as written | input that shows it | evidently intended | confidence | as-written member | corrected member |
|---|---|---|---|---|---|---|
| dodo-core/src/main/java/dodo/scheduler/WorkerManager.java:72-76 | inside the `connection == null` branch, after setting DEAD, the code calls `connection.workerDied()`. This throws a NullPointerException before `scheduler.workerDied(workerId)` runs, so the scheduler never learns the worker is dead | no active connection, a WorkerStatus on file, and a tick more than 60000 ms after the previous one | set DEAD and call `scheduler.workerDied(workerId)`, without touching the absent connection | high (not executed) | `WatchdogModel.LateTickFaults` | `WatchdogModel.WakeUpIntended` |

The `WorkerManager` class keeps the behaviour as written, so the fault stays
observable in its `WakeUp` outcome. `WatchdogModel.WakeUpIntended` is the
corrected reference tick. `WatchdogModel.IntendedDeclaresAbandonedWorkerDead`
and `WatchdogModel.IntendedDiffersOnlyAtFault` prove what it does and where it
departs from the written one. `WatchdogModel.RegularTicksNeverFault` shows the
fault is unreachable while ticks come at most 60000 ms apart.
For a worker with a status on file whose manager holds no connection (one never
activated since the manager was built), `WatchdogModel.LateTickReachesFault`
shows the fault is reached once the ticks stop being timely, exactly at the
first late tick. For such a worker the corrected timeout measures from the
previous tick, which every tick resets: `WatchdogModel.OrphanTimeoutNeedsLateTick`
shows that while the watchdog runs on schedule it never fires. A worker whose
link drops is not in that case: only `wakeUp` clears the manager's connection
(WorkerManager.java:76 and 90), so the manager keeps the stale connection and
the silent-connection branch declares the worker dead 60000 ms after its last
message. The corrected member fixes only the null dereference.
