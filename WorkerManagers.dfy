/**
 * WorkerManager, the liveness watchdog of one worker, as a class whose
 * methods update its fields in place, proved against WatchdogModel.  The
 * broker's status records and the scheduler are the shared Broker; the clock
 * is the `now` argument of each tick.
 */
module WorkerManagers {
  import opened Protocol
  import WatchdogModel
  import ConnectionModel
  import opened BrokerSideConnections

  class WorkerManager {
    const workerId: WorkerId
    const broker: Broker
    var connection: BrokerSideConnection?
    var lastWakeup: int

    /** What the watchdog sees of itself, its connection and the worker's status on file */
    ghost function View(): WatchdogModel.Watch
      reads this, broker, connection
    {
      WatchdogModel.Watch(
        lastWakeup,
        if connection == null then None else Some(connection.lastReceivedMessageTs),
        if workerId in broker.workerStatuses then Some(broker.workerStatuses[workerId]) else None)
    }

    constructor (workerId: WorkerId, broker: Broker, now: int)
      ensures this.workerId == workerId && this.broker == broker
      ensures connection == null && lastWakeup == now
    {
      this.workerId := workerId;
      this.broker := broker;
      connection := null;
      lastWakeup := now;
    }

    /**
     * One tick of the watchdog at time `now`.  The outcome reports the
     * NullPointerException the source raises on the null connection (or on a
     * missing WorkerStatus), after the state changes made before it.
     */
    method WakeUp(now: int) returns (outcome: Outcome)
      modifies this, broker, connection
      ensures var r := WatchdogModel.WakeUp(old(View()), now);
        && View() == r.after
        && outcome == r.outcome
        && (r.after.connection.Some? ==> connection == old(connection))
        && broker.workerStatuses == (if r.after.status.Some?
                                     then old(broker.workerStatuses)[workerId := r.after.status.value]
                                     else old(broker.workerStatuses))
        && broker.workersConnections == old(broker.workersConnections)
        && broker.notices == old(broker.notices) +
             (if WatchdogModel.NotifyScheduler in r.notified then [SchedulerWorkerDied(workerId)] else [])
        && (old(connection) != null ==>
              old(connection).View() == (if WatchdogModel.NotifyConnection in r.notified
                                         then ConnectionModel.WorkerDied(old(connection.View()))
                                         else old(connection.View())))
    {
      var lastWakeUpDelta := now - lastWakeup;
      lastWakeup := now;
      if connection == null {
        if workerId !in broker.workerStatuses {
          return Done;
        }
        if broker.workerStatuses[workerId] == Connected {
          broker.workerStatuses := broker.workerStatuses[workerId := Disconnected];
        }
        if lastWakeUpDelta > WatchdogModel.MAX_IDLE_TIME {
          broker.workerStatuses := broker.workerStatuses[workerId := Dead];
          // connection.workerDied() on the null connection: scheduler.workerDied is never reached
          return NullPointer(ConnectionField);
        }
        return Done;
      }
      var delta := now - connection.GetLastReceivedMessageTs();
      if delta > WatchdogModel.MAX_IDLE_TIME {
        if workerId !in broker.workerStatuses {
          return NullPointer(WorkerStatusLookup);
        }
        broker.workerStatuses := broker.workerStatuses[workerId := Dead];
        connection.WorkerDied();
        broker.notices := broker.notices + [SchedulerWorkerDied(workerId)];
        connection := null;
      }
      outcome := Done;
    }

    /** Replaces the connection reference; nothing else changes */
    method ActivateConnection(c: BrokerSideConnection?)
      modifies this
      ensures connection == c
      ensures View() == old(View()).(connection := if c == null then None else Some(c.lastReceivedMessageTs))
    {
      connection := c;
    }

    /** A placeholder in the source: it changes nothing */
    method WakeUpOnTaskAssigned(taskId: int)
      ensures unchanged(this, broker)
    {
    }
  }
}
