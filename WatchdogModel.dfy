/**
 * The liveness watchdog of one worker (WorkerManager.wakeUp), as values.
 * The watchdog sees three things: the time of its previous tick, the active
 * connection (through the time that connection last received a message) and
 * the worker's status as the broker has it on file (None: no WorkerStatus).
 */
module WatchdogModel {
  import opened Protocol

  /** WorkerManager.MAX_IDLE_TIME, in milliseconds */
  const MAX_IDLE_TIME: int := 1000 * 60

  datatype Watch = Watch(lastWakeup: int, connection: Option<int>, status: Option<WorkerState>)

  /** A call the tick makes: connection.workerDied() or scheduler.workerDied(workerId) */
  datatype Notify = NotifyConnection | NotifyScheduler

  /** The watch after one tick, the calls it made in order, and how it ended */
  datatype Wakeup = Wakeup(after: Watch, notified: seq<Notify>, outcome: Outcome)

  /** The `connection == null` test of a tick */
  predicate Orphaned(w: Watch)
  {
    w.connection.None? && w.status.Some?
  }

  /**
   * wakeUp as written.  With no connection and more than MAX_IDLE_TIME since the
   * previous tick, the status is set to DEAD and then `connection.workerDied()`
   * is called on the null reference: the tick ends in a NullPointerException
   * and the scheduler is never told.
   */
  function WakeUp(w: Watch, now: int): (r: Wakeup)
    ensures r.after.lastWakeup == now
    ensures r.after.status.Some? == w.status.Some?
    ensures w.status == Some(Dead) ==> r.after.status == Some(Dead)
    ensures r.after.connection == w.connection || r.after.connection.None?
    ensures r.notified == [] || r.notified == [NotifyConnection, NotifyScheduler]
    ensures r.notified != [] <==> r.after.connection != w.connection
    ensures r.outcome == NullPointer(ConnectionField) <==> Orphaned(w) && now - w.lastWakeup > MAX_IDLE_TIME
  {
    var delta := now - w.lastWakeup;
    var ticked := w.(lastWakeup := now);
    if w.connection.None? then
      if w.status.None? then
        Wakeup(ticked, [], Done)
      else if delta > MAX_IDLE_TIME then
        Wakeup(ticked.(status := Some(Dead)), [], NullPointer(ConnectionField))
      else if w.status.value == Connected then
        Wakeup(ticked.(status := Some(Disconnected)), [], Done)
      else
        Wakeup(ticked, [], Done)
    else if now - w.connection.value > MAX_IDLE_TIME then
      if w.status.None? then
        Wakeup(ticked, [], NullPointer(WorkerStatusLookup))
      else
        Wakeup(ticked.(status := Some(Dead), connection := None),
               [NotifyConnection, NotifyScheduler], Done)
    else
      Wakeup(ticked, [], Done)
  }

  /**
   * wakeUp as evidently intended: a worker whose connection did not come back
   * in time is declared DEAD and the scheduler is told, with no call on the
   * missing connection.
   */
  function WakeUpIntended(w: Watch, now: int): (r: Wakeup)
    ensures r.after.lastWakeup == now
    ensures r.outcome != NullPointer(ConnectionField)
    ensures NotifyScheduler in r.notified <==>
              w.status.Some? && (if w.connection.None? then now - w.lastWakeup
                                 else now - w.connection.value) > MAX_IDLE_TIME
  {
    if Orphaned(w) && now - w.lastWakeup > MAX_IDLE_TIME then
      Wakeup(w.(lastWakeup := now, status := Some(Dead)), [NotifyScheduler], Done)
    else
      WakeUp(w, now)
  }

  /** The outcomes of successive ticks at the times in `nows`, with no other change in between */
  function Outcomes(w: Watch, nows: seq<int>): (r: seq<Outcome>)
    decreases |nows|
    ensures |r| == |nows|
  {
    if nows == [] then []
    else
      var first := WakeUp(w, nows[0]);
      [first.outcome] + Outcomes(first.after, nows[1..])
  }

  /** No tick comes more than MAX_IDLE_TIME after the one before (or after `start`) */
  predicate GapsWithin(start: int, nows: seq<int>)
    decreases |nows|
  {
    nows == [] || (nows[0] - start <= MAX_IDLE_TIME && GapsWithin(nows[0], nows[1..]))
  }

  /** With no connection and no WorkerStatus on file, a tick only records its time */
  lemma UnknownWorkerOnlyTicks(w: Watch, now: int)
    requires w.connection.None? && w.status.None?
    ensures WakeUp(w, now) == Wakeup(w.(lastWakeup := now), [], Done)
  {
  }

  /**
   * With no connection and a timely tick, CONNECTED becomes DISCONNECTED and
   * the other states stay; nothing else is called.
   */
  lemma OrphanDowngraded(w: Watch, now: int)
    requires Orphaned(w) && now - w.lastWakeup <= MAX_IDLE_TIME
    ensures var r := WakeUp(w, now);
      && r.after.status == Some(if w.status.value == Connected then Disconnected else w.status.value)
      && r.after == w.(lastWakeup := now, status := r.after.status)
      && r.notified == [] && r.outcome == Done
  {
  }

  /**
   * With no connection and a late tick, the status becomes DEAD but the tick
   * faults on the null connection before the scheduler is told.
   */
  lemma LateTickFaults(w: Watch, now: int)
    requires Orphaned(w) && now - w.lastWakeup > MAX_IDLE_TIME
    ensures var r := WakeUp(w, now);
      && r.after == w.(lastWakeup := now, status := Some(Dead))
      && NotifyScheduler !in r.notified
      && r.outcome == NullPointer(ConnectionField)
  {
  }

  /** A connection heard from within MAX_IDLE_TIME keeps the worker as it is */
  lemma RecentTrafficKeepsAlive(w: Watch, now: int)
    requires w.connection.Some? && now - w.connection.value <= MAX_IDLE_TIME
    ensures WakeUp(w, now) == Wakeup(w.(lastWakeup := now), [], Done)
  {
  }

  /**
   * A connection silent for more than MAX_IDLE_TIME: the worker becomes DEAD,
   * the connection and the scheduler are each told once, the reference is
   * dropped, and the next timely tick takes the no-connection path and changes
   * nothing but its time.
   */
  lemma SilentConnectionDeclaredDead(w: Watch, now: int, next: int)
    requires w.connection.Some? && now - w.connection.value > MAX_IDLE_TIME && w.status.Some?
    requires next - now <= MAX_IDLE_TIME
    ensures var r := WakeUp(w, now);
      && r.after == w.(lastWakeup := now, status := Some(Dead), connection := None)
      && r.notified == [NotifyConnection, NotifyScheduler]
      && r.outcome == Done
      && WakeUp(r.after, next) == Wakeup(r.after.(lastWakeup := next), [], Done)
  {
  }

  /** A silent connection whose worker has no WorkerStatus on file faults on the status lookup */
  lemma SilentConnectionWithoutStatusFaults(w: Watch, now: int)
    requires w.connection.Some? && now - w.connection.value > MAX_IDLE_TIME && w.status.None?
    ensures WakeUp(w, now) == Wakeup(w.(lastWakeup := now), [], NullPointer(WorkerStatusLookup))
  {
  }

  /**
   * Once a connection is activated, the silence check reads that connection's
   * clock alone: the worker is declared dead exactly when it has been silent
   * for more than MAX_IDLE_TIME, whatever connection was there before.
   */
  lemma SilenceMeasuredOnActiveConnection(w: Watch, received: int, now: int)
    requires w.status.Some?
    ensures var r := WakeUp(w.(connection := Some(received)), now);
      (r.after.status == Some(Dead) && r.notified != []) <==> now - received > MAX_IDLE_TIME
  {
  }

  /**
   * Ticks that come at most MAX_IDLE_TIME apart never reach the null
   * connection dereference, since every tick resets lastWakeup.
   */
  lemma {:induction false} RegularTicksNeverFault(w: Watch, nows: seq<int>)
    requires GapsWithin(w.lastWakeup, nows)
    ensures NullPointer(ConnectionField) !in Outcomes(w, nows)
    decreases |nows|
  {
    if nows != [] {
      var first := WakeUp(w, nows[0]);
      RegularTicksNeverFault(first.after, nows[1..]);
      assert Outcomes(w, nows) == [first.outcome] + Outcomes(first.after, nows[1..]);
    }
  }

  /** The index of the first tick that comes more than MAX_IDLE_TIME after the one before */
  function FirstLate(start: int, nows: seq<int>): (k: nat)
    requires !GapsWithin(start, nows)
    ensures k < |nows| && nows[k] - (if k == 0 then start else nows[k - 1]) > MAX_IDLE_TIME
    ensures GapsWithin(start, nows[..k])
    decreases |nows|
  {
    if nows[0] - start > MAX_IDLE_TIME then 0
    else
      var k := 1 + FirstLate(nows[0], nows[1..]);
      assert nows[..k] == [nows[0]] + nows[1..][..k - 1];
      k
  }

  /**
   * A worker without connection whose ticks stop for longer than MAX_IDLE_TIME
   * runs normally up to the first late tick and faults exactly there.
   */
  lemma {:induction false} LateTickReachesFault(w: Watch, nows: seq<int>)
    requires Orphaned(w) && !GapsWithin(w.lastWakeup, nows)
    ensures var k := FirstLate(w.lastWakeup, nows);
      && Outcomes(w, nows)[k] == NullPointer(ConnectionField)
      && forall i :: 0 <= i < k ==> Outcomes(w, nows)[i] == Done
    decreases |nows|
  {
    var first := WakeUp(w, nows[0]);
    assert Outcomes(w, nows) == [first.outcome] + Outcomes(first.after, nows[1..]);
    if nows[0] - w.lastWakeup <= MAX_IDLE_TIME {
      assert first.outcome == Done && Orphaned(first.after);
      LateTickReachesFault(first.after, nows[1..]);
    }
  }

  /** The intended tick declares an orphaned worker dead and tells the scheduler once */
  lemma IntendedDeclaresAbandonedWorkerDead(w: Watch, now: int)
    requires Orphaned(w) && now - w.lastWakeup > MAX_IDLE_TIME
    ensures WakeUpIntended(w, now) ==
            Wakeup(w.(lastWakeup := now, status := Some(Dead)), [NotifyScheduler], Done)
  {
  }

  /** The intended tick differs from the written one exactly where the written one faults */
  lemma IntendedDiffersOnlyAtFault(w: Watch, now: int)
    ensures WakeUpIntended(w, now) != WakeUp(w, now) <==> WakeUp(w, now).outcome == NullPointer(ConnectionField)
  {
  }

  /** The outcomes and calls of successive intended ticks at the times in `nows` */
  function IntendedTicks(w: Watch, nows: seq<int>): (r: seq<Wakeup>)
    decreases |nows|
    ensures |r| == |nows|
    ensures nows != [] ==> r[0] == WakeUpIntended(w, nows[0])
  {
    if nows == [] then []
    else
      var first := WakeUpIntended(w, nows[0]);
      [first] + IntendedTicks(first.after, nows[1..])
  }

  /**
   * The intended no-connection timeout never fires while the watchdog ticks
   * regularly: each tick resets lastWakeup, so a worker whose manager holds no
   * connection (none activated since the manager was built) is never declared
   * dead this way and the scheduler is never told.
   */
  lemma {:induction false} OrphanTimeoutNeedsLateTick(w: Watch, nows: seq<int>)
    requires w.connection.None? && GapsWithin(w.lastWakeup, nows)
    ensures forall i :: 0 <= i < |nows| ==> IntendedTicks(w, nows)[i].notified == []
    decreases |nows|
  {
    if nows != [] {
      var first := WakeUpIntended(w, nows[0]);
      assert first.notified == [] && first.after.connection.None?;
      OrphanTimeoutNeedsLateTick(first.after, nows[1..]);
      assert IntendedTicks(w, nows) == [first] + IntendedTicks(first.after, nows[1..]);
    }
  }
}
