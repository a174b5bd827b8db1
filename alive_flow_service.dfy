/** The background mirror of the focus stopwatch (ui/service/AliveFlowService.kt):
    on every change of the stored record it either stops itself or renders
    the notification from the record alone. */
module AliveFlowServices {
  import opened Wrappers
  import opened LongMath
  import opened Stopwatch
  import opened OngoingSessions
  import opened AliveFlowNotifications
  import opened FlowViewModels

  /** `computeElapsed(entity)` at clock reading `now`. */
  function ComputeElapsed(e: OngoingSessionEntity, now: int): (r: int)
    ensures r >= e.accumulatedBeforeStartMs
    ensures !e.isRunning || e.baseStartTimeMs.None? ==> r == e.accumulatedBeforeStartMs
    ensures e.isRunning && e.baseStartTimeMs.Some? && now >= e.baseStartTimeMs.value ==>
      r == e.accumulatedBeforeStartMs + (now - e.baseStartTimeMs.value)
  {
    match e.baseStartTimeMs
    case Some(base) =>
      if e.isRunning then e.accumulatedBeforeStartMs + ClampNonNegative(now - base)
      else e.accumulatedBeforeStartMs
    case None => e.accumulatedBeforeStartMs
  }

  /** What the collector does with one value of the stored record. */
  datatype MirrorAction = StopSelf | Render(notification: AliveNotification)

  /** The collector body: stop when there is no record or focus mode is off,
      otherwise render from the record's own elapsed time. */
  function OnRecord(record: Option<OngoingSessionEntity>, now: int,
                    formatClockTime: int -> string): (a: MirrorAction)
    ensures a.StopSelf? <==> record.None? || !record.value.isInFlowMode
    ensures a.Render? ==>
      a.notification.showWhen == record.value.isRunning
      && a.notification.whenMs == now - ComputeElapsed(record.value, now)
  {
    match record
    case None => StopSelf
    case Some(e) =>
      if !e.isInFlowMode then StopSelf
      else Render(BuildNotification(e, ComputeElapsed(e, now), now, formatClockTime))
  }

  /** The mirror and the controller's ticker compute the same reading from
      the same record at the same instant. */
  lemma ComputeElapsedMatchesController(e: OngoingSessionEntity, now: int)
    ensures ComputeElapsed(e, now)
      == LiveElapsed(e.isRunning, e.baseStartTimeMs, e.accumulatedBeforeStartMs, now)
    ensures ComputeElapsed(e, now) == RestoredStopwatch(e, now).elapsedMs
  {
  }

  /** Rendering the record a valid controller just wrote shows the reading
      the controller's ticker would show at that instant. */
  lemma MirrorShowsControllerReading(vm: FlowViewModel, written: int, now: int)
    requires vm.Valid()
    ensures ComputeElapsed(vm.Snapshot(written), now)
      == LiveElapsed(vm.ui.stopwatch.isRunning, vm.baseStartTimeMs, vm.accumulatedBeforeStartMs, now)
    ensures !vm.ui.stopwatch.isRunning ==> ComputeElapsed(vm.Snapshot(written), now) == vm.ui.stopwatch.elapsedMs
  {
  }

  /** For a record a controller wrote, the two ways the notification states
      the start agree while the clock has not moved behind the run start:
      run start minus banked time equals the clock minus the elapsed time. */
  lemma TrueStartBranchesAgree(e: OngoingSessionEntity, now: int)
    requires ConsistentRecord(e) && e.isRunning
    requires now >= e.baseStartTimeMs.value
    ensures TrueStartTimeMs(e, ComputeElapsed(e, now), now) == now - ComputeElapsed(e, now)
  {
  }
}
