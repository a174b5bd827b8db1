/** The stopwatch value shown by the focus screen and its elapsed-time rule
    (ui/viewmodel/FlowViewModel.kt). */
module Stopwatch {
  import opened Wrappers
  import opened LongMath

  datatype StopwatchState = StopwatchState(isRunning: bool, elapsedMs: int)

  /** `StopwatchState()` */
  const Stopped := StopwatchState(false, 0)

  /** Elapsed time from the banked total and the start of the current run:
      the banked total plus the clamped run time when running with a start
      recorded, else the banked total alone. */
  function LiveElapsed(isRunning: bool, baseStartTimeMs: Option<int>, accumulatedMs: int, now: int): (r: int)
    ensures r >= accumulatedMs
    ensures !isRunning || baseStartTimeMs.None? ==> r == accumulatedMs
    ensures isRunning && baseStartTimeMs.Some? && now >= baseStartTimeMs.value ==>
      r == accumulatedMs + (now - baseStartTimeMs.value)
    ensures isRunning && baseStartTimeMs.Some? && now < baseStartTimeMs.value ==> r == accumulatedMs
  {
    if isRunning && baseStartTimeMs.Some? then
      accumulatedMs + ClampNonNegative(now - baseStartTimeMs.value)
    else accumulatedMs
  }

  /** The banked total after pausing at `now`: the run time is folded in once. */
  function FoldRun(baseStartTimeMs: Option<int>, accumulatedMs: int, now: int): (acc: int)
    ensures acc == LiveElapsed(true, baseStartTimeMs, accumulatedMs, now)
  {
    match baseStartTimeMs
    case Some(base) => accumulatedMs + ClampNonNegative(now - base)
    case None => accumulatedMs
  }

  /** Elapsed time never goes backwards as the clock advances. */
  lemma LiveElapsedMonotone(isRunning: bool, base: Option<int>, acc: int, t1: int, t2: int)
    requires t1 <= t2
    ensures LiveElapsed(isRunning, base, acc, t1) <= LiveElapsed(isRunning, base, acc, t2)
  {
  }

  /** Pausing freezes the value: after the fold, the paused reading at any
      later instant equals what the running reading was at the pause. */
  lemma PauseFreezes(base: Option<int>, acc: int, pauseAt: int, later: int)
    ensures LiveElapsed(false, None, FoldRun(base, acc, pauseAt), later)
      == LiveElapsed(true, base, acc, pauseAt)
  {
  }

  /** Start at t0, pause at t1, resume at t2, read at t3 (clock moving
      forward): the reading is the two run lengths added to the initial bank. */
  lemma TwoRunsAdd(acc0: int, t0: int, t1: int, t2: int, t3: int)
    requires t0 <= t1 <= t2 <= t3
    ensures LiveElapsed(true, Some(t2), FoldRun(Some(t0), acc0, t1), t3)
      == acc0 + (t1 - t0) + (t3 - t2)
  {
  }

  /** Start at 0, pause at 125 s, resume at 200 s, read at 260 s: 185 s. */
  lemma ResumeScenario()
    ensures LiveElapsed(true, Some(200_000), FoldRun(Some(0), 0, 125_000), 260_000) == 185_000
  {
    TwoRunsAdd(0, 0, 125_000, 200_000, 260_000);
  }
}
