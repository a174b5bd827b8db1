/** The decisions of the focus screen (ui/skills/FocusOnScreen.kt): when
    Save is enabled and whether it first shows the points earned, when Reset
    asks for confirmation and what the confirmation says, and the "End"
    sequence of the leave dialog. The screen drives the persisted stopwatch
    controller (`FlowViewModel`). */
module FocusOnScreens {
  import opened Wrappers
  import opened LongMath
  import opened Text
  import opened Stopwatch
  import opened OngoingSessions
  import opened SessionEntities
  import opened ScoreCalculator
  import opened StopwatchSections
  import opened FlowViewModels

  /** At or above this reading Save shows the points dialog first. */
  const PointsDialogThresholdMs := 10 * 60_000
  /** At or above this reading Reset asks before clearing. */
  const ResetConfirmThresholdMs := 2 * 60_000

  /** Save is enabled when title and skill name are not blank, no save is
      running and focus mode is off. */
  function SaveEnabled(ui: FlowUiState, isSaving: bool): (r: bool)
    ensures r <==> Trim(ui.title) != [] && Trim(ui.tagName) != [] && !isSaving && !ui.isInFlowMode
    ensures r <==> !IsBlank(ui.title) && !IsBlank(ui.tagName) && !isSaving && !ui.isInFlowMode
  {
    TrimEmptyIffBlank(ui.title);
    TrimEmptyIffBlank(ui.tagName);
    !IsBlank(ui.title) && !IsBlank(ui.tagName) && !isSaving && !ui.isInFlowMode
  }

  /** What pressing Save does. */
  datatype SaveOutcome = ShowPoints(breakdown: ScoreBreakdown) | SaveNow

  /** A reading of ten minutes or more (clamped at zero) shows its score
      breakdown and saves only when acknowledged; a shorter one saves at once.
      The breakdown shown always holds at least one ten-minute bonus. */
  function OnSavePressed(sw: StopwatchState): (r: SaveOutcome)
    ensures r.SaveNow? <==> sw.elapsedMs < PointsDialogThresholdMs
    ensures r.ShowPoints? ==>
      r.breakdown == BreakdownFromDuration(sw.elapsedMs)
      && r.breakdown.minutes >= 10 && r.breakdown.tenMinuteBonuses >= 1
      && r.breakdown.totalPoints >= 15
  {
    var durationMs := ClampNonNegative(sw.elapsedMs);
    if durationMs >= PointsDialogThresholdMs then ShowPoints(BreakdownFromDuration(durationMs))
    else SaveNow
  }

  /** The points the dialog announces are the points the saved session
      earns: the commit records the same clamped reading as its duration. */
  lemma AnnouncedPointsAreEarned(ui: FlowUiState, tagId: int, sessionId: int, now: int)
    requires OnSavePressed(ui.stopwatch).ShowPoints?
    ensures OnSavePressed(ui.stopwatch).breakdown.totalPoints
      == SessionPoints(CommittedSession(ui, tagId, sessionId, now))
  {
  }

  /** What pressing the enabled Reset button does. */
  datatype ResetOutcome = ConfirmReset | ResetNow

  /** Two minutes or more ask "Reset session?" first; less resets at once. */
  function OnResetPressed(sw: StopwatchState): (r: ResetOutcome)
    ensures r == ConfirmReset <==> sw.elapsedMs >= ResetConfirmThresholdMs
  {
    if sw.elapsedMs >= ResetConfirmThresholdMs then ConfirmReset else ResetNow
  }

  const ConfirmPrefix := "You've already focused for "
  const ConfirmSuffix := ". Are you sure you want to reset and lose this progress?"

  /** The confirmation text: the whole minutes of the reading, with "minute"
      in the singular only for exactly one. */
  function ConfirmText(elapsedMs: int): (r: string)
    ensures elapsedMs >= 0 ==>
      r == ConfirmPrefix + Dec(elapsedMs / 60_000)
        + (if 60_000 <= elapsedMs < 120_000 then " minute" else " minutes") + ConfirmSuffix
  {
    var minutes := KDiv(elapsedMs, 60_000);
    assert " minute" + "s" == " minutes";
    ConfirmPrefix + Dec(minutes) + " minute" + (if minutes != 1 then "s" else "") + ConfirmSuffix
  }

  /** The confirmation only appears from two minutes on, so it always counts
      at least two whole minutes and always says "minutes". */
  lemma ConfirmationIsPlural(sw: StopwatchState)
    requires ResetEnabled(sw) && OnResetPressed(sw) == ConfirmReset
    ensures KDiv(sw.elapsedMs, 60_000) >= 2
    ensures ConfirmText(sw.elapsedMs)
      == ConfirmPrefix + Dec(sw.elapsedMs / 60_000) + " minutes" + ConfirmSuffix
  {
  }

  /** "End" in the leave dialog: pause, reset, leave focus mode. The
      stopwatch ends stopped at zero with focus off and nothing banked, the
      typed texts stay, and the stored record is the one written at `now`. */
  method EndFocusSession(vm: FlowViewModel, now: int)
    modifies vm, vm.store
    ensures vm.ui == old(vm.ui).(stopwatch := Stopped, isInFlowMode := false)
    ensures vm.baseStartTimeMs == None && vm.accumulatedBeforeStartMs == 0
    ensures !vm.tickerActive && !vm.mirrorRequested && vm.error == old(vm.error)
    ensures ReadOngoing(vm.store.rows) == Some(vm.Snapshot(now))
    ensures vm.Valid()
  {
    vm.Pause(now);
    vm.Reset(now);
    vm.ExitFocusMode(now);
  }
}
