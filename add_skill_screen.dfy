/** The decisions of the add-session screen (ui/skills/AddSkillScreen.kt):
    which stopwatch button it shows, when Save and Cancel are enabled, and
    what Back does. Its stopwatch is the one of `AddSessionViewModel`. */
module AddSkillScreens {
  import opened Text
  import opened Stopwatch
  import opened StopwatchSections
  import opened JourneyRepositories
  import opened AddSessionViewModels

  /** The primary stopwatch button. */
  datatype PrimaryButton = StartButton | PauseButton | ResumeButton

  /** "Start" on a fresh stopwatch, "Pause" while running, "Resume" on a
      paused reading. */
  function PrimaryButtonFor(sw: StopwatchState): (b: PrimaryButton)
    ensures b == StartButton <==> sw == Stopped
    ensures b == PauseButton <==> sw.isRunning
    ensures b == ResumeButton <==> !sw.isRunning && sw.elapsedMs != 0
  {
    if !sw.isRunning && sw.elapsedMs == 0 then StartButton
    else if sw.isRunning then PauseButton
    else ResumeButton
  }

  /** Pressing the primary button: Start and Resume call
      `startOrResumeStopwatch`, Pause calls `pauseStopwatch`. Either way the
      stopwatch flips between running and stopped, the reading is kept, and
      Reset is never enabled while it runs. */
  method PressPrimary(vm: AddSessionViewModel)
    modifies vm
    ensures vm.stopwatch.isRunning == !old(vm.stopwatch.isRunning)
    ensures vm.stopwatch.elapsedMs == old(vm.stopwatch.elapsedMs)
    ensures vm.timerActive == vm.stopwatch.isRunning
    ensures vm.stopwatch.isRunning ==> !ResetEnabled(vm.stopwatch)
    ensures vm.isSaving == old(vm.isSaving) && vm.error == old(vm.error)
    ensures old(vm.Valid()) ==> vm.Valid()
  {
    match PrimaryButtonFor(vm.stopwatch)
    case PauseButton => vm.Pause();
    case _ => vm.StartOrResume();
  }

  /** Save is enabled when both title and skill name have a non-blank
      character and no save is running; focus mode does not matter here. */
  function SaveEnabled(title: string, tagName: string, isSaving: bool): (r: bool)
    ensures r <==> Trim(title) != [] && Trim(tagName) != [] && !isSaving
    ensures r <==> !IsBlank(title) && !IsBlank(tagName) && !isSaving
  {
    TrimEmptyIffBlank(title);
    TrimEmptyIffBlank(tagName);
    !IsBlank(title) && !IsBlank(tagName) && !isSaving
  }

  /** An enabled Save never meets the repository's empty-name error: the
      skill lookup succeeds on every tag table. */
  lemma EnabledSaveFindsSkill(title: string, tagName: string, st: TagStore, now: int)
    requires SaveEnabled(title, tagName, false)
    ensures GetOrCreate(st, tagName, now).0.Ok?
  {
  }

  /** Cancel is enabled when nothing is being saved and the stopwatch is stopped. */
  function CancelEnabled(sw: StopwatchState, isSaving: bool): (r: bool)
    ensures r <==> !isSaving && !sw.isRunning
    ensures !isSaving && sw == Stopped ==> r
  {
    !isSaving && !sw.isRunning
  }

  /** The "End Focus Session?" dialog's confirm button: it pauses, then
      resets the stopwatch, before the screen is left. Whatever the reading
      was, it is discarded, no session is written and the ticker stops. */
  method EndAndLeave(vm: AddSessionViewModel)
    modifies vm
    ensures vm.stopwatch == Stopped && !vm.timerActive
    ensures PrimaryButtonFor(vm.stopwatch) == StartButton && CancelEnabled(vm.stopwatch, false)
    ensures vm.isSaving == old(vm.isSaving) && vm.error == old(vm.error)
    ensures vm.Valid()
  {
    vm.Pause();
    vm.Reset();
  }

  /** What Back (the arrow or the system back) does. */
  datatype BackOutcome = ShowEndDialog | LeaveScreen

  /** A running stopwatch asks "End Focus Session?" first; otherwise the
      screen is left at once, so it is never left with the stopwatch running. */
  function OnBack(sw: StopwatchState): (r: BackOutcome)
    ensures r == ShowEndDialog <==> sw.isRunning
    ensures r == LeaveScreen ==> !sw.isRunning && CancelEnabled(sw, false)
  {
    if sw.isRunning then ShowEndDialog else LeaveScreen
  }
}
