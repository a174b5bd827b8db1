/** The stopwatch block that both stopwatch screens draw: the clock text of
    the reading and when the Reset button is enabled. ui/skills/AddSkillScreen.kt
    and ui/skills/FocusOnScreen.kt each declare the same private
    `formatElapsed` and the same Reset enablement; they are defined once here. */
module StopwatchSections {
  import opened LongMath
  import opened Text
  import opened TimeFormat
  import opened Stopwatch

  /** `formatElapsed(elapsedMs)`: the reading truncated to whole seconds,
      shown as "h:mm:ss" when there are hours and "mm:ss" otherwise. */
  function FormatElapsed(elapsedMs: int): (r: string)
    ensures '\n' !in r
  {
    FormatClock(KDiv(elapsedMs, MillisPerSecond))
  }

  /** The clock text of a reading reads back as its whole seconds: three
      fields from one hour on, two below, and every field after the first
      below 60. */
  lemma {:induction false} FormatElapsedReadsBack(elapsedMs: int)
    requires elapsedMs >= 0
    ensures var fields := DigitRuns(FormatElapsed(elapsedMs));
      && |fields| == (if elapsedMs >= 3_600_000 then 3 else 2)
      && Sexagesimal(fields) == elapsedMs / 1000
      && forall i :: 1 <= i < |fields| ==> fields[i] < 60
  {
    FormatClockReadsBack(elapsedMs / 1000);
  }

  /** Two readings within the same second show the same text. */
  lemma SameSecondSameText(a: int, b: int)
    requires 0 <= a && 0 <= b && a / 1000 == b / 1000
    ensures FormatElapsed(a) == FormatElapsed(b)
  {
  }

  /** Reset is offered only on a paused stopwatch that has something to
      clear: for a non-negative reading, exactly when it is stopped and not
      already at zero. */
  function ResetEnabled(sw: StopwatchState): (r: bool)
    ensures r ==> !sw.isRunning && sw != Stopped
  {
    sw.elapsedMs > 0 && !sw.isRunning
  }

  /** For a non-negative reading, Reset is enabled exactly when pressing it
      would change a stopped stopwatch. */
  lemma ResetEnabledIffItChangesSomething(sw: StopwatchState)
    requires sw.elapsedMs >= 0
    ensures ResetEnabled(sw) <==> !sw.isRunning && sw != Stopped
  {
  }
}
