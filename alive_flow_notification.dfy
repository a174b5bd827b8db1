/** The text and timing of the ongoing-session notification
    (ui/notification/AliveFlowNotificationFactory.kt). The notification
    builder itself is platform code; the model is the record of what it is
    given. */
module AliveFlowNotifications {
  import opened Wrappers
  import opened LongMath
  import opened Text
  import opened TimeFormat
  import opened OngoingSessions

  const FallbackTitle := "Flow in progress"
  const FallbackTag := "Unassigned Skill"
  const RunningStatus := "Alive • Running"
  const PausedStatus := "Alive • Paused"
  const StartedAtLabel := " • Started at "
  const TotalLabel := " • Total "

  /** What the notification builder is given. */
  datatype AliveNotification = AliveNotification(
    title: string,
    contentText: string,
    bigText: string,
    showWhen: bool,
    whenMs: int,
    usesChronometer: bool)

  /** `max(0, elapsedMs / 1000)`: whole seconds, never negative. */
  function ElapsedSeconds(elapsedMs: int): (s: int)
    ensures s >= 0
    ensures elapsedMs >= 0 ==> s * MillisPerSecond <= elapsedMs < (s + 1) * MillisPerSecond
    ensures elapsedMs < MillisPerSecond ==> s == 0
  {
    if elapsedMs < 0 then
      NegativeQuotientAndRemainder(elapsedMs, MillisPerSecond);
      ClampNonNegative(KDiv(elapsedMs, MillisPerSecond))
    else ClampNonNegative(KDiv(elapsedMs, MillisPerSecond))
  }

  /** The start of the focus session as the notification states it: the run
      start minus the banked time when a run start is stored, otherwise the
      clock minus the elapsed time. */
  function TrueStartTimeMs(e: OngoingSessionEntity, elapsedMs: int, now: int): (t: int)
    ensures e.baseStartTimeMs.Some? ==> t + e.accumulatedBeforeStartMs == e.baseStartTimeMs.value
    ensures e.baseStartTimeMs.None? ==> t + elapsedMs == now
  {
    match e.baseStartTimeMs
    case Some(base) => base - e.accumulatedBeforeStartMs
    case None => now - elapsedMs
  }

  /** `s.takeIf { it.isNotBlank() } ?: fallback` */
  function OrFallback(s: string, fallback: string): (r: string)
    ensures IsBlank(s) ==> r == fallback
    ensures !IsBlank(s) ==> r == s
    ensures !IsBlank(fallback) ==> !IsBlank(r)
  {
    if IsBlank(s) then fallback else s
  }

  function Status(isRunning: bool): (r: string)
    ensures r == RunningStatus <==> isRunning
    ensures r == PausedStatus <==> !isRunning
  {
    if isRunning then RunningStatus else PausedStatus
  }

  /** The second line: the start time while running, the total while paused.
      `startedAtText` is the locale clock text of the start time. */
  function Line2(isRunning: bool, elapsedMs: int, startedAtText: string): (r: string)
    ensures |r| >= |Status(isRunning)| && r[..|Status(isRunning)|] == Status(isRunning)
    ensures '\n' !in startedAtText ==> '\n' !in r
  {
    var rest := if isRunning then StartedAtLabel + startedAtText
                else TotalLabel + FormatClock(ElapsedSeconds(elapsedMs));
    assert '\n' !in StartedAtLabel && '\n' !in TotalLabel && '\n' !in Status(isRunning) by {
      LabelsAreOneLine();
    }
    Status(isRunning) + rest
  }

  /** The fixed texts of the second line hold no line break. */
  lemma LabelsAreOneLine()
    ensures '\n' !in StartedAtLabel && '\n' !in TotalLabel
    ensures '\n' !in RunningStatus && '\n' !in PausedStatus && '\n' !in FallbackTag
  {
    assert forall i :: 0 <= i < |FallbackTag| ==> FallbackTag[i] != '\n';
    assert forall i :: 0 <= i < |StartedAtLabel| ==> StartedAtLabel[i] != '\n';
    assert forall i :: 0 <= i < |TotalLabel| ==> TotalLabel[i] != '\n';
    assert forall i :: 0 <= i < |RunningStatus| ==> RunningStatus[i] != '\n';
    assert forall i :: 0 <= i < |PausedStatus| ==> PausedStatus[i] != '\n';
  }

  /** The expanded text: the skill, then the trimmed description when it is
      not blank, then the second line, one per line. */
  function BigText(tag: string, description: string, line2: string): (r: string)
    ensures |r| > |tag| + |line2| && r[..|tag|] == tag && r[|r| - |line2| - 1..] == "\n" + line2
  {
    tag + (if IsBlank(description) then "" else "\n" + Trim(description)) + "\n" + line2
  }

  /** `buildNotification(entity, elapsedMs)` with the clock reading `now` and
      the platform's clock-text formatter. */
  function BuildNotification(e: OngoingSessionEntity, elapsedMs: int, now: int,
                             formatClockTime: int -> string): (n: AliveNotification)
    ensures !IsBlank(n.title) && (!IsBlank(e.title) ==> n.title == e.title)
    ensures IsBlank(e.title) ==> n.title == FallbackTitle
    ensures n.contentText == Line2(e.isRunning, elapsedMs, formatClockTime(TrueStartTimeMs(e, elapsedMs, now)))
    ensures n.bigText == BigText(OrFallback(e.tagName, FallbackTag), e.description, n.contentText)
    ensures n.showWhen == e.isRunning && n.usesChronometer == e.isRunning
    ensures n.whenMs + elapsedMs == now
  {
    assert !IsBlank(FallbackTitle) by { assert !IsWhitespace(FallbackTitle[0]); }
    var title := OrFallback(e.title, FallbackTitle);
    var tag := OrFallback(e.tagName, FallbackTag);
    var line2 := Line2(e.isRunning, elapsedMs, formatClockTime(TrueStartTimeMs(e, elapsedMs, now)));
    AliveNotification(title, line2, BigText(tag, e.description, line2),
      e.isRunning, now - elapsedMs, e.isRunning)
  }

  /** What the notification says, line by line: the expanded text is the
      skill (or "Unassigned Skill"), the trimmed description when it is not
      blank, and the collapsed text; the collapsed text starts with the
      status, and while paused its numbers read back as the whole seconds. */
  lemma NotificationText(e: OngoingSessionEntity, elapsedMs: int, now: int, formatClockTime: int -> string)
    requires '\n' !in e.tagName && '\n' !in Trim(e.description)
    requires '\n' !in formatClockTime(TrueStartTimeMs(e, elapsedMs, now))
    ensures var n := BuildNotification(e, elapsedMs, now, formatClockTime);
      && Lines(n.bigText) == [OrFallback(e.tagName, FallbackTag)]
           + (if IsBlank(e.description) then [] else [Trim(e.description)]) + [n.contentText]
      && n.contentText[..|Status(e.isRunning)|] == Status(e.isRunning)
      && (!e.isRunning && elapsedMs >= 0 ==> Sexagesimal(DigitRuns(n.contentText)) == elapsedMs / 1000)
  {
    var n := BuildNotification(e, elapsedMs, now, formatClockTime);
    var tag := OrFallback(e.tagName, FallbackTag);
    LabelsAreOneLine();
    BigTextLines(tag, e.description, n.contentText);
    if !e.isRunning && elapsedMs >= 0 {
      PausedLineReadsBack(elapsedMs, formatClockTime(TrueStartTimeMs(e, elapsedMs, now)));
    }
  }

  /** The second line starts with the status, and the paused total reads back
      as the whole seconds elapsed. */
  lemma PausedLineReadsBack(elapsedMs: int, startedAtText: string)
    requires elapsedMs >= 0
    ensures var line := Line2(false, elapsedMs, startedAtText);
      line[..|PausedStatus|] == PausedStatus
      && Sexagesimal(DigitRuns(line)) == elapsedMs / 1000
  {
    var secs := ElapsedSeconds(elapsedMs);
    var clock := FormatClock(secs);
    assert Line2(false, elapsedMs, startedAtText) == PausedStatus + (TotalLabel + clock);
    PausedPrefixHasNoDigits();
    TextWithoutDigitsReadsNothing(PausedStatus, TotalLabel + clock);
    TextWithoutDigitsReadsNothing(TotalLabel, clock);
    FormatClockReadsBack(secs);
  }

  lemma PausedPrefixHasNoDigits()
    ensures forall i :: 0 <= i < |PausedStatus| ==> !IsDigit(PausedStatus[i])
    ensures forall i :: 0 <= i < |TotalLabel| ==> !IsDigit(TotalLabel[i])
  {
  }

  /** Text without digits in front of `s` adds no numbers to it. */
  lemma TextWithoutDigitsReadsNothing(prefix: string, s: string)
    requires prefix != [] && forall i :: 0 <= i < |prefix| ==> !IsDigit(prefix[i])
    ensures DigitRuns(prefix + s) == DigitRuns(s)
  {
    var s0 := Scan([], 0, false);
    RunAppend(s0, prefix, s);
    RunSeparator(s0, prefix);
  }

  /** The expanded text is the skill line, the trimmed description line only
      when the description is not blank, and the second line. */
  lemma BigTextLines(tag: string, description: string, line2: string)
    requires '\n' !in tag && '\n' !in line2 && '\n' !in Trim(description)
    ensures Lines(BigText(tag, description, line2))
      == [tag] + (if IsBlank(description) then [] else [Trim(description)]) + [line2]
  {
    var text := BigText(tag, description, line2);
    if IsBlank(description) {
      assert text == tag + "\n" + line2;
      OneLine(line2);
      LinesAfterBreak(tag, line2);
    } else {
      ThreeLines(tag, Trim(description), line2);
    }
  }

  /** Three break-free lines joined by breaks split back into those lines. */
  lemma ThreeLines(a: string, b: string, c: string)
    requires '\n' !in a && '\n' !in b && '\n' !in c
    ensures Lines(a + ("\n" + b) + "\n" + c) == [a, b, c]
  {
    OneLine(c);
    LinesAfterBreak(b, c);
    assert a + ("\n" + b) + "\n" + c == a + "\n" + (b + "\n" + c);
    LinesAfterBreak(a, b + "\n" + c);
  }
}
