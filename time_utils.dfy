/** Duration text: `formatDuration` from utils/TimeUtils.kt and the
    `h:mm:ss` / `mm:ss` clock text that the notification and both stopwatch
    screens render with the same arithmetic. */
module TimeFormat {
  import opened LongMath
  import opened Text

  const MillisPerSecond := 1000

  datatype Hms = Hms(hours: int, minutes: int, seconds: int)

  /** Hours, minutes and seconds of a whole number of seconds, computed with
      Kotlin's truncating `/` and `%`. */
  function SplitSeconds(totalSeconds: int): (r: Hms)
    ensures totalSeconds >= 0 ==>
      && r.hours >= 0 && 0 <= r.minutes < 60 && 0 <= r.seconds < 60
      && r.hours * 3600 + r.minutes * 60 + r.seconds == totalSeconds
  {
    if totalSeconds >= 0 then
      HourMinuteSecondParts(totalSeconds);
      Hms(KDiv(totalSeconds, 3600), KDiv(KRem(totalSeconds, 3600), 60), KRem(totalSeconds, 60))
    else
      Hms(KDiv(totalSeconds, 3600), KDiv(KRem(totalSeconds, 3600), 60), KRem(totalSeconds, 60))
  }

  /** The hour, minute and second parts of a non-negative count add back up. */
  lemma HourMinuteSecondParts(n: int)
    requires n >= 0
    ensures 0 <= (n % 3600) / 60 < 60
    ensures (n / 3600) * 3600 + ((n % 3600) / 60) * 60 + n % 60 == n
  {
    var h, r := n / 3600, n % 3600;
    assert n == h * 3600 + r && 0 <= r < 3600;
    var m, sec := r / 60, r % 60;
    assert r == m * 60 + sec && 0 <= sec < 60;
    assert n == (h * 60 + m) * 60 + sec;
    assert n % 60 == sec;
  }

  /** With truncating arithmetic a negative count of seconds has no positive part. */
  lemma SplitNegativeSeconds(totalSeconds: int)
    requires totalSeconds < 0
    ensures var r := SplitSeconds(totalSeconds);
      r.hours <= 0 && r.minutes <= 0 && r.seconds <= 0
  {
    NegativeQuotientAndRemainder(totalSeconds, 3600);
    NegativeQuotientAndRemainder(totalSeconds, 60);
    if KRem(totalSeconds, 3600) < 0 {
      NegativeQuotientAndRemainder(KRem(totalSeconds, 3600), 60);
    }
  }

  /** `formatElapsed(seconds)`: "h:mm:ss" when there are hours, else "mm:ss". */
  function FormatClock(totalSeconds: int): (r: string)
    ensures '\n' !in r
  {
    var t := SplitSeconds(totalSeconds);
    NumbersAreOneLine(t.hours);
    NumbersAreOneLine(t.minutes);
    NumbersAreOneLine(t.seconds);
    if t.hours > 0 then Dec(t.hours) + ":" + Pad2(t.minutes) + ":" + Pad2(t.seconds)
    else Pad2(t.minutes) + ":" + Pad2(t.seconds)
  }

  /** `formatDuration(durationMs)` */
  function FormatDuration(durationMs: int): (r: string)
    ensures |r| > 4 && r[|r| - 4..] == " sec"
  {
    var t := SplitSeconds(KDiv(durationMs, MillisPerSecond));
    if t.hours > 0 then Dec(t.hours) + " hr " + Pad2(t.minutes) + " min " + Pad2(t.seconds) + " sec"
    else if t.minutes > 0 then Dec(t.minutes) + " min " + Pad2(t.seconds) + " sec"
    else Dec(t.seconds) + " sec"
  }

  /** Reading the numbers of "a<sep1>b<sep2>c<sep3>" gives [a, b, c]. */
  lemma ThreeFields(a: nat, sep1: string, b: nat, sep2: string, c: nat, sep3: string, text: string)
    requires sep1 != [] && forall i :: 0 <= i < |sep1| ==> !IsDigit(sep1[i])
    requires sep2 != [] && forall i :: 0 <= i < |sep2| ==> !IsDigit(sep2[i])
    requires forall i :: 0 <= i < |sep3| ==> !IsDigit(sep3[i])
    requires text == NatDec(a) + sep1 + Pad2(b) + sep2 + Pad2(c) + sep3
    ensures DigitRuns(text) == [a, b, c]
  {
    var s0 := Scan([], 0, false);
    var p1 := NatDec(a);
    RunNatDec(s0, a);
    var p2 := p1 + sep1;
    RunAppend(s0, p1, sep1);
    RunSeparator(Scan([], a, true), sep1);
    assert Run(s0, p2) == Scan([a], 0, false);
    var p3 := p2 + Pad2(b);
    RunAppend(s0, p2, Pad2(b));
    RunPad2(Scan([a], 0, false), b);
    assert Run(s0, p3) == Scan([a], b, true);
    var p4 := p3 + sep2;
    RunAppend(s0, p3, sep2);
    RunSeparator(Scan([a], b, true), sep2);
    assert Run(s0, p4) == Scan([a, b], 0, false);
    var p5 := p4 + Pad2(c);
    RunAppend(s0, p4, Pad2(c));
    RunPad2(Scan([a, b], 0, false), c);
    assert Run(s0, p5) == Scan([a, b], c, true);
    RunAppend(s0, p5, sep3);
    assert text == p5 + sep3;
    if sep3 != [] {
      RunSeparator(Scan([a, b], c, true), sep3);
    } else {
      assert Run(Scan([a, b], c, true), sep3) == Scan([a, b], c, true);
    }
    assert Close(Run(s0, text)).runs == [a, b] + [c];
  }

  /** Reading the numbers of "a<sep1>b<sep2>" gives [a, b]. */
  lemma TwoFields(a: nat, sep1: string, b: nat, sep2: string, text: string, padFirst: bool)
    requires sep1 != [] && forall i :: 0 <= i < |sep1| ==> !IsDigit(sep1[i])
    requires forall i :: 0 <= i < |sep2| ==> !IsDigit(sep2[i])
    requires text == (if padFirst then Pad2(a) else NatDec(a)) + sep1 + Pad2(b) + sep2
    ensures DigitRuns(text) == [a, b]
  {
    var s0 := Scan([], 0, false);
    var p1 := if padFirst then Pad2(a) else NatDec(a);
    if padFirst { RunPad2(s0, a); } else { RunNatDec(s0, a); }
    assert Run(s0, p1) == Scan([], a, true);
    var p2 := p1 + sep1;
    RunAppend(s0, p1, sep1);
    RunSeparator(Scan([], a, true), sep1);
    assert Run(s0, p2) == Scan([a], 0, false);
    var p3 := p2 + Pad2(b);
    RunAppend(s0, p2, Pad2(b));
    RunPad2(Scan([a], 0, false), b);
    assert Run(s0, p3) == Scan([a], b, true);
    RunAppend(s0, p3, sep2);
    assert text == p3 + sep2;
    if sep2 != [] {
      RunSeparator(Scan([a], b, true), sep2);
    } else {
      assert Run(Scan([a], b, true), sep2) == Scan([a], b, true);
    }
    assert Close(Run(s0, text)).runs == [a] + [b];
  }

  lemma SexagesimalOfOne(a: nat)
    ensures Sexagesimal([a]) == a
  {
    assert [a][..0] == [];
  }

  lemma SexagesimalOfTwo(a: nat, b: nat)
    ensures Sexagesimal([a, b]) == a * 60 + b
  {
    assert [a, b][..1] == [a];
    SexagesimalOfOne(a);
  }

  lemma SexagesimalOfThree(a: nat, b: nat, c: nat)
    ensures Sexagesimal([a, b, c]) == a * 3600 + b * 60 + c
  {
    assert [a, b, c][..2] == [a, b];
    SexagesimalOfTwo(a, b);
  }

  lemma NoDigits(s: string)
    requires s in {":", " hr ", " min ", " sec"}
    ensures forall i :: 0 <= i < |s| ==> !IsDigit(s[i])
  {
  }

  /** The clock text reads back as the number of seconds it was made from:
      three fields when there are hours, two otherwise, and every field after
      the first below 60. */
  lemma {:induction false} FormatClockReadsBack(totalSeconds: int)
    requires totalSeconds >= 0
    ensures var fields := DigitRuns(FormatClock(totalSeconds));
      && |fields| == (if totalSeconds >= 3600 then 3 else 2)
      && Sexagesimal(fields) == totalSeconds
      && forall i :: 1 <= i < |fields| ==> fields[i] < 60
  {
    var t := SplitSeconds(totalSeconds);
    NoDigits(":");
    if t.hours > 0 {
      ThreeFields(t.hours, ":", t.minutes, ":", t.seconds, "", FormatClock(totalSeconds));
      SexagesimalOfThree(t.hours, t.minutes, t.seconds);
    } else {
      TwoFields(t.minutes, ":", t.seconds, "", FormatClock(totalSeconds), true);
      SexagesimalOfTwo(t.minutes, t.seconds);
    }
  }

  /** `formatDuration` shows every unit from the largest non-zero one down, and
      its numbers read back as the whole seconds of the duration. */
  lemma {:induction false} FormatDurationReadsBack(durationMs: int)
    requires durationMs >= 0
    ensures var fields := DigitRuns(FormatDuration(durationMs));
      && |fields| == (if durationMs >= 3_600_000 then 3 else if durationMs >= 60_000 then 2 else 1)
      && Sexagesimal(fields) == durationMs / 1000
      && forall i :: 1 <= i < |fields| ==> fields[i] < 60
  {
    var total := durationMs / 1000;
    var t := SplitSeconds(total);
    NoDigits(" hr ");
    NoDigits(" min ");
    NoDigits(" sec");
    if t.hours > 0 {
      ThreeFields(t.hours, " hr ", t.minutes, " min ", t.seconds, " sec", FormatDuration(durationMs));
      SexagesimalOfThree(t.hours, t.minutes, t.seconds);
    } else if t.minutes > 0 {
      TwoFields(t.minutes, " min ", t.seconds, " sec", FormatDuration(durationMs), false);
      SexagesimalOfTwo(t.minutes, t.seconds);
    } else {
      var s0 := Scan([], 0, false);
      RunNatDec(s0, t.seconds);
      RunAppend(s0, NatDec(t.seconds), " sec");
      RunSeparator(Scan([], t.seconds, true), " sec");
      SexagesimalOfOne(t.seconds);
    }
  }

  /** A negative duration falls through to the seconds-only text, with a
      non-positive count. */
  lemma NegativeDurationShowsSecondsOnly(durationMs: int)
    requires durationMs < 0
    ensures var s := KRem(KDiv(durationMs, 1000), 60);
      s <= 0 && FormatDuration(durationMs) == Dec(s) + " sec"
  {
    NegativeQuotientAndRemainder(durationMs, 1000);
    if KDiv(durationMs, 1000) < 0 {
      SplitNegativeSeconds(KDiv(durationMs, 1000));
    }
  }
}
