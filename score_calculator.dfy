/** Tiered scoring of finished sessions (utils/score/ScoreCalculator.kt,
    ScoreBreakdown.kt). */
module ScoreCalculator {
  import opened LongMath
  import opened SessionEntities

  const MillisPerMinute := 60_000

  datatype ScoreBreakdown = ScoreBreakdown(
    minutes: int,
    basePoints: int,
    tenMinuteBonuses: int,
    thirtyMinuteBonuses: int,
    sixtyMinuteBonuses: int,
    totalPoints: int)

  /** Whole minutes of a duration: truncating division, negatives clamp to 0. */
  function WholeMinutes(durationMs: int): (m: int)
    ensures m >= 0
    ensures durationMs >= 0 ==> m * MillisPerMinute <= durationMs < (m + 1) * MillisPerMinute
    ensures durationMs < MillisPerMinute ==> m == 0
  {
    var q := KDiv(durationMs, MillisPerMinute);
    if durationMs < 0 then
      NegativeQuotientAndRemainder(durationMs, MillisPerMinute);
      ClampNonNegative(q)
    else
      ClampNonNegative(q)
  }

  /** `ScoreCalculator.breakdownFromDuration` */
  function BreakdownFromDuration(durationMs: int): (b: ScoreBreakdown)
    ensures b.minutes >= 0 && b.basePoints == b.minutes
    ensures durationMs >= 0 ==> b.minutes * MillisPerMinute <= durationMs < (b.minutes + 1) * MillisPerMinute
    ensures durationMs < MillisPerMinute ==> b == ScoreBreakdown(0, 0, 0, 0, 0, 0)
    ensures b.tenMinuteBonuses * 10 <= b.minutes < (b.tenMinuteBonuses + 1) * 10
    ensures b.thirtyMinuteBonuses * 30 <= b.minutes < (b.thirtyMinuteBonuses + 1) * 30
    ensures b.sixtyMinuteBonuses * 60 <= b.minutes < (b.sixtyMinuteBonuses + 1) * 60
    ensures b.totalPoints == b.basePoints + 5 * b.tenMinuteBonuses
      + 15 * b.thirtyMinuteBonuses + 50 * b.sixtyMinuteBonuses
    ensures b.minutes <= b.totalPoints <= 3 * b.minutes
  {
    var minutes := WholeMinutes(durationMs);
    var basePoints := minutes;
    var ten := minutes / 10;
    var thirty := minutes / 30;
    var sixty := minutes / 60;
    ScoreBreakdown(minutes, basePoints, ten, thirty, sixty,
      basePoints + ten * 5 + thirty * 15 + sixty * 50)
  }

  /** Points earned by one session. */
  function SessionPoints(s: SessionEntity): (p: int)
    ensures p >= 0
    ensures p == 0 <==> s.durationMs < MillisPerMinute
    ensures s.durationMs >= 0 ==> p >= s.durationMs / MillisPerMinute
  {
    BreakdownFromDuration(s.durationMs).totalPoints
  }

  /** `ScoreCalculator.totalScoreForSessions`: the sum of per-session totals. */
  function TotalScoreForSessions(sessions: seq<SessionEntity>): (total: int)
    ensures total >= 0
    ensures sessions == [] ==> total == 0
  {
    if sessions == [] then 0
    else SessionPoints(sessions[0]) + TotalScoreForSessions(sessions[1..])
  }

  /** Ten minutes earn 10 base points and one ten-minute bonus: 15 in all. */
  lemma TenMinutePoints()
    ensures BreakdownFromDuration(10 * MillisPerMinute).tenMinuteBonuses == 1
    ensures BreakdownFromDuration(10 * MillisPerMinute).totalPoints == 15
  {
    WholeMinuteBreakdown(10);
  }

  /** The breakdown of a whole number of minutes, field by field. */
  lemma WholeMinuteBreakdown(m: nat)
    ensures BreakdownFromDuration(m * MillisPerMinute)
      == ScoreBreakdown(m, m, m / 10, m / 30, m / 60, m + 5 * (m / 10) + 15 * (m / 30) + 50 * (m / 60))
  {
    var d := m * MillisPerMinute;
    WholeMinutesExact(m);
    assert WholeMinutes(d) == m;
    var w := WholeMinutes(d);
    assert BreakdownFromDuration(d) == ScoreBreakdown(w, w, w / 10, w / 30, w / 60,
      w + w / 10 * 5 + w / 30 * 15 + w / 60 * 50);
  }

  /** One hour earns 60 base points plus 6 ten-minute, 2 thirty-minute and
      1 sixty-minute bonuses: 170 in all. */
  lemma OneHourPoints()
    ensures BreakdownFromDuration(60 * MillisPerMinute).tenMinuteBonuses == 6
    ensures BreakdownFromDuration(60 * MillisPerMinute).thirtyMinuteBonuses == 2
    ensures BreakdownFromDuration(60 * MillisPerMinute).sixtyMinuteBonuses == 1
    ensures BreakdownFromDuration(60 * MillisPerMinute).totalPoints == 170
  {
    WholeMinuteBreakdown(60);
  }

  /** A whole number of minutes reads back as that many minutes. */
  lemma WholeMinutesExact(m: nat)
    ensures WholeMinutes(m * MillisPerMinute) == m
  {
    var w := WholeMinutes(m * MillisPerMinute);
    assert w * MillisPerMinute <= m * MillisPerMinute < (w + 1) * MillisPerMinute;
  }

  /** Seconds beyond a whole minute earn nothing. */
  lemma SecondsEarnNothing(m: nat, extraMs: int)
    requires 0 <= extraMs < MillisPerMinute
    ensures BreakdownFromDuration(m * MillisPerMinute + extraMs) == BreakdownFromDuration(m * MillisPerMinute)
  {
    var a := BreakdownFromDuration(m * MillisPerMinute + extraMs);
    var b := BreakdownFromDuration(m * MillisPerMinute);
    assert a.minutes == m by {
      assert a.minutes * MillisPerMinute <= m * MillisPerMinute + extraMs < (a.minutes + 1) * MillisPerMinute;
    }
    assert b.minutes == m;
  }

  /** Whole minutes never decrease as the duration grows. */
  lemma WholeMinutesMonotone(d1: int, d2: int)
    requires d1 <= d2
    ensures WholeMinutes(d1) <= WholeMinutes(d2)
  {
  }

  /** The bonus counts never decrease as the minutes grow. */
  lemma BonusCountsMonotone(a: nat, b: nat)
    requires a <= b
    ensures a / 10 <= b / 10 && a / 30 <= b / 30 && a / 60 <= b / 60
  {
  }

  /** Total points never decrease as the duration grows. */
  lemma PointsMonotone(d1: int, d2: int)
    requires d1 <= d2
    ensures BreakdownFromDuration(d1).totalPoints <= BreakdownFromDuration(d2).totalPoints
  {
    WholeMinutesMonotone(d1, d2);
    var m1, m2 := WholeMinutes(d1), WholeMinutes(d2);
    BonusCountsMonotone(m1, m2);
  }

  /** The session score is additive over concatenation of session lists. */
  lemma {:induction false} TotalScoreAdditive(a: seq<SessionEntity>, b: seq<SessionEntity>)
    ensures TotalScoreForSessions(a + b) == TotalScoreForSessions(a) + TotalScoreForSessions(b)
  {
    if a == [] {
      assert a + b == b;
    } else {
      assert (a + b)[1..] == a[1..] + b;
      TotalScoreAdditive(a[1..], b);
    }
  }

  /** A list scores zero exactly when no session in it lasts a whole minute. */
  lemma {:induction false} ZeroScoreIffNoWholeMinute(sessions: seq<SessionEntity>)
    ensures TotalScoreForSessions(sessions) == 0 <==>
      forall i :: 0 <= i < |sessions| ==> sessions[i].durationMs < MillisPerMinute
  {
    if sessions != [] {
      ZeroScoreIffNoWholeMinute(sessions[1..]);
      var b := BreakdownFromDuration(sessions[0].durationMs);
      if sessions[0].durationMs >= MillisPerMinute {
        assert b.minutes >= 1;
      }
      forall i | 1 <= i < |sessions|
        ensures sessions[i] == sessions[1..][i - 1]
      {
      }
    }
  }

  /** Scores are not computed on aggregate time: a 55-minute and a 5-minute
      session earn 95 + 5 = 100, while one 60-minute session earns 170. */
  lemma SplitSessionsScoreLess(s55: SessionEntity, s5: SessionEntity, s60: SessionEntity)
    requires s55.durationMs == 55 * MillisPerMinute
    requires s5.durationMs == 5 * MillisPerMinute
    requires s60.durationMs == 60 * MillisPerMinute
    ensures TotalScoreForSessions([s55, s5]) == 100
    ensures TotalScoreForSessions([s60]) == 170
  {
    assert [s55, s5][1..] == [s5];
    assert SessionPoints(s55) == 95;
    assert SessionPoints(s5) == 5;
    assert SessionPoints(s60) == 170;
  }
}
