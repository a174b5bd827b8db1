/** The score time windows (utils/score/ScoreFilter.kt). */
module ScoreFilters {
  import opened Wrappers

  datatype ScoreFilter = Last24Hours | Last7Days | Last30Days | AllTime

  const HourMs := 60 * 60 * 1000
  const DayMs := 24 * HourMs

  /** Window length in milliseconds; `None` is "all time". */
  function DurationMs(f: ScoreFilter): (d: Option<int>)
    ensures d.None? <==> f == AllTime
    ensures d.Some? ==> d.value >= 24 * HourMs && d.value % DayMs == 0
  {
    match f
    case Last24Hours => Some(24 * HourMs)
    case Last7Days => Some(7 * DayMs)
    case Last30Days => Some(30 * DayMs)
    case AllTime => None
  }

  function Label(f: ScoreFilter): (r: string)
    ensures |r| > 0 && (r[0] == 'L' <==> f != AllTime)
  {
    match f
    case Last24Hours => "Last 24 hours"
    case Last7Days => "Last 7 days"
    case Last30Days => "Last 30 days"
    case AllTime => "All time"
  }

  /** `ScoreFilter.values()`: the declaration order. */
  const Values: seq<ScoreFilter> := [Last24Hours, Last7Days, Last30Days, AllTime]

  /** Position in declaration order. */
  function Ordinal(f: ScoreFilter): (i: nat)
    ensures i < |Values| && Values[i] == f
  {
    match f
    case Last24Hours => 0
    case Last7Days => 1
    case Last30Days => 2
    case AllTime => 3
  }

  /** The window lengths, in milliseconds. */
  lemma WindowLengths()
    ensures DurationMs(Last24Hours) == Some(86_400_000)
    ensures DurationMs(Last7Days) == Some(604_800_000)
    ensures DurationMs(Last30Days) == Some(2_592_000_000)
  {
  }

  /** All-time is the one window without a length. */
  lemma OnlyAllTimeIsUnbounded(f: ScoreFilter)
    ensures DurationMs(f).None? <==> f == AllTime
  {
  }

  /** `values()` lists every filter exactly once. */
  lemma ValuesListEachOnce(f: ScoreFilter)
    ensures f in Values
    ensures forall i, j :: 0 <= i < j < |Values| ==> Values[i] != Values[j]
  {
  }

  /** Windows grow strictly in declaration order; all-time comes last. */
  lemma WindowsGrowInOrder(f: ScoreFilter, g: ScoreFilter)
    requires Ordinal(f) < Ordinal(g)
    ensures f != AllTime
    ensures g != AllTime ==> DurationMs(f).value < DurationMs(g).value
  {
  }
}
