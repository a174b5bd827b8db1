/** Finished sessions, tags, the score-window test and the list screen state
    (data/model/entity/SessionEntity.kt, TagEntity.kt). */
module SessionEntities {
  import opened Wrappers
  import opened ScoreFilters

  datatype SessionEntity = SessionEntity(
    id: int,
    title: string,
    description: string,
    tagId: int,
    startTime: int,
    endTime: int,
    durationMs: int,
    createdAt: int)

  datatype TagEntity = TagEntity(id: int, name: string, createdAt: int)

  datatype TagUiModel = TagUiModel(id: int, name: string)

  datatype SessionListItemUiModel = SessionListItemUiModel(
    sessionId: int,
    title: string,
    description: string,
    tagName: string,
    durationMs: int,
    createdAt: int)

  datatype SessionListUiState = SessionListUiState(
    isLoading: bool,
    sessions: seq<SessionListItemUiModel>,
    tags: seq<TagUiModel>,
    selectedTagId: Option<int>,
    totalDurationMs: int,
    errorMessage: Option<string>,
    scoreFilter: ScoreFilter,
    currentScore: int)

  /** `SessionListUiState()` with its default arguments. */
  const DefaultSessionListUiState :=
    SessionListUiState(true, [], [], None, 0, None, Last7Days, 0)

  /** `SessionEntity.isInScoreWindow(nowMs, filter)` */
  function IsInScoreWindow(s: SessionEntity, nowMs: int, filter: ScoreFilter): (r: bool)
    ensures filter == AllTime ==> r
    ensures filter != AllTime ==> (r <==> nowMs - s.createdAt <= DurationMs(filter).value)
  {
    if filter == AllTime then true
    else match DurationMs(filter)
      case None => true
      case Some(windowLengthMs) => s.createdAt >= nowMs - windowLengthMs
  }

  /** The default list state: loading, nothing listed, last 7 days, score 0. */
  lemma DefaultListState()
    ensures DefaultSessionListUiState.isLoading
    ensures DefaultSessionListUiState.sessions == [] && DefaultSessionListUiState.tags == []
    ensures DefaultSessionListUiState.selectedTagId == None
    ensures DefaultSessionListUiState.totalDurationMs == 0 && DefaultSessionListUiState.currentScore == 0
    ensures DefaultSessionListUiState.scoreFilter == Last7Days
    ensures DefaultSessionListUiState.errorMessage == None
  {
  }

  /** All-time holds every session; a timed window holds a session exactly when
      it was created no earlier than `now` minus the window length (the
      boundary instant is inside). */
  lemma WindowMembership(s: SessionEntity, nowMs: int, f: ScoreFilter)
    ensures f == AllTime ==> IsInScoreWindow(s, nowMs, f)
    ensures f != AllTime ==>
      (IsInScoreWindow(s, nowMs, f) <==> s.createdAt >= nowMs - DurationMs(f).value)
  {
  }

  /** Membership looks at `createdAt` only. */
  lemma WindowDependsOnlyOnCreatedAt(s: SessionEntity, t: SessionEntity, nowMs: int, f: ScoreFilter)
    requires s.createdAt == t.createdAt
    ensures IsInScoreWindow(s, nowMs, f) == IsInScoreWindow(t, nowMs, f)
  {
  }

  /** Windows nest: a session in a window is in every later (wider) window. */
  lemma {:induction false} WindowsNest(s: SessionEntity, nowMs: int, f: ScoreFilter, g: ScoreFilter)
    requires Ordinal(f) <= Ordinal(g)
    requires IsInScoreWindow(s, nowMs, f)
    ensures IsInScoreWindow(s, nowMs, g)
  {
    if Ordinal(f) < Ordinal(g) {
      WindowsGrowInOrder(f, g);
    } else {
      assert Values[Ordinal(f)] == f && Values[Ordinal(g)] == g;
    }
  }

  /** Sessions created 1 hour, 10 days and 40 days before `now`: the 24-hour
      window holds the first, 7 days the first, 30 days the first two, all
      time all three. */
  lemma ThreeSessionsScenario(a: SessionEntity, b: SessionEntity, c: SessionEntity, nowMs: int)
    requires a.createdAt == nowMs - HourMs
    requires b.createdAt == nowMs - 10 * DayMs
    requires c.createdAt == nowMs - 40 * DayMs
    ensures IsInScoreWindow(a, nowMs, Last24Hours) && !IsInScoreWindow(b, nowMs, Last24Hours)
      && !IsInScoreWindow(c, nowMs, Last24Hours)
    ensures IsInScoreWindow(a, nowMs, Last7Days) && !IsInScoreWindow(b, nowMs, Last7Days)
      && !IsInScoreWindow(c, nowMs, Last7Days)
    ensures IsInScoreWindow(a, nowMs, Last30Days) && IsInScoreWindow(b, nowMs, Last30Days)
      && !IsInScoreWindow(c, nowMs, Last30Days)
    ensures IsInScoreWindow(a, nowMs, AllTime) && IsInScoreWindow(b, nowMs, AllTime)
      && IsInScoreWindow(c, nowMs, AllTime)
  {
  }
}
