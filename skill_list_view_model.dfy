/** The skill list: the tag filter decides which sessions are listed and
    totalled, while the score counts every session in the chosen window
    (ui/viewmodel/SkillListViewModel.kt). */
module SkillListViewModels {
  import opened Wrappers
  import opened ScoreFilters
  import opened SessionEntities
  import opened SessionLists
  import opened ScoreCalculator
  import opened SessionRepositories
  import opened ListStates

  const StreamErrorFallback := "Something went wrong"

  /** The sessions the score counts: all of them inside the chosen window,
      whatever skill is selected. */
  function ScoredSessions(sessions: seq<SessionEntity>, nowMs: int, filter: ScoreFilter): (r: seq<SessionEntity>)
    ensures filter == AllTime ==> r == sessions
    ensures forall s :: s in r <==> s in sessions && IsInScoreWindow(s, nowMs, filter)
  {
    InWindow(sessions, nowMs, filter)
  }

  /** The reducer inside `observeSessions`'s `combine`. */
  function Reduce(sessions: seq<SessionEntity>, tags: seq<TagEntity>, currentTagId: Option<int>,
                  currentFilter: ScoreFilter, nowMs: int): (r: SessionListUiState)
    ensures !r.isLoading && r.errorMessage.None?
    ensures r.selectedTagId == currentTagId && r.scoreFilter == currentFilter
    ensures |r.sessions| == |ByOptionalTag(sessions, currentTagId)| && |r.tags| == |tags|
    ensures r.totalDurationMs == TotalDuration(ByOptionalTag(sessions, currentTagId))
    ensures r.currentScore >= 0
  {
    var visible := ByOptionalTag(sessions, currentTagId);
    SessionListUiState(false, ListItems(visible, tags), TagUiModels(tags), currentTagId,
      TotalDuration(visible), None, currentFilter,
      TotalScoreForSessions(ScoredSessions(sessions, nowMs, currentFilter)))
  }

  /** The listed rows' durations, summed. */
  function RowsDuration(rows: seq<SessionListItemUiModel>): int {
    if rows == [] then 0 else rows[0].durationMs + RowsDuration(rows[1..])
  }

  /** The row mapping keeps each duration, so the rows add up to the list's total. */
  lemma {:induction false} RowsAddUp(sessions: seq<SessionEntity>, tags: seq<TagEntity>)
    ensures RowsDuration(ListItems(sessions, tags)) == TotalDuration(sessions)
    decreases |sessions|
  {
    if sessions != [] {
      RowsAddUp(sessions[1..], tags);
      assert ListItems(sessions, tags)[1..] == ListItems(sessions[1..], tags);
    }
  }

  /** The list holds the selected skill's sessions (all of them for "All"),
      in order, and the total duration is exactly theirs. */
  lemma ListedSessions(sessions: seq<SessionEntity>, tags: seq<TagEntity>, currentTagId: Option<int>,
                       filter: ScoreFilter, nowMs: int)
    ensures var st := Reduce(sessions, tags, currentTagId, filter, nowMs);
      var visible := ByOptionalTag(sessions, currentTagId);
      st.sessions == ListItems(visible, tags) && IsSubsequence(visible, sessions)
      && (currentTagId.None? ==> visible == sessions)
      && (forall s :: s in visible <==> s in sessions && (currentTagId.None? || s.tagId == currentTagId.value))
      && st.totalDurationMs == RowsDuration(st.sessions)
  {
    RowsAddUp(ByOptionalTag(sessions, currentTagId), tags);
  }

  /** With non-negative durations, a selected skill's total never exceeds
      the total of all sessions. */
  lemma SelectedTotalBounded(sessions: seq<SessionEntity>, tags: seq<TagEntity>, tagId: int,
                             filter: ScoreFilter, nowMs: int)
    requires forall i :: 0 <= i < |sessions| ==> sessions[i].durationMs >= 0
    ensures 0 <= Reduce(sessions, tags, Some(tagId), filter, nowMs).totalDurationMs
              <= Reduce(sessions, tags, None, filter, nowMs).totalDurationMs
  {
    SubsequenceDurationBounded(ByOptionalTag(sessions, Some(tagId)), sessions);
  }

  /** The score does not depend on the selected skill, and the chosen filter
      is kept as it is even when its window holds nothing. */
  lemma ScoreIgnoresSelection(sessions: seq<SessionEntity>, tags: seq<TagEntity>,
                              a: Option<int>, b: Option<int>, filter: ScoreFilter, nowMs: int)
    ensures Reduce(sessions, tags, a, filter, nowMs).currentScore
         == Reduce(sessions, tags, b, filter, nowMs).currentScore
    ensures Reduce(sessions, tags, a, filter, nowMs).scoreFilter == filter
    ensures ScoredSessions(sessions, nowMs, filter) == [] ==>
      Reduce(sessions, tags, a, filter, nowMs).currentScore == 0
  {
  }

  /** A new session outside the window leaves the score alone; one inside it
      adds exactly its own points. */
  lemma NewSessionScore(sessions: seq<SessionEntity>, s: SessionEntity, tags: seq<TagEntity>,
                        selected: Option<int>, filter: ScoreFilter, nowMs: int)
    ensures var before := Reduce(sessions, tags, selected, filter, nowMs).currentScore;
      var after := Reduce(sessions + [s], tags, selected, filter, nowMs).currentScore;
      (IsInScoreWindow(s, nowMs, filter) ==> after == before + SessionPoints(s))
      && (!IsInScoreWindow(s, nowMs, filter) ==> after == before)
  {
    var keep := (x: SessionEntity) => IsInScoreWindow(x, nowMs, filter);
    FilterAppendOne(sessions, s, keep);
    TotalScoreAdditive(Filter(sessions, keep), if keep(s) then [s] else []);
  }

  /** The `catch` branch: loading ends and the message, or a generic one, is
      shown; the rest of the state stays. */
  function OnStreamError(st: SessionListUiState, message: Option<string>): (r: SessionListUiState)
    ensures !r.isLoading && r.errorMessage.Some?
    ensures message.Some? ==> r.errorMessage == message
    ensures message.None? ==> r.errorMessage == Some(StreamErrorFallback)
    ensures r.sessions == st.sessions && r.scoreFilter == st.scoreFilter
      && r.currentScore == st.currentScore && r.totalDurationMs == st.totalDurationMs
  {
    st.(isLoading := false, errorMessage := Some(message.GetOr(StreamErrorFallback)))
  }

  /** The view model's own state: the selected skill and the chosen filter. */
  class SkillListViewModel {
    var selectedTagId: Option<int>
    var scoreFilter: ScoreFilter
    const sessionRepository: SessionRepository

    /** Nothing selected; the last 7 days chosen. */
    constructor(sessionRepository: SessionRepository)
      ensures this.sessionRepository == sessionRepository
      ensures selectedTagId == None && scoreFilter == Last7Days
    {
      this.sessionRepository := sessionRepository;
      selectedTagId := None;
      scoreFilter := Last7Days;
    }

    /** The state the screen sees for the lists the tables currently emit. */
    function UiState(sessions: seq<SessionEntity>, tags: seq<TagEntity>, nowMs: int): SessionListUiState
      reads this
    {
      Reduce(sessions, tags, selectedTagId, scoreFilter, nowMs)
    }

    /** `selectTag` (and `onTagSelected`, the same assignment). */
    method SelectTag(tagId: Option<int>)
      modifies this
      ensures selectedTagId == tagId && scoreFilter == old(scoreFilter)
    {
      selectedTagId := tagId;
    }

    /** `onScoreFilterSelected` */
    method OnScoreFilterSelected(filter: ScoreFilter)
      modifies this
      ensures scoreFilter == filter && selectedTagId == old(selectedTagId)
    {
      scoreFilter := filter;
    }

    /** `deleteSession`: delete through the repository, then go back to "All"
        when the tag it removed is the selected one. */
    method DeleteSession(sessionId: int)
      requires sessionRepository.sessionDao.Valid() && sessionRepository.tagDao.Valid()
      modifies this, sessionRepository.sessionDao, sessionRepository.tagDao
      ensures sessionRepository.sessionDao.Valid() && sessionRepository.tagDao.Valid()
      ensures var out := DeleteAndCleanup(old(sessionRepository.sessionDao.rows),
                                          old(sessionRepository.tagDao.rows), sessionId);
        sessionRepository.sessionDao.rows == out.1 && sessionRepository.tagDao.rows == out.2
        && selectedTagId == SelectionAfterDelete(old(selectedTagId), out.0)
      ensures scoreFilter == old(scoreFilter)
    {
      var removedTagId := sessionRepository.DeleteSessionAndCleanupTag(sessionId);
      if removedTagId.Some? && selectedTagId == removedTagId {
        selectedTagId := None;
      }
    }
  }
}
