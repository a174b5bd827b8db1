/** The story list: tag filter, the score windows that still hold something,
    the effective window with its fallback, and the totals over exactly what
    is shown (ui/viewmodel/StoryViewModel.kt). */
module StoryViewModels {
  import opened Wrappers
  import opened ScoreFilters
  import opened SessionEntities
  import opened SessionLists
  import opened ScoreCalculator
  import opened Tables
  import opened SessionRepositories
  import opened ListStates

  /** One row of the story list (`FlowListItemUiModel`). */
  datatype StoryItem = StoryItem(
    sessionId: int,
    title: string,
    description: string,
    tagName: string,
    durationMs: int,
    createdAt: int,
    score: int)

  /** The story screen state (`FlowListUiState`), as the reducer builds it. */
  datatype StoryUiState = StoryUiState(
    isLoading: bool,
    sessions: seq<StoryItem>,
    tags: seq<TagUiModel>,
    selectedTagId: Option<int>,
    totalDurationMs: int,
    errorMessage: Option<string>,
    scoreFilter: ScoreFilter,
    currentScore: int,
    availableScoreFilters: set<ScoreFilter>)

  const StreamErrorFallback := "Something went wrong"

  /** A filter is offered when the tag-filtered list has something for it:
      all-time needs any session, a timed filter a session in its window. */
  function IsAvailable(forTag: seq<SessionEntity>, nowMs: int, f: ScoreFilter): (r: bool)
    ensures r <==> exists s :: s in forTag && IsInScoreWindow(s, nowMs, f)
    ensures r ==> forTag != []
  {
    if f == AllTime then
      assert forTag != [] ==> forTag[0] in forTag && IsInScoreWindow(forTag[0], nowMs, f);
      forTag != []
    else exists s :: s in forTag && IsInScoreWindow(s, nowMs, f)
  }

  /** `availableFilters`: `values().filterTo(mutableSetOf()) { … }`. */
  function AvailableFilters(forTag: seq<SessionEntity>, nowMs: int): (r: set<ScoreFilter>)
    ensures forall f :: f in r <==> IsAvailable(forTag, nowMs, f)
  {
    var r := set f | f in Values && IsAvailable(forTag, nowMs, f);
    forall f ensures f in Values {
      ValuesListEachOnce(f);
    }
    r
  }

  /** The set is closed upwards in declaration order: a window that holds a
      session is followed by wider windows that hold it too. */
  lemma AvailableUpwardClosed(forTag: seq<SessionEntity>, nowMs: int, f: ScoreFilter, g: ScoreFilter)
    requires f in AvailableFilters(forTag, nowMs)
    requires Ordinal(f) <= Ordinal(g)
    ensures g in AvailableFilters(forTag, nowMs)
  {
    if f != AllTime {
      var s :| s in forTag && IsInScoreWindow(s, nowMs, f);
      WindowsNest(s, nowMs, f, g);
    } else {
      assert g == AllTime;
    }
  }

  /** Nothing is offered exactly when the tag-filtered list is empty. */
  lemma NothingAvailableIffNoSessions(forTag: seq<SessionEntity>, nowMs: int)
    ensures AvailableFilters(forTag, nowMs) == {} <==> forTag == []
  {
    if forTag != [] {
      assert AllTime in AvailableFilters(forTag, nowMs);
    }
  }

  /** Kotlin `firstOrNull` over the filters of `available`, walking `order`. */
  function FirstIn(order: seq<ScoreFilter>, available: set<ScoreFilter>): (r: Option<ScoreFilter>)
    ensures r.None? <==> forall i :: 0 <= i < |order| ==> order[i] !in available
    ensures r.Some? ==> exists i :: 0 <= i < |order| && order[i] == r.value && r.value in available
                                    && forall j :: 0 <= j < i ==> order[j] !in available
  {
    if order == [] then None
    else if order[0] in available then
      Some(order[0])
    else
      var r := FirstIn(order[1..], available);
      assert forall i :: 1 <= i < |order| ==> order[i] == order[1..][i - 1];
      if r.Some? then
        var k :| 0 <= k < |order[1..]| && order[1..][k] == r.value && r.value in available
                 && forall j :: 0 <= j < k ==> order[1..][j] !in available;
        assert order[k + 1] == r.value;
        assert forall j :: 0 <= j < k + 1 ==> order[j] !in available by {
          forall j | 0 <= j < k + 1 ensures order[j] !in available {
            if j > 0 {
              assert order[j] == order[1..][j - 1];
            }
          }
        }
        r
      else
        r
  }

  /** The first available filter in declaration order: the one listed
      earliest of all available ones, or nothing when the set is empty. */
  function FirstAvailable(available: set<ScoreFilter>): (r: Option<ScoreFilter>)
    ensures r.None? <==> available == {}
    ensures r.Some? ==> r.value in available && forall g :: g in available ==> Ordinal(r.value) <= Ordinal(g)
  {
    var r := FirstIn(Values, available);
    if r.None? then
      forall g | g in available ensures g in Values {
        ValuesListEachOnce(g);
      }
      r
    else
      var i :| 0 <= i < |Values| && Values[i] == r.value && r.value in available
               && forall j :: 0 <= j < i ==> Values[j] !in available;
      ValuesListEachOnce(r.value);
      assert Ordinal(r.value) == i;
      r
  }

  /** `effectiveScoreFilter`: the chosen filter when offered, else the first
      offered in declaration order, else all-time. */
  function EffectiveFilter(chosen: ScoreFilter, available: set<ScoreFilter>): (r: ScoreFilter)
    ensures chosen in available ==> r == chosen
    ensures chosen !in available && available != {} ==>
      r in available && forall g :: g in available ==> Ordinal(r) <= Ordinal(g)
    ensures available == {} ==> r == AllTime
  {
    if chosen in available then chosen else FirstAvailable(available).GetOr(AllTime)
  }

  /** `visibleSessions`: the tag-filtered list itself for all-time, else its
      sessions inside the effective window. */
  function VisibleSessions(forTag: seq<SessionEntity>, nowMs: int, effective: ScoreFilter)
    : (r: seq<SessionEntity>)
    ensures forall s :: s in r <==> s in forTag && IsInScoreWindow(s, nowMs, effective)
    ensures IsSubsequence(r, forTag)
  {
    if effective == AllTime then
      SubsequenceOfItself(forTag);
      forTag
    else
      InWindow(forTag, nowMs, effective)
  }

  /** `List<SessionEntity>.toUiModels(tags)` of the story list: fields
      copied, the skill name looked up or "", and the session's own score. */
  function StoryItems(sessions: seq<SessionEntity>, tags: seq<TagEntity>): (r: seq<StoryItem>)
    ensures |r| == |sessions|
    ensures forall i :: 0 <= i < |sessions| ==>
      r[i].sessionId == sessions[i].id && r[i].title == sessions[i].title
      && r[i].description == sessions[i].description
      && r[i].durationMs == sessions[i].durationMs && r[i].createdAt == sessions[i].createdAt
      && r[i].tagName == TagNameById(tags, sessions[i].tagId).GetOr("")
      && r[i].score == BreakdownFromDuration(sessions[i].durationMs).totalPoints
  {
    if sessions == [] then []
    else
      var s := sessions[0];
      [StoryItem(s.id, s.title, s.description, TagNameById(tags, s.tagId).GetOr(""),
                 s.durationMs, s.createdAt, SessionPoints(s))]
        + StoryItems(sessions[1..], tags)
  }

  /** The listed rows' durations, summed. */
  function ItemsDuration(items: seq<StoryItem>): int {
    if items == [] then 0 else items[0].durationMs + ItemsDuration(items[1..])
  }

  /** The listed rows' scores, summed. */
  function ItemsScore(items: seq<StoryItem>): int {
    if items == [] then 0 else items[0].score + ItemsScore(items[1..])
  }

  /** The row mapping keeps durations and scores, so the rows add up to the
      list's total duration and total score. */
  lemma {:induction false} ItemsAddUp(sessions: seq<SessionEntity>, tags: seq<TagEntity>)
    ensures ItemsDuration(StoryItems(sessions, tags)) == TotalDuration(sessions)
    ensures ItemsScore(StoryItems(sessions, tags)) == TotalScoreForSessions(sessions)
    decreases |sessions|
  {
    if sessions != [] {
      ItemsAddUp(sessions[1..], tags);
      assert StoryItems(sessions, tags)[1..] == StoryItems(sessions[1..], tags);
    }
  }

  /** The reducer inside `observeSessions`'s `combine`. */
  function Reduce(sessions: seq<SessionEntity>, tags: seq<TagEntity>, currentTagId: Option<int>,
                  chosen: ScoreFilter, nowMs: int): (r: StoryUiState)
    ensures !r.isLoading && r.errorMessage.None? && r.selectedTagId == currentTagId
    ensures r.availableScoreFilters == AvailableFilters(ByOptionalTag(sessions, currentTagId), nowMs)
    ensures chosen in r.availableScoreFilters ==> r.scoreFilter == chosen
    ensures r.scoreFilter in r.availableScoreFilters || r.availableScoreFilters == {}
    ensures |r.tags| == |tags| && r.currentScore >= 0
  {
    var forTag := ByOptionalTag(sessions, currentTagId);
    var available := AvailableFilters(forTag, nowMs);
    var effective := EffectiveFilter(chosen, available);
    var visible := VisibleSessions(forTag, nowMs, effective);
    StoryUiState(false, StoryItems(visible, tags), TagUiModels(tags), currentTagId,
      TotalDuration(visible), None, effective, TotalScoreForSessions(visible), available)
  }

  /** What the story list shows: the sessions of the selection that lie in the
      effective window, in their original order. */
  lemma ShownSessions(sessions: seq<SessionEntity>, tags: seq<TagEntity>, currentTagId: Option<int>,
                      chosen: ScoreFilter, nowMs: int)
    ensures var st := Reduce(sessions, tags, currentTagId, chosen, nowMs);
      var visible := VisibleSessions(ByOptionalTag(sessions, currentTagId), nowMs, st.scoreFilter);
      st.sessions == StoryItems(visible, tags)
      && IsSubsequence(visible, ByOptionalTag(sessions, currentTagId))
      && (forall s :: s in visible <==>
            s in sessions && (currentTagId.None? || s.tagId == currentTagId.value)
            && IsInScoreWindow(s, nowMs, st.scoreFilter))
  {
  }

  /** Total time and score are those of exactly the listed rows. */
  lemma TotalsMatchRows(sessions: seq<SessionEntity>, tags: seq<TagEntity>, currentTagId: Option<int>,
                        chosen: ScoreFilter, nowMs: int)
    ensures var st := Reduce(sessions, tags, currentTagId, chosen, nowMs);
      st.totalDurationMs == ItemsDuration(st.sessions) && st.currentScore == ItemsScore(st.sessions)
  {
    var forTag := ByOptionalTag(sessions, currentTagId);
    var effective := EffectiveFilter(chosen, AvailableFilters(forTag, nowMs));
    ItemsAddUp(VisibleSessions(forTag, nowMs, effective), tags);
  }

  /** When the selection has any session, the effective filter is one of the
      offered ones, and the list is never empty. */
  lemma EffectiveIsOffered(sessions: seq<SessionEntity>, tags: seq<TagEntity>, currentTagId: Option<int>,
                           chosen: ScoreFilter, nowMs: int)
    requires ByOptionalTag(sessions, currentTagId) != []
    ensures var st := Reduce(sessions, tags, currentTagId, chosen, nowMs);
      st.scoreFilter in st.availableScoreFilters && st.sessions != []
  {
    var forTag := ByOptionalTag(sessions, currentTagId);
    var available := AvailableFilters(forTag, nowMs);
    NothingAvailableIffNoSessions(forTag, nowMs);
    var effective := EffectiveFilter(chosen, available);
    var visible := VisibleSessions(forTag, nowMs, effective);
    if effective == AllTime {
      assert visible == forTag;
    } else {
      var s :| s in forTag && IsInScoreWindow(s, nowMs, effective);
      assert s in visible;
    }
  }

  /** The chosen filter stays when it holds something; otherwise the list
      falls back to the narrowest window that holds a session of the
      selection, and to all-time when the selection has none. */
  lemma FallbackIsNarrowestNonEmpty(sessions: seq<SessionEntity>, tags: seq<TagEntity>,
                                    currentTagId: Option<int>, chosen: ScoreFilter, nowMs: int)
    ensures var st := Reduce(sessions, tags, currentTagId, chosen, nowMs);
      var forTag := ByOptionalTag(sessions, currentTagId);
      (IsAvailable(forTag, nowMs, chosen) ==> st.scoreFilter == chosen)
      && (!IsAvailable(forTag, nowMs, chosen) && forTag != [] ==>
            IsAvailable(forTag, nowMs, st.scoreFilter)
            && forall g :: Ordinal(g) < Ordinal(st.scoreFilter) ==> !IsAvailable(forTag, nowMs, g))
      && (forTag == [] ==> st.scoreFilter == AllTime && st.sessions == []
                           && st.totalDurationMs == 0 && st.currentScore == 0)
  {
    var forTag := ByOptionalTag(sessions, currentTagId);
    NothingAvailableIffNoSessions(forTag, nowMs);
  }

  /** The `catch` branch: loading ends and the message, or a generic one, is
      shown; everything else stays as it was. */
  function OnStreamError(st: StoryUiState, message: Option<string>): (r: StoryUiState)
    ensures !r.isLoading && r.errorMessage.Some?
    ensures message.Some? ==> r.errorMessage == message
    ensures message.None? ==> r.errorMessage == Some(StreamErrorFallback)
    ensures r.sessions == st.sessions && r.scoreFilter == st.scoreFilter
      && r.currentScore == st.currentScore && r.totalDurationMs == st.totalDurationMs
  {
    st.(isLoading := false, errorMessage := Some(message.GetOr(StreamErrorFallback)))
  }

  /** The view model's own state: the selected skill and the chosen filter. */
  class StoryViewModel {
    var selectedTagId: Option<int>
    var scoreFilter: ScoreFilter
    const sessionRepository: SessionRepository

    /** Nothing selected; the last 7 days chosen. */
    constructor(sessionRepository: SessionRepository)
      ensures this.sessionRepository == sessionRepository
      ensures selectedTagId == None && scoreFilter == Last7Days
    {
      this.sessionRepository := sessionRepository;
      selectedTagId := None;
      scoreFilter := Last7Days;
    }

    /** The state the screen sees for the lists the tables currently emit. */
    function UiState(sessions: seq<SessionEntity>, tags: seq<TagEntity>, nowMs: int): StoryUiState
      reads this
    {
      Reduce(sessions, tags, selectedTagId, scoreFilter, nowMs)
    }

    /** `selectTag` (and `onTagSelected`, the same assignment). */
    method SelectTag(tagId: Option<int>)
      modifies this
      ensures selectedTagId == tagId && scoreFilter == old(scoreFilter)
    {
      selectedTagId := tagId;
    }

    /** `onScoreFilterSelected` */
    method OnScoreFilterSelected(filter: ScoreFilter)
      modifies this
      ensures scoreFilter == filter && selectedTagId == old(selectedTagId)
    {
      scoreFilter := filter;
    }

    /** `deleteSession`: delete through the repository, then go back to "All"
        when the tag it removed is the selected one. */
    method DeleteSession(sessionId: int)
      requires sessionRepository.sessionDao.Valid() && sessionRepository.tagDao.Valid()
      modifies this, sessionRepository.sessionDao, sessionRepository.tagDao
      ensures sessionRepository.sessionDao.Valid() && sessionRepository.tagDao.Valid()
      ensures var out := DeleteAndCleanup(old(sessionRepository.sessionDao.rows),
                                          old(sessionRepository.tagDao.rows), sessionId);
        sessionRepository.sessionDao.rows == out.1 && sessionRepository.tagDao.rows == out.2
        && selectedTagId == SelectionAfterDelete(old(selectedTagId), out.0)
      ensures scoreFilter == old(scoreFilter)
    {
      var removedTagId := sessionRepository.DeleteSessionAndCleanupTag(sessionId);
      if removedTagId.Some? && selectedTagId == removedTagId {
        selectedTagId := None;
      }
    }
  }
}
