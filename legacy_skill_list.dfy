/** The older skill list: its session source follows the selected skill, the
    total is that source's, and rows fall back to "Unknown skill" and
    "(Untitled session)" (ui/skills/SkillListViewModel.kt). */
module LegacySkillLists {
  import opened Wrappers
  import opened Text
  import opened SessionEntities
  import opened SessionLists
  import opened SessionRepositories
  import opened ListStates

  const UnknownSkill := "Unknown skill"
  const UntitledSession := "(Untitled session)"
  const StreamErrorFallback := "Something went wrong"

  /** The screen state this view model emits (`SkillListUiState`). */
  datatype LegacyListUiState = LegacyListUiState(
    isLoading: bool,
    sessions: seq<SessionListItemUiModel>,
    tags: seq<TagEntity>,
    selectedTagId: Option<int>,
    totalDurationMs: int,
    errorMessage: Option<string>)

  /** `SkillListUiState()`: the value before the first emission. */
  const InitialState := LegacyListUiState(true, [], [], None, 0, None)

  /** `sessionsFlow`: every session for "All", else `getSessionsForTag`. */
  function SessionSource(all: seq<SessionEntity>, selected: Option<int>): (r: seq<SessionEntity>)
    ensures selected.None? ==> r == all
    ensures selected.Some? ==> r == WithTag(all, selected.value)
  {
    match selected
    case None => all
    case Some(tagId) => WithTag(all, tagId)
  }

  /** `title.ifBlank { "(Untitled session)" }` */
  function DisplayTitle(title: string): (r: string)
    ensures IsBlank(title) ==> r == UntitledSession
    ensures !IsBlank(title) ==> r == title
    ensures !IsBlank(r)
  {
    if IsBlank(title) then
      assert UntitledSession[0] == '(';
      UntitledSession
    else title
  }

  /** `toUiModels(tags)`: one row per session in order, with the looked-up
      skill name or "Unknown skill" and the displayed title. */
  function LegacyItems(sessions: seq<SessionEntity>, tags: seq<TagEntity>): (r: seq<SessionListItemUiModel>)
    ensures |r| == |sessions|
    ensures forall i :: 0 <= i < |sessions| ==>
      r[i].sessionId == sessions[i].id && r[i].description == sessions[i].description
      && r[i].durationMs == sessions[i].durationMs && r[i].createdAt == sessions[i].createdAt
      && r[i].title == DisplayTitle(sessions[i].title)
      && r[i].tagName == TagNameById(tags, sessions[i].tagId).GetOr(UnknownSkill)
  {
    if sessions == [] then []
    else
      var s := sessions[0];
      [SessionListItemUiModel(s.id, DisplayTitle(s.title), s.description,
         TagNameById(tags, s.tagId).GetOr(UnknownSkill), s.durationMs, s.createdAt)]
        + LegacyItems(sessions[1..], tags)
  }

  /** The `combine` reducer over the source list, the tags and the selection. */
  function Reduce(source: seq<SessionEntity>, tags: seq<TagEntity>, currentTagId: Option<int>)
    : (r: LegacyListUiState)
    ensures !r.isLoading && r.errorMessage.None?
    ensures r.tags == tags && r.selectedTagId == currentTagId
    ensures |r.sessions| == |source| && r.totalDurationMs == TotalDuration(source)
  {
    LegacyListUiState(false, LegacyItems(source, tags), tags, currentTagId, TotalDuration(source), None)
  }

  /** The listed rows' durations, summed. */
  function RowsDuration(rows: seq<SessionListItemUiModel>): int {
    if rows == [] then 0 else rows[0].durationMs + RowsDuration(rows[1..])
  }

  /** Every row has a non-blank title; a row whose skill id has no tag reads
      "Unknown skill"; the total is that of exactly the listed rows. */
  lemma {:induction false} RowsReadWell(source: seq<SessionEntity>, tags: seq<TagEntity>, currentTagId: Option<int>)
    ensures var st := Reduce(source, tags, currentTagId);
      (forall i :: 0 <= i < |st.sessions| ==> !IsBlank(st.sessions[i].title))
      && (forall i :: 0 <= i < |source| && (forall t :: t in tags ==> t.id != source[i].tagId)
            ==> st.sessions[i].tagName == UnknownSkill)
      && st.totalDurationMs == RowsDuration(st.sessions)
    decreases |source|
  {
    if source != [] {
      RowsReadWell(source[1..], tags, currentTagId);
      assert LegacyItems(source, tags)[1..] == LegacyItems(source[1..], tags);
    }
  }

  /** The `catch` branch emits a fresh state that only carries the message. */
  function OnStreamError(message: Option<string>): (r: LegacyListUiState)
    ensures !r.isLoading && r.sessions == [] && r.tags == [] && r.selectedTagId == None
    ensures message.Some? ==> r.errorMessage == message
    ensures message.None? ==> r.errorMessage == Some(StreamErrorFallback)
  {
    LegacyListUiState(false, [], [], None, 0, Some(message.GetOr(StreamErrorFallback)))
  }

  /** The view model's own state: the selected skill. */
  class LegacySkillListViewModel {
    var selectedTagId: Option<int>
    const sessionRepository: SessionRepository

    /** Nothing selected. */
    constructor(sessionRepository: SessionRepository)
      ensures this.sessionRepository == sessionRepository && selectedTagId == None
    {
      this.sessionRepository := sessionRepository;
      selectedTagId := None;
    }

    /** The state the screen sees for the session and tag lists the tables emit. */
    function UiState(all: seq<SessionEntity>, tags: seq<TagEntity>): LegacyListUiState
      reads this
    {
      Reduce(SessionSource(all, selectedTagId), tags, selectedTagId)
    }

    /** `selectTag` */
    method SelectTag(tagId: Option<int>)
      modifies this
      ensures selectedTagId == tagId
    {
      selectedTagId := tagId;
    }

    /** `deleteSession`: delete through the repository, then go back to "All"
        when the tag it removed is the selected one. */
    method DeleteSession(sessionId: int)
      requires sessionRepository.sessionDao.Valid() && sessionRepository.tagDao.Valid()
      modifies this, sessionRepository.sessionDao, sessionRepository.tagDao
      ensures sessionRepository.sessionDao.Valid() && sessionRepository.tagDao.Valid()
      ensures var out := DeleteAndCleanup(old(sessionRepository.sessionDao.rows),
                                          old(sessionRepository.tagDao.rows), sessionId);
        sessionRepository.sessionDao.rows == out.1 && sessionRepository.tagDao.rows == out.2
        && selectedTagId == SelectionAfterDelete(old(selectedTagId), out.0)
    {
      var removedTagId := sessionRepository.DeleteSessionAndCleanupTag(sessionId);
      if removedTagId.Some? && selectedTagId == removedTagId {
        selectedTagId := None;
      }
    }
  }
}
