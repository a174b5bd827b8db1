/** The decisions of the session list screen (ui/skills/SkillzListScreen.kt):
    which body it shows, when the total-time card appears, which score
    filter chips it offers and in what order, and the two small pieces of
    screen state it keeps (expanded rows and the description being edited). */
module SkillzListScreens {
  import opened Wrappers
  import opened ScoreFilters
  import opened SessionEntities
  import opened SessionLists
  import opened ListStates
  import opened SkillListViewModels

  // ---------------------------------------------------------------------
  // Body and header

  /** What the body shows. */
  datatype Body = LoadingBody | ErrorBody(message: string) | EmptyBody | FocusModeContent | NormalModeContent

  /** The `when` of `SkillListBody`: loading first, then an error, then an
      empty list, then the content for the current mode. */
  function BodyFor(st: SessionListUiState, isFocusModeOn: bool): (b: Body)
    ensures b == LoadingBody <==> st.isLoading
    ensures b.ErrorBody? <==> !st.isLoading && st.errorMessage.Some?
    ensures b.ErrorBody? ==> st.errorMessage == Some(b.message)
    ensures b == EmptyBody <==> !st.isLoading && st.errorMessage.None? && st.sessions == []
    ensures b == FocusModeContent || b == NormalModeContent ==>
      !st.isLoading && st.errorMessage.None? && st.sessions != []
      && (b == FocusModeContent <==> isFocusModeOn)
  {
    if st.isLoading then LoadingBody
    else if st.errorMessage.Some? then ErrorBody(st.errorMessage.value)
    else if st.sessions == [] then EmptyBody
    else if isFocusModeOn then FocusModeContent
    else NormalModeContent
  }

  /** Once the skill list has reduced its lists, the body is the empty-state
      exactly when the selected skill (or "All") has no sessions; after a
      stream failure it is the error. */
  lemma BodyAfterReduce(sessions: seq<SessionEntity>, tags: seq<TagEntity>, selected: Option<int>,
                        filter: ScoreFilter, nowMs: int, isFocusModeOn: bool, message: Option<string>)
    ensures var st := Reduce(sessions, tags, selected, filter, nowMs);
      (BodyFor(st, isFocusModeOn) == EmptyBody <==> ByOptionalTag(sessions, selected) == [])
      && BodyFor(OnStreamError(st, message), isFocusModeOn).ErrorBody?
  {
  }

  /** The total-time card appears when a skill is selected and it has rows. */
  function ShowTotalTimeCard(st: SessionListUiState): (r: bool)
    ensures r ==> st.selectedTagId.Some?
    ensures r ==> BodyFor(st, false) != EmptyBody && BodyFor(st, true) != EmptyBody
  {
    st.selectedTagId.Some? && st.sessions != []
  }

  /** For a reduced state, the card appears exactly when a skill is selected
      and some session carries it, and then it shows that skill's total. */
  lemma TotalTimeCardShowsSelectedSkill(sessions: seq<SessionEntity>, tags: seq<TagEntity>,
                                        selected: Option<int>, filter: ScoreFilter, nowMs: int)
    ensures var st := Reduce(sessions, tags, selected, filter, nowMs);
      (ShowTotalTimeCard(st) <==>
         selected.Some? && exists s :: s in sessions && s.tagId == selected.value)
      && (ShowTotalTimeCard(st) ==> st.totalDurationMs == TotalDuration(WithTag(sessions, selected.value)))
  {
    var visible := ByOptionalTag(sessions, selected);
    if selected.Some? && visible != [] {
      assert visible[0] in visible;
    }
  }

  // ---------------------------------------------------------------------
  // Score filter chips

  /** `ScoreFilter.values().filter { it in availableFilters }`: the offered
      filters, each once, in declaration order. */
  function ChipFilters(available: set<ScoreFilter>): (r: seq<ScoreFilter>)
    ensures forall f :: f in r <==> f in available
    ensures forall i, j :: 0 <= i < j < |r| ==> Ordinal(r[i]) < Ordinal(r[j])
  {
    var r := Filter(Values, (f: ScoreFilter) => f in available);
    forall f | f in available ensures f in r {
      ValuesListEachOnce(f);
    }
    SubsequenceKeepsOrder(r, Values);
    r
  }

  /** Whatever a subsequence keeps of it appears in the sequence. */
  lemma {:induction false} SubsequenceMembers(r: seq<ScoreFilter>, s: seq<ScoreFilter>)
    requires IsSubsequence(r, s)
    ensures forall x :: x in r ==> x in s
    decreases |s|
  {
    if r != [] && s != [] {
      if r[0] == s[0] {
        SubsequenceMembers(r[1..], s[1..]);
        assert forall x :: x in r ==> x == r[0] || x in r[1..];
      } else {
        SubsequenceMembers(r, s[1..]);
      }
    }
  }

  /** A subsequence of a list in strictly increasing declaration order is
      itself in strictly increasing declaration order. */
  lemma {:induction false} SubsequenceKeepsOrder(r: seq<ScoreFilter>, s: seq<ScoreFilter>)
    requires IsSubsequence(r, s)
    requires forall i, j :: 0 <= i < j < |s| ==> Ordinal(s[i]) < Ordinal(s[j])
    ensures forall i, j :: 0 <= i < j < |r| ==> Ordinal(r[i]) < Ordinal(r[j])
    decreases |s|
  {
    if r != [] && s != [] {
      if r[0] == s[0] {
        SubsequenceKeepsOrder(r[1..], s[1..]);
        SubsequenceMembers(r[1..], s[1..]);
        forall i, j | 0 <= i < j < |r| ensures Ordinal(r[i]) < Ordinal(r[j]) {
          assert r[j] == r[1..][j - 1];
          if i == 0 {
            assert r[j] in s[1..];
            var k :| 0 <= k < |s[1..]| && s[1..][k] == r[j];
            assert s[k + 1] == r[j];
          } else {
            assert r[i] == r[1..][i - 1];
          }
        }
      } else {
        SubsequenceKeepsOrder(r, s[1..]);
      }
    }
  }

  // ---------------------------------------------------------------------
  // Screen state

  /** `ExpandedSessionIdsState`: which rows are expanded. */
  class ExpandedSessionIds {
    var ids: set<int>

    /** Nothing expanded. */
    constructor()
      ensures ids == {}
    {
      ids := {};
    }

    /** `isExpanded(id)` */
    function IsExpanded(id: int): (r: bool)
      reads this
      ensures r <==> id in ids
    {
      id in ids
    }

    /** `toggle(id)`: `id` flips between expanded and collapsed; no other
        row changes. */
    method Toggle(id: int)
      modifies this
      ensures ids == Toggled(old(ids), id)
      ensures IsExpanded(id) == !old(IsExpanded(id))
      ensures forall x :: x != id ==> (x in ids <==> x in old(ids))
    {
      ids := if id in ids then ids - {id} else ids + {id};
    }
  }

  /** The expanded set after toggling `id`. */
  function Toggled(ids: set<int>, id: int): (r: set<int>)
    ensures id in r <==> id !in ids
    ensures forall x :: x != id ==> (x in r <==> x in ids)
  {
    if id in ids then ids - {id} else ids + {id}
  }

  /** Toggling the same row twice restores the set, and toggles of two
      different rows commute. */
  lemma ToggleTwiceRestores(ids: set<int>, id: int, other: int)
    ensures Toggled(Toggled(ids, id), id) == ids
    ensures Toggled(Toggled(ids, id), other) == Toggled(Toggled(ids, other), id)
  {
  }

  /** `SessionEditState`: the row whose description is being edited, and
      the text in the edit field. */
  class SessionEditor {
    var editingSession: Option<SessionListItemUiModel>
    var editText: string

    /** No dialog, empty text. */
    constructor()
      ensures editingSession == None && editText == ""
    {
      editingSession := None;
      editText := "";
    }

    /** `startEditing(session)`: the dialog opens on that row with its
        current description as the text. */
    method StartEditing(session: SessionListItemUiModel)
      modifies this
      ensures editingSession == Some(session) && editText == session.description
    {
      editingSession := Some(session);
      editText := session.description;
    }

    /** `stopEditing()`: the dialog closes; the text is left as it was. */
    method StopEditing()
      modifies this
      ensures editingSession == None && editText == old(editText)
    {
      editingSession := None;
    }

    /** The dialog's Save: with a row open, hand its id and the edited text
        to the description update, then close; with none open there is no
        dialog and nothing happens. */
    method ConfirmEdit() returns (update: Option<(int, string)>)
      modifies this
      ensures old(editingSession).None? ==> update == None && editingSession == None
      ensures old(editingSession).Some? ==>
        update == Some((old(editingSession).value.sessionId, old(editText)))
      ensures editingSession == None && editText == old(editText)
    {
      if editingSession.None? {
        return None;
      }
      update := Some((editingSession.value.sessionId, editText));
      StopEditing();
    }
  }

  /** Opening the editor on a row and saving without typing hands back the
      row's own description. */
  method EditUnchangedScenario(session: SessionListItemUiModel) returns (update: Option<(int, string)>)
    ensures update == Some((session.sessionId, session.description))
  {
    var editor := new SessionEditor();
    editor.StartEditing(session);
    update := editor.ConfirmEdit();
  }
}
