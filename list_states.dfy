/** Pieces shared by the three session-list view models: the id-to-name
    lookup built with `associate`/`associateBy`, the row mappings, and the
    selection reset after a delete (ui/viewmodel/StoryViewModel.kt,
    ui/viewmodel/SkillListViewModel.kt, ui/skills/SkillListViewModel.kt). */
module ListStates {
  import opened Wrappers
  import opened SessionEntities
  import opened SessionLists
  import opened SessionRepositories

  /** The name `tags.associate { it.id to it.name }[id]` yields: a map built
      from the list keeps the last tag listed under each id. */
  function TagNameById(tags: seq<TagEntity>, id: int): (r: Option<string>)
    ensures r.None? <==> forall t :: t in tags ==> t.id != id
    ensures r.Some? ==>
      exists i :: 0 <= i < |tags| && tags[i].id == id && tags[i].name == r.value
                  && forall j :: i < j < |tags| ==> tags[j].id != id
    decreases |tags|
  {
    if tags == [] then None
    else if tags[|tags| - 1].id == id then Some(tags[|tags| - 1].name)
    else
      var r := TagNameById(tags[..|tags| - 1], id);
      assert forall t :: t in tags ==> t in tags[..|tags| - 1] || t == tags[|tags| - 1];
      r
  }

  /** When tag ids are distinct (the table's primary key), the lookup finds
      exactly the tag with that id. */
  lemma UniqueTagName(tags: seq<TagEntity>, t: TagEntity)
    requires KeysDistinct(tags, (x: TagEntity) => x.id)
    requires t in tags
    ensures TagNameById(tags, t.id) == Some(t.name)
  {
    var i :| 0 <= i < |tags| && tags[i] == t;
    var k :| 0 <= k < |tags| && tags[k].id == t.id && tags[k].name == TagNameById(tags, t.id).value
             && forall j :: k < j < |tags| ==> tags[j].id != t.id;
    if k < i {
      assert false;
    } else if i < k {
      assert false;
    }
  }

  /** `List<TagEntity>.toUiModels()`: one chip model per tag, same order. */
  function TagUiModels(tags: seq<TagEntity>): (r: seq<TagUiModel>)
    ensures |r| == |tags|
    ensures forall i :: 0 <= i < |tags| ==> r[i].id == tags[i].id && r[i].name == tags[i].name
  {
    seq(|tags|, i requires 0 <= i < |tags| => TagUiModel(tags[i].id, tags[i].name))
  }

  /** `List<SessionEntity>.toUiModels(tags)` of the list screen: every field is
      copied, and the skill name is the one the lookup finds or "" (`orEmpty`). */
  function ListItems(sessions: seq<SessionEntity>, tags: seq<TagEntity>): (r: seq<SessionListItemUiModel>)
    ensures |r| == |sessions|
    ensures forall i :: 0 <= i < |sessions| ==>
      r[i].sessionId == sessions[i].id && r[i].title == sessions[i].title
      && r[i].description == sessions[i].description
      && r[i].durationMs == sessions[i].durationMs && r[i].createdAt == sessions[i].createdAt
    ensures forall i :: 0 <= i < |sessions| ==>
      (TagNameById(tags, sessions[i].tagId).None? ==> r[i].tagName == "")
      && (TagNameById(tags, sessions[i].tagId).Some? ==>
            r[i].tagName == TagNameById(tags, sessions[i].tagId).value)
  {
    seq(|sessions|, i requires 0 <= i < |sessions| =>
      var s := sessions[i];
      SessionListItemUiModel(s.id, s.title, s.description,
        TagNameById(tags, s.tagId).GetOr(""), s.durationMs, s.createdAt))
  }

  /** The selection after `deleteSession`: back to "All" exactly when the
      removed tag is the selected one. */
  function SelectionAfterDelete(selected: Option<int>, removed: Option<int>): (r: Option<int>)
    ensures r == None || r == selected
    ensures r == None <==> selected == None || (removed.Some? && selected == removed)
  {
    if removed.Some? && selected == removed then None else selected
  }

  /** A delete never leaves a skill selected that had sessions before and has
      none after: either the selection goes back to "All", or some session
      still carries the selected tag. */
  lemma SelectionNeverOrphaned(sessions: seq<SessionEntity>, tags: seq<TagEntity>,
                               sessionId: int, selected: Option<int>)
    requires KeysDistinct(sessions, (s: SessionEntity) => s.id)
    requires selected.Some? && exists s :: s in sessions && s.tagId == selected.value
    ensures var out := DeleteAndCleanup(sessions, tags, sessionId);
      var after := SelectionAfterDelete(selected, out.0);
      after == None || exists s :: s in out.1 && s.tagId == after.value
  {
    var out := DeleteAndCleanup(sessions, tags, sessionId);
    var s :| s in sessions && s.tagId == selected.value;
    if SelectionAfterDelete(selected, out.0).Some? {
      var found := Tables.SessionWithId(sessions, sessionId);
      if found.None? || found.value.tagId == selected.value {
        assert out.0.None?;
      } else if s.id != sessionId {
        assert s in out.1;
      } else {
        SameIdSameSession(sessions, s, found.value);
      }
    }
  }

  /** Under distinct ids, two listed sessions with one id are the same session. */
  lemma SameIdSameSession(sessions: seq<SessionEntity>, a: SessionEntity, b: SessionEntity)
    requires KeysDistinct(sessions, (s: SessionEntity) => s.id)
    requires a in sessions && b in sessions && a.id == b.id
    ensures a == b
  {
    var i :| 0 <= i < |sessions| && sessions[i] == a;
    var k :| 0 <= k < |sessions| && sessions[k] == b;
    if i != k {
      assert false;
    }
  }
}
