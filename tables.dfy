/** In-memory stand-ins for the Room tables `tags` and `sessions`
    (data/model/dao/TagDao.kt, data/model/dao/SessionDao.kt). Rows are kept in
    insertion order; ids are handed out by an auto-increment counter. */
module Tables {
  import opened Wrappers
  import opened SessionEntities
  import opened SessionLists

  /** The first tag row carrying `name` (`... WHERE name = :name LIMIT 1`). */
  function FirstTagNamed(rows: seq<TagEntity>, name: string): (r: Option<TagEntity>)
    ensures r.None? <==> forall i :: 0 <= i < |rows| ==> rows[i].name != name
    ensures r.Some? ==> r.value in rows && r.value.name == name
    ensures r.Some? ==> exists i :: (0 <= i < |rows| && rows[i] == r.value
      && forall j :: 0 <= j < i ==> rows[j].name != name)
  {
    if rows == [] then None
    else if rows[0].name == name then Some(rows[0])
    else
      var r := FirstTagNamed(rows[1..], name);
      assert forall i :: 1 <= i < |rows| ==> rows[i] == rows[1..][i - 1];
      if r.Some? then
        assert exists i :: (0 <= i < |rows| && rows[i] == r.value
          && forall j :: 0 <= j < i ==> rows[j].name != name);
        r
      else r
  }

  /** The session row with `id` (`... WHERE id = :sessionId LIMIT 1`). */
  function SessionWithId(rows: seq<SessionEntity>, id: int): (r: Option<SessionEntity>)
    ensures r.None? <==> forall i :: 0 <= i < |rows| ==> rows[i].id != id
    ensures r.Some? ==> r.value in rows && r.value.id == id
  {
    if rows == [] then None
    else if rows[0].id == id then Some(rows[0])
    else
      assert forall i :: 1 <= i < |rows| ==> rows[i] == rows[1..][i - 1];
      SessionWithId(rows[1..], id)
  }

  /** `SELECT COUNT(*) FROM sessions WHERE tagId = :tagId` */
  function CountWithTag(rows: seq<SessionEntity>, tagId: int): (n: nat)
    ensures n == 0 <==> forall s :: s in rows ==> s.tagId != tagId
  {
    var r := WithTag(rows, tagId);
    assert |r| > 0 ==> r[0] in r;
    |r|
  }

  /** All ids are distinct and lie in `[1, nextId)`. */
  ghost predicate TagIdsBelow(rows: seq<TagEntity>, nextId: int) {
    (forall t :: t in rows ==> 1 <= t.id < nextId)
    && KeysDistinct(rows, (t: TagEntity) => t.id)
  }

  ghost predicate SessionIdsBelow(rows: seq<SessionEntity>, nextId: int) {
    (forall s :: s in rows ==> 1 <= s.id < nextId)
    && KeysDistinct(rows, (s: SessionEntity) => s.id)
  }

  /** The `tags` table. */
  class TagTable {
    var rows: seq<TagEntity>
    var nextId: int

    ghost predicate Valid()
      reads this
    {
      nextId >= 1 && TagIdsBelow(rows, nextId)
    }

    constructor()
      ensures Valid() && rows == [] && nextId == 1
    {
      rows := [];
      nextId := 1;
    }

    /** `TagDao.getTagByName`: scans the rows in order. */
    method GetTagByName(name: string) returns (r: Option<TagEntity>)
      ensures r == FirstTagNamed(rows, name)
    {
      var i := 0;
      while i < |rows|
        invariant 0 <= i <= |rows|
        invariant FirstTagNamed(rows, name) == FirstTagNamed(rows[i..], name)
      {
        if rows[i].name == name {
          return Some(rows[i]);
        }
        assert rows[i..][1..] == rows[i + 1..];
        i := i + 1;
      }
      return None;
    }

    /** `TagDao.insertTag` for a new entity (id 0, so the key never clashes):
        appends a row under the next id and returns that id. */
    method InsertTag(name: string, createdAt: int) returns (id: int)
      requires Valid()
      modifies this
      ensures Valid()
      ensures id == old(nextId) && nextId == old(nextId) + 1
      ensures rows == old(rows) + [TagEntity(id, name, createdAt)]
    {
      id := nextId;
      rows := rows + [TagEntity(id, name, createdAt)];
      nextId := nextId + 1;
    }

    /** `TagDao.deleteTagById` */
    method DeleteTagById(tagId: int)
      requires Valid()
      modifies this
      ensures Valid()
      ensures nextId == old(nextId)
      ensures rows == Filter(old(rows), (t: TagEntity) => t.id != tagId)
    {
      FilterKeepsKeysDistinct(rows, (t: TagEntity) => t.id, (t: TagEntity) => t.id != tagId);
      rows := Filter(rows, (t: TagEntity) => t.id != tagId);
    }
  }

  /** The `sessions` table. */
  class SessionTable {
    var rows: seq<SessionEntity>
    var nextId: int

    ghost predicate Valid()
      reads this
    {
      nextId >= 1 && SessionIdsBelow(rows, nextId)
    }

    constructor()
      ensures Valid() && rows == [] && nextId == 1
    {
      rows := [];
      nextId := 1;
    }

    /** `SessionDao.insertSession` for a new entity (id 0): appends the row
        under the next id and returns that id. */
    method InsertSession(title: string, description: string, tagId: int,
                         startTime: int, endTime: int, durationMs: int, createdAt: int)
      returns (id: int)
      requires Valid()
      modifies this
      ensures Valid()
      ensures id == old(nextId) && nextId == old(nextId) + 1
      ensures rows == old(rows) + [SessionEntity(id, title, description, tagId,
                                                 startTime, endTime, durationMs, createdAt)]
    {
      id := nextId;
      rows := rows + [SessionEntity(id, title, description, tagId, startTime, endTime, durationMs, createdAt)];
      nextId := nextId + 1;
    }

    /** `SessionDao.getSessionById` */
    method GetSessionById(sessionId: int) returns (r: Option<SessionEntity>)
      ensures r == SessionWithId(rows, sessionId)
    {
      var i := 0;
      while i < |rows|
        invariant 0 <= i <= |rows|
        invariant SessionWithId(rows, sessionId) == SessionWithId(rows[i..], sessionId)
      {
        if rows[i].id == sessionId {
          return Some(rows[i]);
        }
        assert rows[i..][1..] == rows[i + 1..];
        i := i + 1;
      }
      return None;
    }

    /** `SessionDao.getSessionCountForTag` */
    method GetSessionCountForTag(tagId: int) returns (n: int)
      ensures n == CountWithTag(rows, tagId)
    {
      n := 0;
      var i := |rows|;
      while i > 0
        invariant 0 <= i <= |rows|
        invariant n == |WithTag(rows[i..], tagId)|
      {
        i := i - 1;
        assert rows[i..][1..] == rows[i + 1..];
        if rows[i].tagId == tagId {
          n := n + 1;
        }
      }
      assert rows[0..] == rows;
    }

    /** `SessionDao.deleteSessionById` */
    method DeleteSessionById(sessionId: int)
      requires Valid()
      modifies this
      ensures Valid()
      ensures nextId == old(nextId)
      ensures rows == Filter(old(rows), (s: SessionEntity) => s.id != sessionId)
    {
      FilterKeepsKeysDistinct(rows, (s: SessionEntity) => s.id, (s: SessionEntity) => s.id != sessionId);
      rows := Filter(rows, (s: SessionEntity) => s.id != sessionId);
    }
  }
}
