/** `JourneyRepository.getOrCreateTagId` over the in-memory tag table
    (data/repository/JourneyRepository.kt). */
module JourneyRepositories {
  import opened Wrappers
  import opened Text
  import opened SessionEntities
  import opened Tables

  const EmptyTagNameError := "Tag name cannot be empty"

  /** The tag table as a value: its rows and its id counter. */
  datatype TagStore = TagStore(rows: seq<TagEntity>, nextId: int)

  /** What `getOrCreateTagId(name)` answers and leaves behind: the trimmed
      name is rejected when empty, reused when a tag already has it, and
      otherwise inserted under the next id. */
  function GetOrCreate(st: TagStore, name: string, now: int): (out: (Result<int>, TagStore))
    ensures out.0.Err? <==> IsBlank(name)
    ensures out.0.Err? ==> out.0.message == EmptyTagNameError && out.1 == st
    ensures out.0.Ok? ==> exists t :: t in out.1.rows && t.id == out.0.value && t.name == Trim(name)
    ensures st.rows <= out.1.rows && |out.1.rows| <= |st.rows| + 1
    ensures !IsBlank(name) && FirstTagNamed(st.rows, Trim(name)).Some? ==>
      out == (Ok(FirstTagNamed(st.rows, Trim(name)).value.id), st)
    ensures !IsBlank(name) && FirstTagNamed(st.rows, Trim(name)).None? ==>
      out.0 == Ok(st.nextId) && out.1.nextId == st.nextId + 1
      && out.1.rows == st.rows + [TagEntity(st.nextId, Trim(name), now)]
  {
    TrimEmptyIffBlank(name);
    var trimmed := Trim(name);
    if trimmed == [] then (Err(EmptyTagNameError), st)
    else match FirstTagNamed(st.rows, trimmed)
      case Some(existing) => (Ok(existing.id), st)
      case None =>
        var t := TagEntity(st.nextId, trimmed, now);
        assert t in st.rows + [t];
        (Ok(st.nextId), TagStore(st.rows + [t], st.nextId + 1))
  }

  /** After a tag named `n` is appended to rows without one, the lookup finds it. */
  lemma {:induction false} FirstTagNamedAfterAppend(rows: seq<TagEntity>, t: TagEntity)
    requires FirstTagNamed(rows, t.name).None?
    ensures FirstTagNamed(rows + [t], t.name) == Some(t)
    decreases |rows|
  {
    if rows == [] {
      assert rows + [t] == [t];
    } else {
      assert (rows + [t])[1..] == rows[1..] + [t];
      FirstTagNamedAfterAppend(rows[1..], t);
    }
  }

  /** Calling twice with names that trim alike gives the same id, and the
      second call changes nothing: at most one tag is ever added. */
  lemma GetOrCreateTwice(st: TagStore, a: string, b: string, now1: int, now2: int)
    requires Trim(a) == Trim(b)
    ensures var (r1, st1) := GetOrCreate(st, a, now1);
      var (r2, st2) := GetOrCreate(st1, b, now2);
      r2 == r1 && st2 == st1 && |st2.rows| <= |st.rows| + 1
  {
    TrimEmptyIffBlank(a);
    TrimEmptyIffBlank(b);
    var (r1, st1) := GetOrCreate(st, a, now1);
    if Trim(a) != [] && FirstTagNamed(st.rows, Trim(a)).None? {
      FirstTagNamedAfterAppend(st.rows, TagEntity(st.nextId, Trim(a), now1));
    }
  }

  class JourneyRepository {
    const tagDao: TagTable

    constructor(tagDao: TagTable)
      ensures this.tagDao == tagDao
    {
      this.tagDao := tagDao;
    }

    /** `getOrCreateTagId`: trim, reject empty, reuse by name, else insert. */
    method GetOrCreateTagId(name: string, now: int) returns (r: Result<int>)
      requires tagDao.Valid()
      modifies tagDao
      ensures tagDao.Valid()
      ensures (r, TagStore(tagDao.rows, tagDao.nextId))
        == GetOrCreate(TagStore(old(tagDao.rows), old(tagDao.nextId)), name, now)
    {
      TrimEmptyIffBlank(name);
      var trimmed := Trim(name);
      if trimmed == [] {
        return Err(EmptyTagNameError);
      }
      var existing := tagDao.GetTagByName(trimmed);
      if existing.Some? {
        return Ok(existing.value.id);
      }
      var id := tagDao.InsertTag(trimmed, now);
      return Ok(id);
    }
  }
}
