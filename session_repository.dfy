/** `SessionRepository.addSession` and `deleteSessionAndCleanupTag` over the
    in-memory session and tag tables (data/repository/SessionRepository.kt). */
module SessionRepositories {
  import opened Wrappers
  import opened SessionEntities
  import opened SessionLists
  import opened Tables

  /** What `deleteSessionAndCleanupTag(sessionId)` returns, with the session
      and tag rows it leaves behind. */
  function DeleteAndCleanup(sessions: seq<SessionEntity>, tags: seq<TagEntity>, sessionId: int)
    : (out: (Option<int>, seq<SessionEntity>, seq<TagEntity>))
    ensures SessionWithId(sessions, sessionId).None? ==> out == (None, sessions, tags)
    ensures forall s :: s in out.1 <==> s in sessions && s.id != sessionId
    ensures out.0.Some? ==>
      SessionWithId(sessions, sessionId).Some?
      && out.0.value == SessionWithId(sessions, sessionId).value.tagId
      && (forall s :: s in out.1 ==> s.tagId != out.0.value)
      && (forall t :: t in out.2 <==> t in tags && t.id != out.0.value)
    ensures out.0.None? && SessionWithId(sessions, sessionId).Some? ==>
      out.2 == tags
      && exists s :: s in out.1 && s.tagId == SessionWithId(sessions, sessionId).value.tagId
  {
    match SessionWithId(sessions, sessionId)
    case None => (None, sessions, tags)
    case Some(session) =>
      var tagId := session.tagId;
      var rest := Filter(sessions, (s: SessionEntity) => s.id != sessionId);
      if CountWithTag(rest, tagId) == 0 then
        (Some(tagId), rest, Filter(tags, (t: TagEntity) => t.id != tagId))
      else
        (None, rest, tags)
  }

  /** Deleting an unknown id, or a second time, changes nothing. */
  lemma DeleteTwice(sessions: seq<SessionEntity>, tags: seq<TagEntity>, sessionId: int)
    ensures var (_, s1, t1) := DeleteAndCleanup(sessions, tags, sessionId);
      DeleteAndCleanup(s1, t1, sessionId) == (None, s1, t1)
  {
  }

  class SessionRepository {
    const sessionDao: SessionTable
    const tagDao: TagTable

    constructor(sessionDao: SessionTable, tagDao: TagTable)
      ensures this.sessionDao == sessionDao && this.tagDao == tagDao
    {
      this.sessionDao := sessionDao;
      this.tagDao := tagDao;
    }

    /** `addSession`: inserts exactly one row with the given fields; the row's
        `createdAt` is the clock reading `now`. */
    method AddSession(title: string, description: string, tagId: int,
                      startTime: int, endTime: int, durationMs: int, now: int)
      returns (id: int)
      requires sessionDao.Valid()
      modifies sessionDao
      ensures sessionDao.Valid()
      ensures id == old(sessionDao.nextId)
      ensures sessionDao.rows == old(sessionDao.rows)
        + [SessionEntity(id, title, description, tagId, startTime, endTime, durationMs, now)]
    {
      id := sessionDao.InsertSession(title, description, tagId, startTime, endTime, durationMs, now);
    }

    /** `deleteSessionAndCleanupTag`: delete the session, then drop its tag if
        no session uses it any more and return that tag's id. */
    method DeleteSessionAndCleanupTag(sessionId: int) returns (r: Option<int>)
      requires sessionDao.Valid() && tagDao.Valid()
      modifies sessionDao, tagDao
      ensures sessionDao.Valid() && tagDao.Valid()
      ensures sessionDao.nextId == old(sessionDao.nextId) && tagDao.nextId == old(tagDao.nextId)
      ensures (r, sessionDao.rows, tagDao.rows)
        == DeleteAndCleanup(old(sessionDao.rows), old(tagDao.rows), sessionId)
    {
      var session := sessionDao.GetSessionById(sessionId);
      if session.None? {
        return None;
      }
      var tagId := session.value.tagId;
      sessionDao.DeleteSessionById(sessionId);
      var remaining := sessionDao.GetSessionCountForTag(tagId);
      if remaining == 0 {
        tagDao.DeleteTagById(tagId);
        return Some(tagId);
      } else {
        return None;
      }
    }
  }
}
