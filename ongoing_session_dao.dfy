/** The single-row store of the session in progress
    (data/model/entity/OngoingSessionEntity.kt, data/model/dao/OngoingSessionDao.kt). */
module OngoingSessions {
  import opened Wrappers

  /** The key of the one row the app ever reads or clears. */
  const SingleRowId := 1

  datatype OngoingSessionEntity = OngoingSessionEntity(
    id: int,
    title: string,
    description: string,
    tagName: string,
    isInFlowMode: bool,
    isRunning: bool,
    baseStartTimeMs: Option<int>,
    accumulatedBeforeStartMs: int,
    createdAt: int)

  /** `SELECT * FROM ongoing_session WHERE id = 1` */
  function ReadOngoing(rows: map<int, OngoingSessionEntity>): (r: Option<OngoingSessionEntity>)
    ensures r.Some? <==> SingleRowId in rows
    ensures r.Some? ==> r.value == rows[SingleRowId]
  {
    if SingleRowId in rows then Some(rows[SingleRowId]) else None
  }

  /** Every row sits under its own primary key. */
  ghost predicate Keyed(rows: map<int, OngoingSessionEntity>) {
    forall k :: k in rows ==> rows[k].id == k
  }

  /** Upsert then read returns the written entity unchanged when its id is 1;
      an upsert under another key is invisible to the read. */
  lemma ReadAfterUpsert(rows: map<int, OngoingSessionEntity>, e: OngoingSessionEntity)
    ensures e.id == SingleRowId ==> ReadOngoing(rows[e.id := e]) == Some(e)
    ensures e.id != SingleRowId ==> ReadOngoing(rows[e.id := e]) == ReadOngoing(rows)
    ensures Keyed(rows) ==> Keyed(rows[e.id := e])
  {
  }

  /** After a clear the read finds nothing, other keys survive, and a second
      clear changes nothing. */
  lemma ReadAfterClear(rows: map<int, OngoingSessionEntity>)
    ensures ReadOngoing(rows - {SingleRowId}) == None
    ensures forall k :: k in rows && k != SingleRowId ==> k in rows - {SingleRowId}
    ensures (rows - {SingleRowId}) - {SingleRowId} == rows - {SingleRowId}
  {
  }

  class OngoingSessionDao {
    var rows: map<int, OngoingSessionEntity>

    ghost predicate Valid()
      reads this
    {
      Keyed(rows)
    }

    constructor()
      ensures Valid() && rows == map[]
    {
      rows := map[];
    }

    /** `getOngoingSession` (its current value). */
    function GetOngoingSession(): (r: Option<OngoingSessionEntity>)
      reads this
      ensures r.None? <==> SingleRowId !in rows
      ensures r.Some? ==> r.value == rows[SingleRowId]
    {
      ReadOngoing(rows)
    }

    /** `upsert` (insert with REPLACE on the primary key). */
    method Upsert(e: OngoingSessionEntity)
      modifies this
      ensures rows == old(rows)[e.id := e]
      ensures old(Valid()) ==> Valid()
    {
      rows := rows[e.id := e];
    }

    /** `clear` */
    method Clear()
      modifies this
      ensures rows == old(rows) - {SingleRowId}
      ensures old(Valid()) ==> Valid()
    {
      rows := rows - {SingleRowId};
    }
  }
}
