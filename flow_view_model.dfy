/** The persisted, interruptible focus stopwatch (ui/viewmodel/FlowViewModel.kt).
    The clock is the parameter `now` of each operation; background work
    (the ticker coroutine, fire-and-forget saves) runs synchronously, in
    program order. */
module FlowViewModels {
  import opened Wrappers
  import opened LongMath
  import opened Text
  import opened Stopwatch
  import opened OngoingSessions
  import opened SessionEntities
  import opened Tables
  import opened JourneyRepositories
  import opened SessionRepositories

  datatype FlowUiState = FlowUiState(
    title: string,
    description: string,
    tagName: string,
    stopwatch: StopwatchState,
    isInFlowMode: bool)

  /** `FlowUiState()` */
  const DefaultFlowUiState := FlowUiState("", "", "", Stopped, false)

  const RequiredFieldsError := "Title and Skill are required"

  /** A stored record the controller could have written: a run start is
      recorded exactly while running, and the banked time is not negative. */
  predicate ConsistentRecord(e: OngoingSessionEntity) {
    e.id == SingleRowId
    && (e.isRunning <==> e.baseStartTimeMs.Some?)
    && e.accumulatedBeforeStartMs >= 0
  }

  /** The stopwatch rebuilt from a stored record at `now`. */
  function RestoredStopwatch(e: OngoingSessionEntity, now: int): (sw: StopwatchState)
    ensures sw.isRunning == e.isRunning
    ensures sw.elapsedMs >= e.accumulatedBeforeStartMs
    ensures !e.isRunning ==> sw.elapsedMs == e.accumulatedBeforeStartMs
  {
    StopwatchState(e.isRunning,
      LiveElapsed(e.isRunning, e.baseStartTimeMs, e.accumulatedBeforeStartMs, now))
  }

  /** A paused record restores to the same reading whenever it is read back. */
  lemma PausedRestoreIsTimeless(e: OngoingSessionEntity, t1: int, t2: int)
    requires !e.isRunning
    ensures RestoredStopwatch(e, t1) == RestoredStopwatch(e, t2)
      == StopwatchState(false, e.accumulatedBeforeStartMs)
  {
  }

  /** A running record restores to its run time so far: for a clock at or
      after the run start, banked time plus time since the start. */
  lemma RunningRestoreCountsDowntime(e: OngoingSessionEntity, now: int)
    requires ConsistentRecord(e) && e.isRunning
    requires now >= e.baseStartTimeMs.value
    ensures RestoredStopwatch(e, now).elapsedMs
      == e.accumulatedBeforeStartMs + (now - e.baseStartTimeMs.value)
  {
  }

  class FlowViewModel {
    var ui: FlowUiState
    var error: Option<string>
    var baseStartTimeMs: Option<int>
    var accumulatedBeforeStartMs: int
    /** Whether the one-second ticker job exists. */
    var tickerActive: bool
    /** The last command sent to the background mirror: start (true) or stop. */
    var mirrorRequested: bool

    const store: OngoingSessionDao
    const tagRepository: JourneyRepository
    const sessionRepository: SessionRepository

    /** The record `saveOngoing` writes, stamped with `now`. */
    function Snapshot(now: int): (e: OngoingSessionEntity)
      reads this
      ensures e.id == SingleRowId
      ensures e.baseStartTimeMs == baseStartTimeMs
      ensures e.accumulatedBeforeStartMs == accumulatedBeforeStartMs
      ensures e.isRunning == ui.stopwatch.isRunning && e.isInFlowMode == ui.isInFlowMode
    {
      OngoingSessionEntity(SingleRowId, ui.title, ui.description, ui.tagName,
        ui.isInFlowMode, ui.stopwatch.isRunning, baseStartTimeMs,
        accumulatedBeforeStartMs, now)
    }

    /** The stored record agrees with the fields it mirrors; with no record
        the controller is in its initial state. */
    ghost predicate InSync()
      reads this, store
    {
      match ReadOngoing(store.rows)
      case None =>
        ui == DefaultFlowUiState && baseStartTimeMs.None? && accumulatedBeforeStartMs == 0
      case Some(e) =>
        e == Snapshot(e.createdAt)
    }

    ghost predicate Valid()
      reads this, store
    {
      (ui.stopwatch.isRunning <==> baseStartTimeMs.Some?)
      && tickerActive == ui.stopwatch.isRunning
      && accumulatedBeforeStartMs >= 0
      && ui.stopwatch.elapsedMs >= accumulatedBeforeStartMs
      && (!ui.stopwatch.isRunning ==> ui.stopwatch.elapsedMs == accumulatedBeforeStartMs)
      && InSync()
    }

    /** The constructor with the `init` restore: a stored record is copied
        verbatim and the elapsed reading rebuilt at `now`; with no record the
        defaults stand. */
    constructor(store: OngoingSessionDao, tagRepository: JourneyRepository,
                sessionRepository: SessionRepository, now: int)
      ensures this.store == store && this.tagRepository == tagRepository
      ensures this.sessionRepository == sessionRepository
      ensures error == None && !mirrorRequested
      ensures ReadOngoing(store.rows).None? ==>
        ui == DefaultFlowUiState && baseStartTimeMs == None
        && accumulatedBeforeStartMs == 0 && !tickerActive
      ensures ReadOngoing(store.rows).Some? ==>
        var e := ReadOngoing(store.rows).value;
        accumulatedBeforeStartMs == e.accumulatedBeforeStartMs
        && baseStartTimeMs == e.baseStartTimeMs
        && ui == FlowUiState(e.title, e.description, e.tagName, RestoredStopwatch(e, now), e.isInFlowMode)
        && tickerActive == e.isRunning
      ensures (ReadOngoing(store.rows).None? || ConsistentRecord(ReadOngoing(store.rows).value))
        ==> Valid()
    {
      this.store := store;
      this.tagRepository := tagRepository;
      this.sessionRepository := sessionRepository;
      error := None;
      mirrorRequested := false;
      var stored := store.GetOngoingSession();
      match stored {
        case None =>
          ui := DefaultFlowUiState;
          baseStartTimeMs := None;
          accumulatedBeforeStartMs := 0;
          tickerActive := false;
        case Some(e) =>
          accumulatedBeforeStartMs := e.accumulatedBeforeStartMs;
          baseStartTimeMs := e.baseStartTimeMs;
          ui := FlowUiState(e.title, e.description, e.tagName, RestoredStopwatch(e, now), e.isInFlowMode);
          tickerActive := e.isRunning;
      }
    }

    /** `saveOngoing`: write the snapshot under id 1. */
    method SaveOngoing(now: int)
      modifies store
      ensures store.rows == old(store.rows)[SingleRowId := Snapshot(now)]
      ensures ReadOngoing(store.rows) == Some(Snapshot(now))
    {
      store.Upsert(Snapshot(now));
    }

    /** `onTitleChange` */
    method OnTitleChange(newTitle: string, now: int)
      modifies this, store
      ensures ui == old(ui).(title := newTitle)
      ensures baseStartTimeMs == old(baseStartTimeMs)
      ensures accumulatedBeforeStartMs == old(accumulatedBeforeStartMs)
      ensures tickerActive == old(tickerActive) && mirrorRequested == old(mirrorRequested)
      ensures error == old(error)
      ensures store.rows == old(store.rows)[SingleRowId := Snapshot(now)]
      ensures old(Valid()) ==> Valid()
    {
      ui := ui.(title := newTitle);
      SaveOngoing(now);
    }

    /** `onDescriptionChange` */
    method OnDescriptionChange(newDescription: string, now: int)
      modifies this, store
      ensures ui == old(ui).(description := newDescription)
      ensures baseStartTimeMs == old(baseStartTimeMs)
      ensures accumulatedBeforeStartMs == old(accumulatedBeforeStartMs)
      ensures tickerActive == old(tickerActive) && mirrorRequested == old(mirrorRequested)
      ensures error == old(error)
      ensures store.rows == old(store.rows)[SingleRowId := Snapshot(now)]
      ensures old(Valid()) ==> Valid()
    {
      ui := ui.(description := newDescription);
      SaveOngoing(now);
    }

    /** `onTagNameChange` */
    method OnTagNameChange(newTagName: string, now: int)
      modifies this, store
      ensures ui == old(ui).(tagName := newTagName)
      ensures baseStartTimeMs == old(baseStartTimeMs)
      ensures accumulatedBeforeStartMs == old(accumulatedBeforeStartMs)
      ensures tickerActive == old(tickerActive) && mirrorRequested == old(mirrorRequested)
      ensures error == old(error)
      ensures store.rows == old(store.rows)[SingleRowId := Snapshot(now)]
      ensures old(Valid()) ==> Valid()
    {
      ui := ui.(tagName := newTagName);
      SaveOngoing(now);
    }

    /** `startOrResumeStopwatch`: nothing when already running; otherwise a
        run starts at `now`, the banked time and the reading stay as they are. */
    method StartOrResume(now: int)
      modifies this, store
      ensures old(ui.stopwatch.isRunning) ==>
        ui == old(ui) && baseStartTimeMs == old(baseStartTimeMs)
        && tickerActive == old(tickerActive) && store.rows == old(store.rows)
      ensures !old(ui.stopwatch.isRunning) ==>
        ui == old(ui).(stopwatch := StopwatchState(true, old(ui.stopwatch.elapsedMs)))
        && baseStartTimeMs == Some(now) && tickerActive
        && store.rows == old(store.rows)[SingleRowId := Snapshot(now)]
      ensures accumulatedBeforeStartMs == old(accumulatedBeforeStartMs)
      ensures error == old(error) && mirrorRequested == old(mirrorRequested)
      ensures old(Valid()) ==> Valid()
    {
      if ui.stopwatch.isRunning {
        return;
      }
      baseStartTimeMs := Some(now);
      ui := ui.(stopwatch := ui.stopwatch.(isRunning := true));
      tickerActive := true;
      SaveOngoing(now);
    }

    /** `pauseStopwatch`: nothing when stopped; otherwise the run time up to
        `now` (clamped at zero) is banked once, the run start is cleared and
        the reading becomes the banked total. */
    method Pause(now: int)
      modifies this, store
      ensures !old(ui.stopwatch.isRunning) ==>
        ui == old(ui) && baseStartTimeMs == old(baseStartTimeMs)
        && accumulatedBeforeStartMs == old(accumulatedBeforeStartMs)
        && tickerActive == old(tickerActive) && store.rows == old(store.rows)
      ensures old(ui.stopwatch.isRunning) ==>
        accumulatedBeforeStartMs
          == LiveElapsed(true, old(baseStartTimeMs), old(accumulatedBeforeStartMs), now)
        && baseStartTimeMs == None && !tickerActive
        && ui == old(ui).(stopwatch := StopwatchState(false, accumulatedBeforeStartMs))
        && store.rows == old(store.rows)[SingleRowId := Snapshot(now)]
      ensures error == old(error) && mirrorRequested == old(mirrorRequested)
      ensures old(Valid()) ==> Valid()
    {
      if !ui.stopwatch.isRunning {
        return;
      }
      accumulatedBeforeStartMs := FoldRun(baseStartTimeMs, accumulatedBeforeStartMs, now);
      baseStartTimeMs := None;
      ui := ui.(stopwatch := StopwatchState(false, accumulatedBeforeStartMs));
      tickerActive := false;
      SaveOngoing(now);
    }

    /** `resetStopwatch`: unconditional; the run start, banked time and
        reading all go to zero, the text fields and focus flag stay. */
    method Reset(now: int)
      modifies this, store
      ensures ui == old(ui).(stopwatch := Stopped)
      ensures baseStartTimeMs == None && accumulatedBeforeStartMs == 0 && !tickerActive
      ensures error == old(error) && mirrorRequested == old(mirrorRequested)
      ensures store.rows == old(store.rows)[SingleRowId := Snapshot(now)]
      ensures Valid()
    {
      baseStartTimeMs := None;
      accumulatedBeforeStartMs := 0;
      ui := ui.(stopwatch := Stopped);
      tickerActive := false;
      SaveOngoing(now);
    }

    /** One pass of the ticker loop at instant `now`: the reading is rebuilt
        from the banked time and the run start. Nothing is written. */
    method Tick(now: int)
      requires tickerActive
      modifies this
      ensures ui == old(ui).(stopwatch := old(ui.stopwatch).(elapsedMs :=
        LiveElapsed(old(ui.stopwatch.isRunning), baseStartTimeMs, accumulatedBeforeStartMs, now)))
      ensures baseStartTimeMs == old(baseStartTimeMs)
      ensures accumulatedBeforeStartMs == old(accumulatedBeforeStartMs)
      ensures tickerActive && error == old(error) && mirrorRequested == old(mirrorRequested)
      ensures old(Valid()) ==> Valid()
    {
      var elapsed := LiveElapsed(ui.stopwatch.isRunning, baseStartTimeMs, accumulatedBeforeStartMs, now);
      ui := ui.(stopwatch := ui.stopwatch.(elapsedMs := elapsed));
    }

    /** The ticker loop over the instants it wakes at: `readings` are the
        values shown after each wake-up. Each is the live value at its
        instant, they never move backwards while the clock advances, and the
        last one is the reading left on screen. */
    method RunTicker(wakeUps: seq<int>) returns (ghost readings: seq<int>)
      requires tickerActive
      requires forall i, j :: 0 <= i < j < |wakeUps| ==> wakeUps[i] <= wakeUps[j]
      modifies this
      ensures wakeUps != [] ==> (ui.stopwatch.elapsedMs
        == LiveElapsed(ui.stopwatch.isRunning, baseStartTimeMs, accumulatedBeforeStartMs, wakeUps[|wakeUps| - 1]))
      ensures wakeUps == [] ==> ui == old(ui)
      ensures |readings| == |wakeUps|
      ensures forall k :: 0 <= k < |wakeUps| ==>
        readings[k] == LiveElapsed(ui.stopwatch.isRunning, baseStartTimeMs, accumulatedBeforeStartMs, wakeUps[k])
      ensures forall k, l :: 0 <= k < l < |readings| ==> readings[k] <= readings[l]
      ensures wakeUps != [] ==> ui.stopwatch.elapsedMs == readings[|readings| - 1]
      ensures ui.stopwatch.isRunning == old(ui.stopwatch.isRunning)
      ensures ui.title == old(ui.title) && ui.description == old(ui.description)
      ensures ui.tagName == old(ui.tagName) && ui.isInFlowMode == old(ui.isInFlowMode)
      ensures baseStartTimeMs == old(baseStartTimeMs)
      ensures accumulatedBeforeStartMs == old(accumulatedBeforeStartMs)
      ensures tickerActive && error == old(error) && mirrorRequested == old(mirrorRequested)
      ensures old(Valid()) ==> Valid()
    {
      readings := [];
      var i := 0;
      while i < |wakeUps|
        invariant 0 <= i <= |wakeUps|
        invariant tickerActive && error == old(error) && mirrorRequested == old(mirrorRequested)
        invariant baseStartTimeMs == old(baseStartTimeMs)
        invariant accumulatedBeforeStartMs == old(accumulatedBeforeStartMs)
        invariant ui.stopwatch.isRunning == old(ui.stopwatch.isRunning)
        invariant ui.title == old(ui.title) && ui.description == old(ui.description)
        invariant ui.tagName == old(ui.tagName) && ui.isInFlowMode == old(ui.isInFlowMode)
        invariant i == 0 ==> ui == old(ui)
        invariant |readings| == i
        invariant forall k :: 0 <= k < i ==>
          readings[k] == LiveElapsed(ui.stopwatch.isRunning, baseStartTimeMs, accumulatedBeforeStartMs, wakeUps[k])
        invariant forall k, l :: 0 <= k < l < i ==> readings[k] <= readings[l]
        invariant i > 0 ==> (ui.stopwatch.elapsedMs
          == LiveElapsed(ui.stopwatch.isRunning, baseStartTimeMs, accumulatedBeforeStartMs, wakeUps[i - 1]))
        invariant old(Valid()) ==> Valid()
      {
        Tick(wakeUps[i]);
        forall k | 0 <= k < i
          ensures readings[k] <= ui.stopwatch.elapsedMs
        {
          LiveElapsedMonotone(ui.stopwatch.isRunning, baseStartTimeMs, accumulatedBeforeStartMs,
            wakeUps[k], wakeUps[i]);
        }
        readings := readings + [ui.stopwatch.elapsedMs];
        i := i + 1;
      }
    }

    /** `enterFocusMode`: start the stopwatch if stopped, raise the focus
        flag, save, and start the background mirror. */
    method EnterFocusMode(now: int)
      modifies this, store
      ensures ui.isInFlowMode && mirrorRequested
      ensures ui.stopwatch.isRunning
      ensures old(ui.stopwatch.isRunning) ==>
        ui == old(ui).(isInFlowMode := true) && baseStartTimeMs == old(baseStartTimeMs)
        && tickerActive == old(tickerActive)
      ensures !old(ui.stopwatch.isRunning) ==>
        ui == old(ui).(isInFlowMode := true, stopwatch := StopwatchState(true, old(ui.stopwatch.elapsedMs)))
        && baseStartTimeMs == Some(now) && tickerActive
      ensures accumulatedBeforeStartMs == old(accumulatedBeforeStartMs)
      ensures ui.title == old(ui.title) && ui.tagName == old(ui.tagName)
      ensures error == old(error)
      ensures store.rows == old(store.rows)[SingleRowId := Snapshot(now)]
      ensures ReadOngoing(store.rows) == Some(Snapshot(now))
      ensures old(Valid()) ==> Valid()
    {
      if !ui.stopwatch.isRunning {
        StartOrResume(now);
      }
      ui := ui.(isInFlowMode := true);
      SaveOngoing(now);
      mirrorRequested := true;
    }

    /** `exitFocusMode`: pause if running, lower the focus flag, save, and
        stop the background mirror. */
    method ExitFocusMode(now: int)
      modifies this, store
      ensures !ui.isInFlowMode && !mirrorRequested
      ensures !ui.stopwatch.isRunning
      ensures old(ui.stopwatch.isRunning) ==>
        baseStartTimeMs == None && !tickerActive
        && accumulatedBeforeStartMs
          == LiveElapsed(true, old(baseStartTimeMs), old(accumulatedBeforeStartMs), now)
        && ui == old(ui).(isInFlowMode := false, stopwatch := StopwatchState(false, accumulatedBeforeStartMs))
      ensures !old(ui.stopwatch.isRunning) ==>
        ui == old(ui).(isInFlowMode := false) && baseStartTimeMs == old(baseStartTimeMs)
        && accumulatedBeforeStartMs == old(accumulatedBeforeStartMs) && tickerActive == old(tickerActive)
      ensures ui.title == old(ui.title) && ui.tagName == old(ui.tagName)
      ensures error == old(error)
      ensures store.rows == old(store.rows)[SingleRowId := Snapshot(now)]
      ensures ReadOngoing(store.rows) == Some(Snapshot(now))
      ensures old(Valid()) ==> Valid()
    {
      if ui.stopwatch.isRunning {
        Pause(now);
      }
      ui := ui.(isInFlowMode := false);
      SaveOngoing(now);
      mirrorRequested := false;
    }

    /** `saveSession`: a blank title or skill only sets the error; otherwise
        the session is committed. `tagId` names the skill it was filed under. */
    method SaveSession(now: int) returns (done: bool, ghost tagId: int)
      requires tagRepository.tagDao.Valid() && sessionRepository.sessionDao.Valid()
      modifies this, store, tagRepository.tagDao, sessionRepository.sessionDao
      ensures tagRepository.tagDao.Valid() && sessionRepository.sessionDao.Valid()
      ensures done <==> !IsBlank(old(ui.title)) && !IsBlank(old(ui.tagName))
      ensures !done ==>
        error == Some(RequiredFieldsError)
        && ui == old(ui) && baseStartTimeMs == old(baseStartTimeMs)
        && accumulatedBeforeStartMs == old(accumulatedBeforeStartMs)
        && tickerActive == old(tickerActive) && mirrorRequested == old(mirrorRequested)
        && store.rows == old(store.rows)
        && tagRepository.tagDao.rows == old(tagRepository.tagDao.rows)
        && sessionRepository.sessionDao.rows == old(sessionRepository.sessionDao.rows)
      ensures done ==>
        (Ok(tagId), TagStore(tagRepository.tagDao.rows, tagRepository.tagDao.nextId))
          == GetOrCreate(TagStore(old(tagRepository.tagDao.rows), old(tagRepository.tagDao.nextId)),
                         Trim(old(ui.tagName)), now)
      ensures done ==>
        sessionRepository.sessionDao.rows == old(sessionRepository.sessionDao.rows)
          + [CommittedSession(old(ui), tagId, old(sessionRepository.sessionDao.nextId), now)]
      ensures done ==>
        error == None && ui == DefaultFlowUiState && baseStartTimeMs == None
        && accumulatedBeforeStartMs == 0 && !tickerActive && !mirrorRequested
        && ReadOngoing(store.rows) == None
      ensures old(Valid()) ==> Valid()
    {
      if IsBlank(ui.title) || IsBlank(ui.tagName) {
        error := Some(RequiredFieldsError);
        return false, 0;
      }
      error := None;
      tagId := RecordSession(ui, now);
      ReturnToInitial(now);
      return true, tagId;
    }

    /** The end of a successful `saveSession`: the stopwatch is reset, the
        screen state returns to its defaults, the stored record is cleared
        and the mirror stopped. */
    method ReturnToInitial(now: int)
      modifies this, store
      ensures ui == DefaultFlowUiState && baseStartTimeMs == None
      ensures accumulatedBeforeStartMs == 0 && !tickerActive && !mirrorRequested
      ensures error == old(error)
      ensures ReadOngoing(store.rows) == None
      ensures Valid()
    {
      Reset(now);
      ui := DefaultFlowUiState;
      store.Clear();
      mirrorRequested := false;
    }

    /** The writes of a commit: the skill is found or created by its trimmed
        name and one session row is added under it. */
    method RecordSession(state: FlowUiState, now: int) returns (ghost tagId: int)
      requires !IsBlank(state.title) && !IsBlank(state.tagName)
      requires tagRepository.tagDao.Valid() && sessionRepository.sessionDao.Valid()
      modifies tagRepository.tagDao, sessionRepository.sessionDao
      ensures tagRepository.tagDao.Valid() && sessionRepository.sessionDao.Valid()
      ensures (Ok(tagId), TagStore(tagRepository.tagDao.rows, tagRepository.tagDao.nextId))
        == GetOrCreate(TagStore(old(tagRepository.tagDao.rows), old(tagRepository.tagDao.nextId)),
                       Trim(state.tagName), now)
      ensures sessionRepository.sessionDao.rows == old(sessionRepository.sessionDao.rows)
        + [CommittedSession(state, tagId, old(sessionRepository.sessionDao.nextId), now)]
    {
      var sessionId := sessionRepository.sessionDao.nextId;
      var id := FileUnderSkill(state.tagName, now);
      tagId := id;
      // duration, end and start as `saveSession` computes them
      AppendRow(CommittedSession(state, id, sessionId, now));
    }

    /** The skill lookup of a commit: a non-blank name is always accepted. */
    method FileUnderSkill(tagName: string, now: int) returns (id: int)
      requires !IsBlank(tagName) && tagRepository.tagDao.Valid()
      modifies tagRepository.tagDao
      ensures tagRepository.tagDao.Valid()
      ensures (Ok(id), TagStore(tagRepository.tagDao.rows, tagRepository.tagDao.nextId))
        == GetOrCreate(TagStore(old(tagRepository.tagDao.rows), old(tagRepository.tagDao.nextId)),
                       Trim(tagName), now)
    {
      BlankIffTrimBlank(tagName);
      var found := tagRepository.GetOrCreateTagId(Trim(tagName), now);
      assert found.Ok?;
      id := found.value;
    }

    /** The session write of a commit: `row` is appended under the next id. */
    method AppendRow(row: SessionEntity)
      requires sessionRepository.sessionDao.Valid() && row.id == sessionRepository.sessionDao.nextId
      modifies sessionRepository.sessionDao
      ensures sessionRepository.sessionDao.Valid()
      ensures sessionRepository.sessionDao.rows == old(sessionRepository.sessionDao.rows) + [row]
    {
      var _ := sessionRepository.AddSession(row.title, row.description, row.tagId,
                                            row.startTime, row.endTime, row.durationMs, row.createdAt);
    }
  }

  /** The session row a commit records from the screen state `state`: the
      trimmed texts, the cached reading clamped at zero as the duration,
      ending at `now` and starting that long before (clamped at zero). */
  function CommittedSession(state: FlowUiState, tagId: int, sessionId: int, now: int): (s: SessionEntity)
    ensures s.durationMs >= 0 && s.endTime == now && s.createdAt == now && s.startTime >= 0
    ensures state.stopwatch.elapsedMs >= 0 ==> s.durationMs == state.stopwatch.elapsedMs
    ensures now >= 0 ==> s.startTime <= s.endTime
    ensures s.durationMs <= now ==> s.endTime - s.startTime == s.durationMs
    ensures s.id == sessionId && s.tagId == tagId
    ensures s.title == Trim(state.title) && s.description == Trim(state.description)
  {
    var durationMs := ClampNonNegative(state.stopwatch.elapsedMs);
    SessionEntity(sessionId, Trim(state.title), Trim(state.description), tagId,
      ClampNonNegative(now - durationMs), now, durationMs, now)
  }

  /** A valid controller's record is one it could restore from. */
  lemma SnapshotIsConsistent(vm: FlowViewModel, now: int)
    requires vm.Valid()
    ensures ConsistentRecord(vm.Snapshot(now))
  {
  }

  /** While paused, the cached reading is the exact elapsed time at any instant. */
  lemma CachedReadingExactWhenPaused(vm: FlowViewModel, now: int)
    requires vm.Valid() && !vm.ui.stopwatch.isRunning
    ensures vm.ui.stopwatch.elapsedMs
      == LiveElapsed(false, vm.baseStartTimeMs, vm.accumulatedBeforeStartMs, now)
    ensures vm.ui.stopwatch.elapsedMs == vm.accumulatedBeforeStartMs
  {
  }

  /** Start at 0 s, pause at 125 s, resume at 200 s, tick at 260 s: the
      reading is 185 s and the stored record holds the banked 125 s and the
      resume instant. */
  method PauseResumeScenario() returns (elapsed: int, stored: Option<OngoingSessionEntity>)
    ensures elapsed == 185_000
    ensures stored.Some? && stored.value.accumulatedBeforeStartMs == 125_000
    ensures stored.value.baseStartTimeMs == Some(200_000) && stored.value.isRunning
  {
    var store := new OngoingSessionDao();
    var tags := new TagTable();
    var sessions := new SessionTable();
    var journeys := new JourneyRepository(tags);
    var repository := new SessionRepository(sessions, tags);
    var vm := new FlowViewModel(store, journeys, repository, 0);
    vm.StartOrResume(0);
    vm.Pause(125_000);
    vm.StartOrResume(200_000);
    vm.Tick(260_000);
    elapsed := vm.ui.stopwatch.elapsedMs;
    stored := store.GetOngoingSession();
  }

  /** Focus from 0 s, leave focus at 600 s, save at 700 s with a title and a
      skill name that need no trimming: one 600-second session ending at
      700 s and starting at 100 s is recorded under those texts and a new
      skill with id 1, and the controller is back at its defaults with no
      stored record. */
  method FocusAndSaveScenario(title: string, skill: string)
    returns (done: bool, recorded: seq<SessionEntity>, skills: seq<TagEntity>, stored: Option<OngoingSessionEntity>)
    requires title != [] && !IsWhitespace(title[0]) && !IsWhitespace(title[|title| - 1])
    requires skill != [] && !IsWhitespace(skill[0]) && !IsWhitespace(skill[|skill| - 1])
    ensures done
    ensures skills == [TagEntity(1, skill, 700_000)]
    ensures recorded == [SessionEntity(1, title, "", 1, 100_000, 700_000, 600_000, 700_000)]
    ensures stored == None
  {
    TrimKeepsUnpadded(title);
    TrimKeepsUnpadded(skill);
    var store := new OngoingSessionDao();
    var tags := new TagTable();
    var sessions := new SessionTable();
    var journeys := new JourneyRepository(tags);
    var repository := new SessionRepository(sessions, tags);
    var vm := new FlowViewModel(store, journeys, repository, 0);
    FocusForTenMinutes(vm, title, skill);
    assert tags.rows == [] && tags.nextId == 1 && sessions.rows == [] && sessions.nextId == 1;
    FirstCommitOfNewSkill(title, skill);
    ghost var tagId;
    done, tagId := vm.SaveSession(700_000);
    assert tagId == 1;
    recorded := sessions.rows;
    skills := tags.rows;
    stored := store.GetOngoingSession();
  }

  /** The first part of that scenario on a fresh controller: both texts
      typed at 0 s, focus mode entered at 0 s and left at 600 s. The
      stopwatch ends paused on the ten focused minutes. */
  method FocusForTenMinutes(vm: FlowViewModel, title: string, skill: string)
    requires vm.ui == DefaultFlowUiState && vm.baseStartTimeMs == None
    requires vm.accumulatedBeforeStartMs == 0
    modifies vm, vm.store
    ensures vm.ui == FlowUiState(title, "", skill, StopwatchState(false, 600_000), false)
    ensures vm.baseStartTimeMs == None && vm.accumulatedBeforeStartMs == 600_000
  {
    vm.OnTitleChange(title, 0);
    vm.OnTagNameChange(skill, 0);
    assert vm.ui == FlowUiState(title, "", skill, StopwatchState(false, 0), false);
    vm.EnterFocusMode(0);
    assert vm.baseStartTimeMs == Some(0) && vm.accumulatedBeforeStartMs == 0;
    assert vm.ui == FlowUiState(title, "", skill, StopwatchState(true, 0), true);
    vm.ExitFocusMode(600_000);
  }

  /** The commit of that scenario: the skill is new, so it is created under
      id 1, and the row lasts the ten banked minutes up to the save. */
  lemma FirstCommitOfNewSkill(title: string, skill: string)
    requires title != [] && !IsWhitespace(title[0]) && !IsWhitespace(title[|title| - 1])
    requires skill != [] && !IsWhitespace(skill[0]) && !IsWhitespace(skill[|skill| - 1])
    ensures GetOrCreate(TagStore([], 1), skill, 700_000) == (Ok(1), TagStore([TagEntity(1, skill, 700_000)], 2))
    ensures CommittedSession(FlowUiState(title, "", skill, StopwatchState(false, 600_000), false), 1, 1, 700_000)
      == SessionEntity(1, title, "", 1, 100_000, 700_000, 600_000, 700_000)
  {
    TrimKeepsUnpadded(title);
    TrimKeepsUnpadded(skill);
    assert FirstTagNamed([], skill) == None;
    assert [] + [TagEntity(1, skill, 700_000)] == [TagEntity(1, skill, 700_000)];
  }

  /** Saving with a blank title records nothing and reports the error,
      whatever skill name was typed. */
  method BlankTitleScenario(skill: string) returns (done: bool, error: Option<string>, recorded: seq<SessionEntity>)
    ensures !done && error == Some(RequiredFieldsError) && recorded == []
  {
    var store := new OngoingSessionDao();
    var tags := new TagTable();
    var sessions := new SessionTable();
    var journeys := new JourneyRepository(tags);
    var repository := new SessionRepository(sessions, tags);
    var vm := new FlowViewModel(store, journeys, repository, 0);
    vm.OnTagNameChange(skill, 0);
    vm.StartOrResume(0);
    ghost var tagId;
    done, tagId := vm.SaveSession(60_000);
    error := vm.error;
    recorded := sessions.rows;
  }

  /** A name is blank exactly when its trimmed form is. */
  lemma BlankIffTrimBlank(s: string)
    ensures IsBlank(Trim(s)) <==> IsBlank(s)
  {
    TrimEmptyIffBlank(s);
    TrimEmptyIffBlank(Trim(s));
    TrimIdempotent(s);
  }
}
