/** The older add-session screen's controller: a stopwatch that counts whole
    seconds by ticks of +1000 ms, and a save that records the session with
    its timestamps (ui/skills/AddSessionViewModel.kt). */
module AddSessionViewModels {
  import opened Wrappers
  import opened LongMath
  import opened Stopwatch
  import opened SessionEntities
  import opened Tables
  import opened JourneyRepositories
  import opened SessionRepositories

  const TickMs := 1000

  /** The row `saveSession` records: the reading clamped at zero as the
      duration, ending at `now` and starting that long before (clamped at
      zero); title and description are taken as typed. */
  function SavedSession(title: string, description: string, tagId: int, sessionId: int,
                        elapsedMs: int, now: int): (s: SessionEntity)
    ensures s.durationMs >= 0 && s.endTime == now && s.createdAt == now && s.startTime >= 0
    ensures elapsedMs >= 0 ==> s.durationMs == elapsedMs
    ensures now >= 0 ==> s.startTime <= s.endTime
    ensures s.durationMs <= now ==> s.endTime - s.startTime == s.durationMs
    ensures s.id == sessionId && s.title == title && s.description == description && s.tagId == tagId
  {
    var durationMs := ClampNonNegative(elapsedMs);
    SessionEntity(sessionId, title, description, tagId, ClampNonNegative(now - durationMs), now, durationMs, now)
  }

  class AddSessionViewModel {
    var stopwatch: StopwatchState
    var timerActive: bool
    var isSaving: bool
    var error: Option<string>
    /** The seconds the timer has counted since the last reset. */
    ghost var seconds: nat
    const tagRepository: JourneyRepository
    const sessionRepository: SessionRepository

    /** The timer runs exactly while the stopwatch runs, and the reading is
        the counted seconds: a whole, non-negative number of seconds. */
    ghost predicate Valid()
      reads this
    {
      timerActive == stopwatch.isRunning && stopwatch.elapsedMs == seconds * TickMs
    }

    constructor(tagRepository: JourneyRepository, sessionRepository: SessionRepository)
      ensures this.tagRepository == tagRepository && this.sessionRepository == sessionRepository
      ensures stopwatch == Stopped && !timerActive && !isSaving && error == None
      ensures Valid()
    {
      this.tagRepository := tagRepository;
      this.sessionRepository := sessionRepository;
      stopwatch := Stopped;
      timerActive := false;
      isSaving := false;
      error := None;
      seconds := 0;
    }

    /** `startOrResumeStopwatch`: nothing when running; otherwise running with
        the reading kept, and the timer started. */
    method StartOrResume()
      modifies this
      ensures old(stopwatch.isRunning) ==> stopwatch == old(stopwatch) && timerActive == old(timerActive)
      ensures !old(stopwatch.isRunning) ==>
        stopwatch == StopwatchState(true, old(stopwatch.elapsedMs)) && timerActive
      ensures isSaving == old(isSaving) && error == old(error)
      ensures old(Valid()) ==> Valid()
    {
      if stopwatch.isRunning {
        return;
      }
      stopwatch := stopwatch.(isRunning := true);
      timerActive := true;
    }

    /** `pauseStopwatch`: nothing when stopped; otherwise stopped with the
        reading kept, and the timer cancelled. */
    method Pause()
      modifies this
      ensures !old(stopwatch.isRunning) ==> stopwatch == old(stopwatch) && timerActive == old(timerActive)
      ensures old(stopwatch.isRunning) ==>
        stopwatch == StopwatchState(false, old(stopwatch.elapsedMs)) && !timerActive
      ensures isSaving == old(isSaving) && error == old(error)
      ensures old(Valid()) ==> Valid()
    {
      if !stopwatch.isRunning {
        return;
      }
      stopwatch := stopwatch.(isRunning := false);
      timerActive := false;
    }

    /** `resetStopwatch`: stopped at zero, the timer cancelled, in any state. */
    method Reset()
      modifies this
      ensures stopwatch == Stopped && !timerActive
      ensures isSaving == old(isSaving) && error == old(error)
      ensures Valid()
    {
      stopwatch := Stopped;
      timerActive := false;
      seconds := 0;
    }

    /** One wake-up of the timer loop: one more second. */
    method Tick()
      requires timerActive
      modifies this
      ensures stopwatch == old(stopwatch).(elapsedMs := old(stopwatch.elapsedMs) + TickMs)
      ensures timerActive && isSaving == old(isSaving) && error == old(error)
      ensures old(Valid()) ==> Valid()
    {
      stopwatch := stopwatch.(elapsedMs := stopwatch.elapsedMs + TickMs);
      seconds := seconds + 1;
    }

    /** The timer loop for `wakeUps` wake-ups: the reading grows by exactly
        one second per wake-up. */
    method RunTimer(wakeUps: nat)
      requires timerActive
      modifies this
      ensures stopwatch == old(stopwatch).(elapsedMs := old(stopwatch.elapsedMs) + wakeUps * TickMs)
      ensures timerActive && isSaving == old(isSaving) && error == old(error)
      ensures old(Valid()) ==> Valid()
    {
      var n := 0;
      while n < wakeUps
        invariant 0 <= n <= wakeUps
        invariant stopwatch == old(stopwatch).(elapsedMs := old(stopwatch.elapsedMs) + n * TickMs)
        invariant timerActive && isSaving == old(isSaving) && error == old(error)
        invariant old(Valid()) ==> Valid()
      {
        Tick();
        n := n + 1;
      }
    }

    /** `saveSession`: find or create the skill; when its name is blank the
        repository's message becomes the error and nothing is recorded;
        otherwise one session is recorded with the reading as duration, the
        stopwatch is reset and the caller is told it is done. */
    method SaveSession(title: string, description: string, tagName: string, now: int)
      returns (done: bool, found: Result<int>)
      requires tagRepository.tagDao.Valid() && sessionRepository.sessionDao.Valid()
      modifies this, tagRepository.tagDao, sessionRepository.sessionDao
      ensures tagRepository.tagDao.Valid() && sessionRepository.sessionDao.Valid()
      ensures done <==> found.Ok?
      ensures found.Err? <==> Text.IsBlank(tagName)
      ensures !isSaving
      ensures found.Err? ==>
        found == Err(EmptyTagNameError) && error == Some(EmptyTagNameError)
        && stopwatch == old(stopwatch) && timerActive == old(timerActive)
        && tagRepository.tagDao.rows == old(tagRepository.tagDao.rows)
        && tagRepository.tagDao.nextId == old(tagRepository.tagDao.nextId)
        && sessionRepository.sessionDao.rows == old(sessionRepository.sessionDao.rows)
      ensures found.Ok? ==>
        (found, TagStore(tagRepository.tagDao.rows, tagRepository.tagDao.nextId))
          == GetOrCreate(TagStore(old(tagRepository.tagDao.rows), old(tagRepository.tagDao.nextId)), tagName, now)
      ensures found.Ok? ==> error == None && stopwatch == Stopped && !timerActive
      ensures found.Ok? ==>
        sessionRepository.sessionDao.rows == old(sessionRepository.sessionDao.rows)
          + [SavedSession(title, description, found.value, old(sessionRepository.sessionDao.nextId),
                          old(stopwatch.elapsedMs), now)]
      ensures old(Valid()) ==> Valid()
    {
      ghost var tags0 := TagStore(tagRepository.tagDao.rows, tagRepository.tagDao.nextId);
      ghost var sessions0, sessionId := sessionRepository.sessionDao.rows, sessionRepository.sessionDao.nextId;
      var elapsedMs := stopwatch.elapsedMs;
      isSaving := true;
      error := None;
      assert TagStore(tagRepository.tagDao.rows, tagRepository.tagDao.nextId) == tags0;
      assert sessionRepository.sessionDao.rows == sessions0 && sessionRepository.sessionDao.nextId == sessionId;
      found := Record(title, description, tagName, elapsedMs, now);
      assert stopwatch == old(stopwatch) && timerActive == old(timerActive) && seconds == old(seconds);
      ghost var tags1, sessions1 := TagStore(tagRepository.tagDao.rows, tagRepository.tagDao.nextId),
                                    sessionRepository.sessionDao.rows;
      ghost var stopwatch1, timerActive1 := stopwatch, timerActive;
      Conclude(found);
      if found.Err? {
        assert stopwatch == stopwatch1 && timerActive == timerActive1;
      }
      assert TagStore(tagRepository.tagDao.rows, tagRepository.tagDao.nextId) == tags1;
      assert sessionRepository.sessionDao.rows == sessions1;
      done := found.Ok?;
    }

    /** The end of `saveSession`: reset and done on success, the message as
        the error on failure, and saving over either way. */
    method Conclude(found: Result<int>)
      modifies this
      ensures !isSaving
      ensures found.Err? ==>
        error == Some(found.message) && stopwatch == old(stopwatch) && timerActive == old(timerActive)
        && seconds == old(seconds)
      ensures found.Ok? ==> error == old(error) && stopwatch == Stopped && !timerActive
      ensures old(Valid()) ==> Valid()
    {
      if found.Ok? {
        Reset();
      } else {
        error := Some(found.message);
      }
      isSaving := false;
    }

    /** The table work of `saveSession`: the skill lookup or insert, then the
        session row when the skill name was accepted. */
    method Record(title: string, description: string, tagName: string, elapsedMs: int, now: int)
      returns (found: Result<int>)
      requires tagRepository.tagDao.Valid() && sessionRepository.sessionDao.Valid()
      modifies tagRepository.tagDao, sessionRepository.sessionDao
      ensures tagRepository.tagDao.Valid() && sessionRepository.sessionDao.Valid()
      ensures (found, TagStore(tagRepository.tagDao.rows, tagRepository.tagDao.nextId))
        == GetOrCreate(TagStore(old(tagRepository.tagDao.rows), old(tagRepository.tagDao.nextId)), tagName, now)
      ensures found.Err? <==> Text.IsBlank(tagName)
      ensures found.Err? ==>
        found == Err(EmptyTagNameError)
        && tagRepository.tagDao.rows == old(tagRepository.tagDao.rows)
        && tagRepository.tagDao.nextId == old(tagRepository.tagDao.nextId)
        && sessionRepository.sessionDao.rows == old(sessionRepository.sessionDao.rows)
      ensures found.Ok? ==>
        sessionRepository.sessionDao.rows == old(sessionRepository.sessionDao.rows)
          + [SavedSession(title, description, found.value, old(sessionRepository.sessionDao.nextId),
                          elapsedMs, now)]
    {
      found := tagRepository.GetOrCreateTagId(tagName, now);
      if found.Err? {
        return;
      }
      var row := SavedSession(title, description, found.value, sessionRepository.sessionDao.nextId,
                              elapsedMs, now);
      var _ := sessionRepository.AddSession(row.title, row.description, row.tagId,
                                            row.startTime, row.endTime, row.durationMs, now);
    }
  }

  /** A valid reading is a whole, non-negative number of seconds. */
  lemma WholeSeconds(vm: AddSessionViewModel)
    requires vm.Valid()
    ensures vm.stopwatch.elapsedMs >= 0 && vm.stopwatch.elapsedMs % TickMs == 0
  {
  }

  /** Start, three wake-ups, pause, two more starts and a wake-up: four
      seconds, and the second start while running changes nothing. */
  method TickScenario() returns (reading: StopwatchState)
    ensures reading == StopwatchState(true, 4000)
  {
    var tags := new TagTable();
    var sessions := new SessionTable();
    var journeys := new JourneyRepository(tags);
    var repository := new SessionRepository(sessions, tags);
    var vm := new AddSessionViewModel(journeys, repository);
    vm.StartOrResume();
    vm.RunTimer(3);
    vm.Pause();
    vm.StartOrResume();
    vm.StartOrResume();
    vm.Tick();
    reading := vm.stopwatch;
  }
}
