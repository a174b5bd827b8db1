# Skillz — a verified model of the focus-session engine

Skillz is an Android app for logging time spent practising skills. A user
runs a stopwatch for a session, names the skill and a title, and saves it.
Saved sessions are scored, listed and filtered by skill and by a score
window (24 hours, 7 days, 30 days, all time). While "focus mode" is on, the
running stopwatch is mirrored into a foreground notification, and its state
is persisted so that it survives a process restart.

This Dafny project models that core:

- **Scoring** (`ScoreCalculator`, `ScoreFilters`, `SessionEntities`): the
  points a session earns, the score windows, and window membership.
- **Persistence** (`Tables`, `OngoingSessions`, `JourneyRepositories`,
  `SessionRepositories`): the tag and session tables, the single-row
  ongoing-session record, get-or-create of a skill by trimmed name, and
  deleting a session together with a tag that no longer has sessions.
  These are classes whose methods update rows in place.
- **The persisted stopwatch** (`Stopwatch`, `FlowViewModels`): the
  controller behind the focus screen. It covers start, pause, reset, the
  ticker, focus mode, restore after restart, and commit.
- **The notification mirror** (`AliveFlowServices`,
  `AliveFlowNotifications`): the elapsed time the service recomputes and
  the notification it builds.
- **List screens** (`ListStates`, `StoryViewModels`, `SkillListViewModels`,
  `LegacySkillLists`, `SkillzListScreens`): the three list controllers
  reduce the session and tag streams to a UI state. The session list
  screen chooses its body, its total-time card, its filter chips, its
  expanded rows and its description editor.
- **The older add-session screen** (`AddSessionViewModels`,
  `AddSkillScreens`) and the **focus screen** (`FocusOnScreens`). The
  clock text and the Reset enablement that both screens share live in
  `StopwatchSections`.
- **Shared pieces** (`Wrappers`, `LongMath`, `Text`, `TimeFormat`,
  `SessionLists`): Kotlin's truncating `Long` division, `trim`/`isBlank`,
  the duration and clock formats (proved to read back as the seconds they
  show), and order-preserving `filter`.

The wall clock is a parameter `now` of every operation that reads it.
Coroutines run synchronously, in program order. Where the app reads
`System.currentTimeMillis()` twice in one operation, the model uses the
same `now` for both reads.

Some source files that the modelled code calls are not part of this model:
`FocusOnViewModel`, `FlowRepository`, `TagRepository`,
`AliveFlowRepository`, `FlowListUiState`, `FlowListItemUiModel` and
`ScoreCalculator.sessionScore`. They are handled as follows:

- The focus screen is modelled over `FlowViewModel`, whose
  `isInFlowMode` is the screen's `isInFocusMode`.
- The add-session screen reads `uiState` fields that
  `AddSessionViewModel.kt` does not declare. It is modelled over that
  view model's stopwatch, with title, skill name and saving flag as
  parameters.
- `FlowRepository` (used by `FlowViewModel`, `StoryViewModel`) is
  modelled by `SessionRepositories.SessionRepository`, the class of
  SessionRepository.kt. The model assumes its `addSession`,
  `getAllSessions` and `deleteSessionAndCleanupTag` behave as that class's
  members do (SessionRepository.kt:14-50). An insert appends the row
  under a fresh id. A delete removes the session, then removes its tag
  once no session carries it, and returns that tag's id.
- `TagRepository` (used by `AddSessionViewModel` and both skill-list view
  models) is modelled by `JourneyRepositories.JourneyRepository`, the
  class of JourneyRepository.kt. The model assumes its `getOrCreateTagId`
  behaves as JourneyRepository.kt:15-23 does: it trims the name and fails
  with "Tag name cannot be empty" when the trimmed name is empty.
  Otherwise it returns the id of the first tag with that name, or inserts
  one. `AddSessionViewModels.AddSessionViewModel.SaveSession`'s error case
  and message rest on this assumption.
- `AliveFlowRepository` (used by `FlowViewModel`) is modelled by
  `OngoingSessions.OngoingSessionDao`, the interface of
  data/model/dao/OngoingSessionDao.kt. The model assumes
  `getOngoingSession`, `saveOngoingSession` and `clearOngoingSession`
  behave as that interface's `getOngoingSession`, `upsert` and `clear`
  do on its single row with id 1.
- Story rows carry the fields `StoryViewModel.kt` fills in, lines 91-99
  and 157-167. A row's score is the breakdown total of its duration.

`FlowViewModel.saveSession` records the cached `stopwatch.elapsedMs`
(FlowViewModel.kt:248), not a fresh reading of the clock.
`FlowViewModels.CachedReadingExactWhenPaused` states that the two agree
whenever the stopwatch is paused.

All paths below are relative to the repository root.

## Model

| member | source | states |
|---|---|---|
| LongMath.KDiv | app/src/main/java/com/kingkharnivore/skillz/utils/TimeUtils.kt:4 | Kotlin's truncating `Long` division: the mathematical quotient for a non-negative dividend |
| LongMath.KRem | app/src/main/java/com/kingkharnivore/skillz/utils/TimeUtils.kt:7 | Kotlin's `%`: the mathematical remainder for a non-negative dividend |
| LongMath.NegativeQuotientAndRemainder | app/src/main/java/com/kingkharnivore/skillz/utils/TimeUtils.kt:4-7 | for a negative dividend the quotient is at most 0 and the remainder lies in (-b, 0] |
| LongMath.ClampNonNegative | app/src/main/java/com/kingkharnivore/skillz/ui/viewmodel/FlowViewModel.kt:248 | `coerceAtLeast(0L)`: never negative, never below the input, the input itself when non-negative |
| Text.TrimIsInnerSlice | app/src/main/java/com/kingkharnivore/skillz/data/repository/JourneyRepository.kt:16 | the trimmed name is a slice of the name that neither starts nor ends with whitespace |
| Text.TrimEmptyIffBlank | app/src/main/java/com/kingkharnivore/skillz/data/repository/JourneyRepository.kt:16-17 | the trimmed name is empty exactly when the name is blank |
| Text.TrimIdempotent | app/src/main/java/com/kingkharnivore/skillz/data/repository/JourneyRepository.kt:16 | trimming twice is trimming once |
| Text.TrimKeepsUnpadded | app/src/main/java/com/kingkharnivore/skillz/data/repository/JourneyRepository.kt:16 | a non-empty name with no outer whitespace trims to itself and is not blank |
| Text.IsWhitespace | app/src/main/java/com/kingkharnivore/skillz/data/repository/JourneyRepository.kt:16 | space, tab, newline and carriage return are whitespace; a digit is not |
| Text.IsBlank | app/src/main/java/com/kingkharnivore/skillz/ui/viewmodel/FlowViewModel.kt:237 | the empty text is blank; a blank text holds no digit |
| Text.Trim | app/src/main/java/com/kingkharnivore/skillz/data/repository/JourneyRepository.kt:16 | the trimmed text is no longer than the input and, when non-empty, neither starts nor ends with whitespace |
| FlowViewModels.BlankIffTrimBlank | app/src/main/java/com/kingkharnivore/skillz/ui/viewmodel/FlowViewModel.kt:237-247 | a skill name is blank exactly when its trimmed form is, so the repository's blank check never fires after the screen's |
| ScoreFilters.Ordinal | app/src/main/java/com/kingkharnivore/skillz/utils/score/ScoreFilter.kt:7-10 | each filter's position in declaration order (24 h, 7 d, 30 d, all time) is the position at which `values()` lists it |
| ScoreFilters.DurationMs | app/src/main/java/com/kingkharnivore/skillz/utils/score/ScoreFilter.kt:5-10 | only all time has no window; every window is at least 24 hours and a whole number of days |
| ScoreFilters.Label | app/src/main/java/com/kingkharnivore/skillz/utils/score/ScoreFilter.kt:4-10 | a non-empty label, starting "Last" exactly for the bounded windows |
| ScoreFilters.WindowLengths | app/src/main/java/com/kingkharnivore/skillz/utils/score/ScoreFilter.kt:7-9 | the windows last 86,400,000, 604,800,000 and 2,592,000,000 ms |
| ScoreFilters.OnlyAllTimeIsUnbounded | app/src/main/java/com/kingkharnivore/skillz/utils/score/ScoreFilter.kt:7-10 | a filter has no window length exactly when it is all time |
| ScoreFilters.ValuesListEachOnce | app/src/main/java/com/kingkharnivore/skillz/utils/score/ScoreFilter.kt:7-10 | `values()` lists every filter exactly once |
| ScoreFilters.WindowsGrowInOrder | app/src/main/java/com/kingkharnivore/skillz/utils/score/ScoreFilter.kt:7-10 | window lengths strictly increase in declaration order, and all time comes last |
| ScoreCalculator.WholeMinutes | app/src/main/java/com/kingkharnivore/skillz/utils/score/ScoreCalculator.kt:10-12 | whole minutes are never negative, bracket a non-negative duration, and are 0 below one minute |
| ScoreCalculator.BreakdownFromDuration | app/src/main/java/com/kingkharnivore/skillz/utils/score/ScoreCalculator.kt:9-34 | base points equal the minutes; each bonus count is the minutes divided by 10, 30 or 60; the total is base + 5·ten + 15·thirty + 50·sixty, between the minutes and three times them, and every field is 0 below one minute (negative readings included) |
| ScoreCalculator.SessionPoints | app/src/main/java/com/kingkharnivore/skillz/utils/score/ScoreCalculator.kt:36-39 | a session earns non-negative points, none exactly when it lasts under a minute, and at least one per whole minute |
| ScoreCalculator.TotalScoreForSessions | app/src/main/java/com/kingkharnivore/skillz/utils/score/ScoreCalculator.kt:36-40 | the sum of per-session totals: never negative, and 0 for no sessions |
| ScoreCalculator.TenMinutePoints | app/src/main/java/com/kingkharnivore/skillz/utils/score/ScoreCalculator.kt:16-24 | ten minutes earn one ten-minute bonus and 15 points |
| ScoreCalculator.WholeMinuteBreakdown | app/src/main/java/com/kingkharnivore/skillz/utils/score/ScoreCalculator.kt:10-24 | a whole number of minutes m gives the breakdown (m, m, m/10, m/30, m/60, m + 5(m/10) + 15(m/30) + 50(m/60)) |
| ScoreCalculator.OneHourPoints | app/src/main/java/com/kingkharnivore/skillz/utils/score/ScoreCalculator.kt:16-24 | one hour earns 6, 2 and 1 bonuses and 170 points |
| ScoreCalculator.WholeMinutesExact | app/src/main/java/com/kingkharnivore/skillz/utils/score/ScoreCalculator.kt:10-12 | a whole number of minutes reads back as that number |
| ScoreCalculator.SecondsEarnNothing | app/src/main/java/com/kingkharnivore/skillz/utils/score/ScoreCalculator.kt:10-12 | milliseconds past a whole minute change nothing in the breakdown |
| ScoreCalculator.WholeMinutesMonotone | app/src/main/java/com/kingkharnivore/skillz/utils/score/ScoreCalculator.kt:10-12 | whole minutes never decrease as the duration grows |
| ScoreCalculator.BonusCountsMonotone | app/src/main/java/com/kingkharnivore/skillz/utils/score/ScoreCalculator.kt:16-18 | bonus counts never decrease as the minutes grow |
| ScoreCalculator.PointsMonotone | app/src/main/java/com/kingkharnivore/skillz/utils/score/ScoreCalculator.kt:9-33 | total points never decrease as the duration grows |
| ScoreCalculator.TotalScoreAdditive | app/src/main/java/com/kingkharnivore/skillz/utils/score/ScoreCalculator.kt:36-40 | the score of two concatenated lists is the sum of their scores |
| ScoreCalculator.ZeroScoreIffNoWholeMinute | app/src/main/java/com/kingkharnivore/skillz/utils/score/ScoreCalculator.kt:36-40 | a list scores zero exactly when none of its sessions lasts a whole minute |
| ScoreCalculator.SplitSessionsScoreLess | app/src/main/java/com/kingkharnivore/skillz/utils/score/ScoreCalculator.kt:37-39 | sessions of 55 and 5 minutes score 100, while one 60-minute session scores 170 |
| SessionEntities.DefaultListState | app/src/main/java/com/kingkharnivore/skillz/data/model/entity/SessionEntity.kt:50-59 | the default list state is loading, empty, with nothing selected, total 0, score 0, no error, last 7 days |
| SessionEntities.IsInScoreWindow | app/src/main/java/com/kingkharnivore/skillz/data/model/entity/SessionEntity.kt:33-48 | all time admits every session; a bounded window admits a session exactly when it was created no longer ago than the window |
| SessionEntities.WindowMembership | app/src/main/java/com/kingkharnivore/skillz/data/model/entity/SessionEntity.kt:33-48 | all time holds every session; a timed window holds a session exactly when `createdAt >= now - length`, with an inclusive boundary |
| SessionEntities.WindowDependsOnlyOnCreatedAt | app/src/main/java/com/kingkharnivore/skillz/data/model/entity/SessionEntity.kt:47 | membership depends only on `createdAt` |
| SessionEntities.WindowsNest | app/src/main/java/com/kingkharnivore/skillz/data/model/entity/SessionEntity.kt:41-47 | a session in a window is in every wider window |
| SessionEntities.ThreeSessionsScenario | app/src/main/java/com/kingkharnivore/skillz/data/model/entity/SessionEntity.kt:33-48 | for sessions 1 h, 10 d and 40 d old: 24 h holds the first, 7 d the first, 30 d the first two, all time all three |
| SessionLists.Filter | app/src/main/java/com/kingkharnivore/skillz/ui/viewmodel/StoryViewModel.kt:129-131 | Kotlin `filter`: keeps exactly the elements that pass, in order, as a subsequence |
| SessionLists.FilterAppendOne | app/src/main/java/com/kingkharnivore/skillz/ui/viewmodel/SkillListViewModel.kt:136-142 | filtering a list with one more element appends that element exactly when it passes |
| SessionLists.FilterKeepsKeysDistinct | app/src/main/java/com/kingkharnivore/skillz/data/repository/SessionRepository.kt:42 | removing rows keeps primary keys distinct |
| SessionLists.ByOptionalTag | app/src/main/java/com/kingkharnivore/skillz/ui/viewmodel/StoryViewModel.kt:129-131 | no selection keeps every session; a selection keeps exactly that tag's sessions, in order |
| SessionLists.InWindow | app/src/main/java/com/kingkharnivore/skillz/ui/viewmodel/SkillListViewModel.kt:136-142 | exactly the sessions inside the window, in order |
| SessionLists.TotalDurationAdditive | app/src/main/java/com/kingkharnivore/skillz/ui/viewmodel/StoryViewModel.kt:154 | `sumOf { durationMs }` is additive over concatenation |
| SessionLists.SubsequenceDurationBounded | app/src/main/java/com/kingkharnivore/skillz/ui/viewmodel/SkillListViewModel.kt:128-133 | with non-negative durations, a subsequence's total lies between 0 and the whole list's |
| TimeFormat.SplitSeconds | app/src/main/java/com/kingkharnivore/skillz/utils/TimeUtils.kt:4-7 | for non-negative seconds, minutes and seconds lie in [0,60) and hours·3600 + minutes·60 + seconds is the input |
| TimeFormat.SplitNegativeSeconds | app/src/main/java/com/kingkharnivore/skillz/utils/TimeUtils.kt:4-7 | with truncating division a negative count has no positive part |
| TimeFormat.FormatDuration | app/src/main/java/com/kingkharnivore/skillz/utils/TimeUtils.kt:3-14 | the text always ends in the seconds field " sec" |
| TimeFormat.FormatClock | app/src/main/java/com/kingkharnivore/skillz/ui/notification/AliveFlowNotificationFactory.kt:145-154 | the clock text is a single line |
| TimeFormat.FormatClockReadsBack | app/src/main/java/com/kingkharnivore/skillz/ui/notification/AliveFlowNotificationFactory.kt:145-154 | the clock text has three fields from one hour on and two below; the fields read back as the seconds, each after the first below 60 |
| TimeFormat.FormatDurationReadsBack | app/src/main/java/com/kingkharnivore/skillz/utils/TimeUtils.kt:3-14 | "H hr MM min SS sec" from one hour, "M min SS sec" from one minute, else "S sec"; the numbers read back as `durationMs / 1000` |
| TimeFormat.NegativeDurationShowsSecondsOnly | app/src/main/java/com/kingkharnivore/skillz/utils/TimeUtils.kt:9-13 | a negative duration falls through to the seconds-only text with a non-positive count |
| OngoingSessions.ReadOngoing | app/src/main/java/com/kingkharnivore/skillz/data/model/dao/OngoingSessionDao.kt:12-13 | the read finds the row under key 1 and nothing else |
| OngoingSessions.ReadAfterUpsert | app/src/main/java/com/kingkharnivore/skillz/data/model/dao/OngoingSessionDao.kt:12-16 | upserting an entity with id 1 and reading returns it unchanged; other keys do not affect the read; rows stay under their own key |
| OngoingSessions.ReadAfterClear | app/src/main/java/com/kingkharnivore/skillz/data/model/dao/OngoingSessionDao.kt:18-19 | after clear the read finds nothing, other rows survive, and a second clear changes nothing |
| OngoingSessions.OngoingSessionDao.GetOngoingSession | app/src/main/java/com/kingkharnivore/skillz/data/model/dao/OngoingSessionDao.kt:12-13 | the key-1 row or nothing |
| OngoingSessions.OngoingSessionDao.Upsert | app/src/main/java/com/kingkharnivore/skillz/data/model/dao/OngoingSessionDao.kt:15-16 | the entity replaces whatever was under its key |
| OngoingSessions.OngoingSessionDao.Clear | app/src/main/java/com/kingkharnivore/skillz/data/model/dao/OngoingSessionDao.kt:18-19 | the key-1 row is removed and nothing else |
| Tables.FirstTagNamed | app/src/main/java/com/kingkharnivore/skillz/data/model/dao/TagDao.kt:16-17 | the first row with that name, or nothing exactly when no row has it |
| Tables.SessionWithId | app/src/main/java/com/kingkharnivore/skillz/data/model/dao/SessionDao.kt:37-38 | a row with that id, or nothing exactly when no row has it |
| Tables.CountWithTag | app/src/main/java/com/kingkharnivore/skillz/data/model/dao/SessionDao.kt:41-42 | the count is 0 exactly when no row carries the tag |
| Tables.TagTable.GetTagByName | app/src/main/java/com/kingkharnivore/skillz/data/model/dao/TagDao.kt:16-17 | the lookup loop returns the first row with that name |
| Tables.TagTable.InsertTag | app/src/main/java/com/kingkharnivore/skillz/data/model/dao/TagDao.kt:13-14 | one row appended under the next id, which is returned |
| Tables.TagTable.DeleteTagById | app/src/main/java/com/kingkharnivore/skillz/data/model/dao/TagDao.kt:22-23 | exactly the rows with that id are removed |
| Tables.SessionTable.InsertSession | app/src/main/java/com/kingkharnivore/skillz/data/model/dao/SessionDao.kt:13-14 | one row appended under the next id with the given fields |
| Tables.SessionTable.GetSessionById | app/src/main/java/com/kingkharnivore/skillz/data/model/dao/SessionDao.kt:37-38 | the lookup loop agrees with `SessionWithId` |
| Tables.SessionTable.GetSessionCountForTag | app/src/main/java/com/kingkharnivore/skillz/data/model/dao/SessionDao.kt:41-42 | the counting loop agrees with `CountWithTag` |
| Tables.SessionTable.DeleteSessionById | app/src/main/java/com/kingkharnivore/skillz/data/model/dao/SessionDao.kt:33-34 | exactly the rows with that id are removed |
| JourneyRepositories.GetOrCreate | app/src/main/java/com/kingkharnivore/skillz/data/repository/JourneyRepository.kt:15-23 | a blank name fails with the table unchanged; otherwise the trimmed name's first tag is reused, or exactly one tag with the trimmed name is appended under the next id |
| JourneyRepositories.FirstTagNamedAfterAppend | app/src/main/java/com/kingkharnivore/skillz/data/repository/JourneyRepository.kt:19-22 | a tag appended under a new name is what the next lookup finds |
| JourneyRepositories.GetOrCreateTwice | app/src/main/java/com/kingkharnivore/skillz/data/repository/JourneyRepository.kt:15-23 | two calls with names that trim alike return the same id and add at most one tag |
| JourneyRepositories.JourneyRepository.GetOrCreateTagId | app/src/main/java/com/kingkharnivore/skillz/data/repository/JourneyRepository.kt:15-23 | the table method's answer and new table are those of `GetOrCreate` |
| SessionRepositories.DeleteAndCleanup | app/src/main/java/com/kingkharnivore/skillz/data/repository/SessionRepository.kt:39-50 | an unknown id changes nothing; a known one removes exactly that session; its tag is deleted and returned exactly when no session still uses it |
| SessionRepositories.DeleteTwice | app/src/main/java/com/kingkharnivore/skillz/data/repository/SessionRepository.kt:40 | deleting the same id again changes nothing |
| SessionRepositories.SessionRepository.AddSession | app/src/main/java/com/kingkharnivore/skillz/data/repository/SessionRepository.kt:20-37 | exactly one row with the given title, description, tag, times and duration is appended |
| SessionRepositories.SessionRepository.DeleteSessionAndCleanupTag | app/src/main/java/com/kingkharnivore/skillz/data/repository/SessionRepository.kt:39-50 | the tables and the answer are those of `DeleteAndCleanup` |
| Stopwatch.LiveElapsed | app/src/main/java/com/kingkharnivore/skillz/ui/viewmodel/FlowViewModel.kt:172-178 | banked time while stopped or without a run start; banked time plus the clamped time since the start while running; never below the banked time |
| Stopwatch.FoldRun | app/src/main/java/com/kingkharnivore/skillz/ui/viewmodel/FlowViewModel.kt:138-152 | pausing banks exactly the reading at the pause instant |
| Stopwatch.LiveElapsedMonotone | app/src/main/java/com/kingkharnivore/skillz/ui/viewmodel/FlowViewModel.kt:172-178 | the reading never goes backwards as the clock advances |
| Stopwatch.PauseFreezes | app/src/main/java/com/kingkharnivore/skillz/ui/viewmodel/FlowViewModel.kt:135-155 | after a pause the reading is the same at every later instant |
| Stopwatch.TwoRunsAdd | app/src/main/java/com/kingkharnivore/skillz/ui/viewmodel/FlowViewModel.kt:123-155 | two runs separated by a pause add up, and the gap is not counted |
| Stopwatch.ResumeScenario | app/src/main/java/com/kingkharnivore/skillz/ui/viewmodel/FlowViewModel.kt:123-184 | start at 0, pause at 125 s, resume at 200 s, read at 260 s: 185 s |
| FlowViewModels.RestoredStopwatch | app/src/main/java/com/kingkharnivore/skillz/ui/viewmodel/FlowViewModel.kt:79-80 | a restored stopwatch keeps the record's running flag and never reads below its banked time, exactly that when paused |
| FlowViewModels.PausedRestoreIsTimeless | app/src/main/java/com/kingkharnivore/skillz/ui/viewmodel/FlowViewModel.kt:72-104 | a paused record restores to the same reading whenever it is read |
| FlowViewModels.RunningRestoreCountsDowntime | app/src/main/java/com/kingkharnivore/skillz/ui/viewmodel/FlowViewModel.kt:72-104 | a running record restores to banked time plus the time since its run start |
| FlowViewModels.FlowViewModel.Snapshot | app/src/main/java/com/kingkharnivore/skillz/ui/viewmodel/FlowViewModel.kt:211-226 | the record written always has id 1 and the current fields, run start and banked time |
| FlowViewModels.FlowViewModel.constructor | app/src/main/java/com/kingkharnivore/skillz/ui/viewmodel/FlowViewModel.kt:72-104 | a stored record is copied verbatim and its reading rebuilt at `now`; with none, the defaults |
| FlowViewModels.FlowViewModel.SaveOngoing | app/src/main/java/com/kingkharnivore/skillz/ui/viewmodel/FlowViewModel.kt:211-226 | the key-1 row becomes the snapshot |
| FlowViewModels.FlowViewModel.OnTitleChange | app/src/main/java/com/kingkharnivore/skillz/ui/viewmodel/FlowViewModel.kt:106-109 | only the title changes, then the snapshot is written |
| FlowViewModels.FlowViewModel.OnDescriptionChange | app/src/main/java/com/kingkharnivore/skillz/ui/viewmodel/FlowViewModel.kt:111-114 | only the description changes, then the snapshot is written |
| FlowViewModels.FlowViewModel.OnTagNameChange | app/src/main/java/com/kingkharnivore/skillz/ui/viewmodel/FlowViewModel.kt:116-119 | only the skill name changes, then the snapshot is written |
| FlowViewModels.FlowViewModel.StartOrResume | app/src/main/java/com/kingkharnivore/skillz/ui/viewmodel/FlowViewModel.kt:123-133 | nothing when running; otherwise the run starts at `now`, banked time is kept, the ticker starts and the snapshot is written |
| FlowViewModels.FlowViewModel.Pause | app/src/main/java/com/kingkharnivore/skillz/ui/viewmodel/FlowViewModel.kt:135-155 | nothing when stopped (so a second pause is a no-op); otherwise the clamped run time is banked, the run start cleared, the reading set to the banked time |
| FlowViewModels.FlowViewModel.Reset | app/src/main/java/com/kingkharnivore/skillz/ui/viewmodel/FlowViewModel.kt:157-165 | always stopped at zero with nothing banked; title, skill, description and focus flag unchanged |
| FlowViewModels.FlowViewModel.Tick | app/src/main/java/com/kingkharnivore/skillz/ui/viewmodel/FlowViewModel.kt:167-184 | the cached reading becomes the live reading at `now`; nothing is written |
| FlowViewModels.FlowViewModel.RunTicker | app/src/main/java/com/kingkharnivore/skillz/ui/viewmodel/FlowViewModel.kt:167-184 | the reading shown after each wake-up is the live value at that instant; over sorted wake-ups the readings never decrease; the last one is left on screen; every other field is kept |
| FlowViewModels.FlowViewModel.EnterFocusMode | app/src/main/java/com/kingkharnivore/skillz/ui/viewmodel/FlowViewModel.kt:192-199 | starts the stopwatch if stopped, sets the focus flag, writes the snapshot and starts the mirror |
| FlowViewModels.FlowViewModel.ExitFocusMode | app/src/main/java/com/kingkharnivore/skillz/ui/viewmodel/FlowViewModel.kt:201-208 | pauses if running, clears the focus flag, writes the snapshot and stops the mirror |
| FlowViewModels.FlowViewModel.SaveSession | app/src/main/java/com/kingkharnivore/skillz/ui/viewmodel/FlowViewModel.kt:235-272 | a blank title or skill only sets "Title and Skill are required"; otherwise the skill is found or created by trimmed name, one row with the clamped cached reading is recorded, and the controller returns to its defaults with the record cleared |
| FlowViewModels.FlowViewModel.ReturnToInitial | app/src/main/java/com/kingkharnivore/skillz/ui/viewmodel/FlowViewModel.kt:261-264 | reset, default screen state, record cleared, mirror stopped |
| FlowViewModels.FlowViewModel.RecordSession | app/src/main/java/com/kingkharnivore/skillz/ui/viewmodel/FlowViewModel.kt:247-259 | the trimmed skill is found or created and exactly one committed row appended |
| FlowViewModels.FlowViewModel.FileUnderSkill | app/src/main/java/com/kingkharnivore/skillz/ui/viewmodel/FlowViewModel.kt:247 | a non-blank skill name is always accepted; the tag table changes as get-or-create of the trimmed name says |
| FlowViewModels.FlowViewModel.AppendRow | app/src/main/java/com/kingkharnivore/skillz/ui/viewmodel/FlowViewModel.kt:249-259 | the session table gains exactly the committed row, at its end |
| FlowViewModels.CommittedSession | app/src/main/java/com/kingkharnivore/skillz/ui/viewmodel/FlowViewModel.kt:248-259 | the row carries the trimmed title and description, the skill and the id; it lasts the clamped reading, ends and is created at `now`, and starts no later, that long before when the clock allows |
| FlowViewModels.FirstCommitOfNewSkill | app/src/main/java/com/kingkharnivore/skillz/ui/viewmodel/FlowViewModel.kt:247-259 | on an empty tag table a trimmed skill name becomes tag 1, and a 600 s reading saved at 700 s becomes the row from 100 s to 700 s under it |
| FlowViewModels.SnapshotIsConsistent | app/src/main/java/com/kingkharnivore/skillz/ui/viewmodel/FlowViewModel.kt:211-226 | a valid controller writes a record with a run start exactly while running and non-negative banked time |
| FlowViewModels.CachedReadingExactWhenPaused | app/src/main/java/com/kingkharnivore/skillz/ui/viewmodel/FlowViewModel.kt:248 | while paused, the cached reading the commit uses is the exact elapsed time |
| FlowViewModels.PauseResumeScenario | app/src/main/java/com/kingkharnivore/skillz/ui/viewmodel/FlowViewModel.kt:123-184 | start 0, pause 125 s, resume 200 s, tick 260 s: reading 185 s, record with 125 s banked and run start 200 s |
| FlowViewModels.FocusAndSaveScenario | app/src/main/java/com/kingkharnivore/skillz/ui/viewmodel/FlowViewModel.kt:192-272 | focus from 0 s, exit at 600 s, save at 700 s: one 600 s session from 100 s to 700 s under new skill 1, and the controller back at its defaults |
| FlowViewModels.FocusForTenMinutes | app/src/main/java/com/kingkharnivore/skillz/ui/viewmodel/FlowViewModel.kt:192-208 | typing both texts, entering focus at 0 s and leaving it at 600 s leaves the stopwatch paused on 600 s with the texts kept and focus off |
| FlowViewModels.BlankTitleScenario | app/src/main/java/com/kingkharnivore/skillz/ui/viewmodel/FlowViewModel.kt:236-240 | for any skill name, a blank title only sets the required-fields error and records nothing |
| AliveFlowServices.ComputeElapsed | app/src/main/java/com/kingkharnivore/skillz/ui/service/AliveFlowService.kt:61-69 | banked time when stopped or without a run start; otherwise banked time plus the clamped time since the start, so never below the banked time |
| AliveFlowServices.OnRecord | app/src/main/java/com/kingkharnivore/skillz/ui/service/AliveFlowService.kt:31-53 | stop exactly when there is no record or the focus flag is off; otherwise render the notification for the computed reading |
| AliveFlowServices.ComputeElapsedMatchesController | app/src/main/java/com/kingkharnivore/skillz/ui/service/AliveFlowService.kt:61-69 | the mirror computes the same reading as the controller's ticker and restore |
| AliveFlowServices.MirrorShowsControllerReading | app/src/main/java/com/kingkharnivore/skillz/ui/service/AliveFlowService.kt:39 | for a valid controller's record the mirror shows at least the banked time, and exactly the controller's reading while paused |
| AliveFlowServices.TrueStartBranchesAgree | app/src/main/java/com/kingkharnivore/skillz/ui/notification/AliveFlowNotificationFactory.kt:69-74 | for a running record, `base - acc` equals `now - elapsed` |
| AliveFlowNotifications.ElapsedSeconds | app/src/main/java/com/kingkharnivore/skillz/ui/notification/AliveFlowNotificationFactory.kt:66 | whole seconds, never negative, 0 below one second |
| AliveFlowNotifications.TrueStartTimeMs | app/src/main/java/com/kingkharnivore/skillz/ui/notification/AliveFlowNotificationFactory.kt:69-74 | `base - acc` with a run start, else `now - elapsed` |
| AliveFlowNotifications.OrFallback | app/src/main/java/com/kingkharnivore/skillz/ui/notification/AliveFlowNotificationFactory.kt:78-79 | the text itself unless blank, else the fallback |
| AliveFlowNotifications.Status | app/src/main/java/com/kingkharnivore/skillz/ui/notification/AliveFlowNotificationFactory.kt:80 | "Alive • Running" exactly while running, else "Alive • Paused" |
| AliveFlowNotifications.Line2 | app/src/main/java/com/kingkharnivore/skillz/ui/notification/AliveFlowNotificationFactory.kt:81-83 | the line starts with the status and is a single line whenever the start-time text is |
| AliveFlowNotifications.BigText | app/src/main/java/com/kingkharnivore/skillz/ui/notification/AliveFlowNotificationFactory.kt:85-93 | the text starts with the skill and ends with a line break and the second line |
| AliveFlowNotifications.LabelsAreOneLine | app/src/main/java/com/kingkharnivore/skillz/ui/notification/AliveFlowNotificationFactory.kt:79-83 | the fixed labels and the fallback skill hold no line break |
| AliveFlowNotifications.NotificationText | app/src/main/java/com/kingkharnivore/skillz/ui/notification/AliveFlowNotificationFactory.kt:78-93 | the expanded text reads as the skill line, the trimmed description line when it is not blank, and the second line; paused, that line reads back as the whole seconds |
| AliveFlowNotifications.BuildNotification | app/src/main/java/com/kingkharnivore/skillz/ui/notification/AliveFlowNotificationFactory.kt:60-138 | never a blank title; a blank title becomes "Flow in progress"; the second line is `Line2` of the running flag, the reading and the start time; the expanded text is `BigText` of the skill (or "Unassigned Skill"), the description and that line; time shown and chronometer exactly while running; `when` is `now - elapsed` |
| AliveFlowNotifications.PausedLineReadsBack | app/src/main/java/com/kingkharnivore/skillz/ui/notification/AliveFlowNotificationFactory.kt:81-83 | the paused line starts with the status and its numbers read back as the whole seconds |
| AliveFlowNotifications.BigTextLines | app/src/main/java/com/kingkharnivore/skillz/ui/notification/AliveFlowNotificationFactory.kt:85-93 | the expanded text is the skill line, the trimmed description only when not blank, then the second line |
| ListStates.TagNameById | app/src/main/java/com/kingkharnivore/skillz/ui/viewmodel/StoryViewModel.kt:86-88 | nothing exactly when no tag has the id; otherwise the name of the last tag listed with it |
| ListStates.UniqueTagName | app/src/main/java/com/kingkharnivore/skillz/ui/viewmodel/StoryViewModel.kt:86-95 | with distinct tag ids the lookup finds exactly that tag's name |
| ListStates.TagUiModels | app/src/main/java/com/kingkharnivore/skillz/ui/viewmodel/StoryViewModel.kt:103-110 | one chip model per tag with its id and name, same order |
| ListStates.ListItems | app/src/main/java/com/kingkharnivore/skillz/ui/viewmodel/SkillListViewModel.kt:83-100 | one row per session, fields copied, skill name from the lookup or empty |
| ListStates.SelectionAfterDelete | app/src/main/java/com/kingkharnivore/skillz/ui/viewmodel/StoryViewModel.kt:187-189 | the selection goes back to "All" exactly when the removed tag is the selected one; it is otherwise kept |
| ListStates.SelectionNeverOrphaned | app/src/main/java/com/kingkharnivore/skillz/ui/viewmodel/StoryViewModel.kt:180-196 | after a delete the selection is "All" or some remaining session still carries the selected tag |
| ListStates.SameIdSameSession | app/src/main/java/com/kingkharnivore/skillz/data/model/entity/SessionEntity.kt:23 | under distinct primary keys, one id means one session |
| StoryViewModels.AvailableFilters | app/src/main/java/com/kingkharnivore/skillz/ui/viewmodel/StoryViewModel.kt:133-138 | all time is offered exactly when the tag-filtered list is non-empty; a timed filter exactly when some session lies in its window |
| StoryViewModels.IsAvailable | app/src/main/java/com/kingkharnivore/skillz/ui/viewmodel/StoryViewModel.kt:133-138 | a filter is offered exactly when some session of the selected skill lies in its window, so never for an empty list |
| StoryViewModels.AvailableUpwardClosed | app/src/main/java/com/kingkharnivore/skillz/ui/viewmodel/StoryViewModel.kt:133-138 | an offered filter makes every wider filter offered |
| StoryViewModels.NothingAvailableIffNoSessions | app/src/main/java/com/kingkharnivore/skillz/ui/viewmodel/StoryViewModel.kt:133-138 | nothing is offered exactly when the tag-filtered list is empty |
| StoryViewModels.FirstIn | app/src/main/java/com/kingkharnivore/skillz/ui/viewmodel/StoryViewModel.kt:142 | `firstOrNull`: the first listed filter in the set, or nothing exactly when none is |
| StoryViewModels.FirstAvailable | app/src/main/java/com/kingkharnivore/skillz/ui/viewmodel/StoryViewModel.kt:142 | nothing exactly for an empty set; otherwise the offered filter earliest in declaration order |
| StoryViewModels.EffectiveFilter | app/src/main/java/com/kingkharnivore/skillz/ui/viewmodel/StoryViewModel.kt:140-142 | the chosen filter when offered, else the first offered, else all time |
| StoryViewModels.VisibleSessions | app/src/main/java/com/kingkharnivore/skillz/ui/viewmodel/StoryViewModel.kt:146-151 | exactly the tag-filtered sessions inside the effective window, in order |
| StoryViewModels.StoryItems | app/src/main/java/com/kingkharnivore/skillz/ui/viewmodel/StoryViewModel.kt:83-101 | one row per session with its fields, the looked-up or empty skill name, and its own points |
| StoryViewModels.ItemsAddUp | app/src/main/java/com/kingkharnivore/skillz/ui/viewmodel/StoryViewModel.kt:154-155 | the rows' durations and scores add up to the list's total time and score |
| StoryViewModels.ShownSessions | app/src/main/java/com/kingkharnivore/skillz/ui/viewmodel/StoryViewModel.kt:119-167 | the rows are exactly the selected skill's sessions in the effective window, in order, and the selection and offered set are passed through |
| StoryViewModels.Reduce | app/src/main/java/com/kingkharnivore/skillz/ui/viewmodel/StoryViewModel.kt:119-167 | not loading, no error, the selected skill kept; the offered filters are those of the skill's sessions; a chosen filter that is offered is kept, and the shown filter is offered whenever any is; the score is non-negative |
| StoryViewModels.TotalsMatchRows | app/src/main/java/com/kingkharnivore/skillz/ui/viewmodel/StoryViewModel.kt:153-155 | total time and score are those of exactly the listed rows |
| StoryViewModels.EffectiveIsOffered | app/src/main/java/com/kingkharnivore/skillz/ui/viewmodel/StoryViewModel.kt:133-142 | when any session is tag-filtered, the effective filter is one of the offered ones |
| StoryViewModels.FallbackIsNarrowestNonEmpty | app/src/main/java/com/kingkharnivore/skillz/ui/viewmodel/StoryViewModel.kt:140-142 | a chosen filter that holds nothing gives way to the narrowest window that holds something |
| StoryViewModels.OnStreamError | app/src/main/java/com/kingkharnivore/skillz/ui/viewmodel/StoryViewModel.kt:168-172 | loading ends and the message, or "Something went wrong", is shown; the rest of the state stays |
| StoryViewModels.StoryViewModel.constructor | app/src/main/java/com/kingkharnivore/skillz/ui/viewmodel/StoryViewModel.kt:33-35 | nothing selected, last 7 days chosen |
| StoryViewModels.StoryViewModel.SelectTag | app/src/main/java/com/kingkharnivore/skillz/ui/viewmodel/StoryViewModel.kt:68-70 | only the selection changes |
| StoryViewModels.StoryViewModel.OnScoreFilterSelected | app/src/main/java/com/kingkharnivore/skillz/ui/viewmodel/StoryViewModel.kt:63-65 | only the chosen filter changes |
| StoryViewModels.StoryViewModel.DeleteSession | app/src/main/java/com/kingkharnivore/skillz/ui/viewmodel/StoryViewModel.kt:180-196 | the tables become those of `DeleteAndCleanup`, and the selection resets to "All" exactly when the removed tag was selected |
| SkillListViewModels.RowsAddUp | app/src/main/java/com/kingkharnivore/skillz/ui/viewmodel/SkillListViewModel.kt:83-100 | the rows' durations add up to the listed sessions' total |
| SkillListViewModels.ListedSessions | app/src/main/java/com/kingkharnivore/skillz/ui/viewmodel/SkillListViewModel.kt:128-133 | the rows are the selected skill's sessions (all for "All"), in order, and the total is exactly theirs |
| SkillListViewModels.ScoredSessions | app/src/main/java/com/kingkharnivore/skillz/ui/viewmodel/SkillListViewModel.kt:135-141 | the scored sessions are exactly those in the window, whatever skill is selected; all time scores every session |
| SkillListViewModels.Reduce | app/src/main/java/com/kingkharnivore/skillz/ui/viewmodel/SkillListViewModel.kt:118-151 | not loading, no error, selection and filter kept; one row per session of the selected skill, one chip per tag; the total is that of the selected skill's sessions; the score is non-negative |
| SkillListViewModels.SelectedTotalBounded | app/src/main/java/com/kingkharnivore/skillz/ui/viewmodel/SkillListViewModel.kt:133 | with non-negative durations a skill's total never exceeds the total of all sessions |
| SkillListViewModels.ScoreIgnoresSelection | app/src/main/java/com/kingkharnivore/skillz/ui/viewmodel/SkillListViewModel.kt:136-151 | the score does not depend on the selected skill; the chosen filter is passed through with no fallback; an empty window scores 0 |
| SkillListViewModels.NewSessionScore | app/src/main/java/com/kingkharnivore/skillz/ui/viewmodel/SkillListViewModel.kt:136-142 | a new session inside the window adds exactly its own points to the score; one outside leaves it |
| SkillListViewModels.OnStreamError | app/src/main/java/com/kingkharnivore/skillz/ui/viewmodel/SkillListViewModel.kt:155-160 | loading ends and the message, or "Something went wrong", is shown; the rest of the state stays |
| SkillListViewModels.SkillListViewModel.constructor | app/src/main/java/com/kingkharnivore/skillz/ui/viewmodel/SkillListViewModel.kt:33-35 | nothing selected, last 7 days chosen |
| SkillListViewModels.SkillListViewModel.SelectTag | app/src/main/java/com/kingkharnivore/skillz/ui/viewmodel/SkillListViewModel.kt:68-70 | only the selection changes |
| SkillListViewModels.SkillListViewModel.OnScoreFilterSelected | app/src/main/java/com/kingkharnivore/skillz/ui/viewmodel/SkillListViewModel.kt:63-65 | only the chosen filter changes |
| SkillListViewModels.SkillListViewModel.DeleteSession | app/src/main/java/com/kingkharnivore/skillz/ui/viewmodel/SkillListViewModel.kt:168-184 | the tables become those of `DeleteAndCleanup`, and the selection resets to "All" exactly when the removed tag was selected |
| LegacySkillLists.SessionSource | app/src/main/java/com/kingkharnivore/skillz/ui/skills/SkillListViewModel.kt:34-41 | every session for "All", else that tag's sessions |
| LegacySkillLists.Reduce | app/src/main/java/com/kingkharnivore/skillz/ui/skills/SkillListViewModel.kt:48-58 | not loading, no error, tags and selection kept; one row per session of the source; the total is that of the source |
| LegacySkillLists.DisplayTitle | app/src/main/java/com/kingkharnivore/skillz/ui/skills/SkillListViewModel.kt:96 | a blank title shows as "(Untitled session)", any other as itself, so it is never blank |
| LegacySkillLists.LegacyItems | app/src/main/java/com/kingkharnivore/skillz/ui/skills/SkillListViewModel.kt:89-103 | one row per session in order, with id, description, duration and creation time kept, the displayed title, and the looked-up skill name or "Unknown skill" |
| LegacySkillLists.RowsReadWell | app/src/main/java/com/kingkharnivore/skillz/ui/skills/SkillListViewModel.kt:48-58 | no row has a blank title, a row with an unknown skill reads "Unknown skill", and the total is that of the rows |
| LegacySkillLists.OnStreamError | app/src/main/java/com/kingkharnivore/skillz/ui/skills/SkillListViewModel.kt:59-66 | a fresh state that only carries the message or the generic one |
| LegacySkillLists.LegacySkillListViewModel.SelectTag | app/src/main/java/com/kingkharnivore/skillz/ui/skills/SkillListViewModel.kt:74-76 | the selection becomes the given one |
| LegacySkillLists.LegacySkillListViewModel.DeleteSession | app/src/main/java/com/kingkharnivore/skillz/ui/skills/SkillListViewModel.kt:105-121 | the tables become those of `DeleteAndCleanup`, and the selection resets to "All" exactly when the removed tag was selected |
| AddSessionViewModels.SavedSession | app/src/main/java/com/kingkharnivore/skillz/ui/skills/AddSessionViewModel.kt:89-101 | the saved row carries the given texts, skill and id; it lasts the clamped reading, ends and is created at `now`, starts at or after 0 and no later than the end once the clock is past 0, exactly that long before when the clock allows |
| AddSessionViewModels.AddSessionViewModel.constructor | app/src/main/java/com/kingkharnivore/skillz/ui/skills/AddSessionViewModel.kt:32-49 | stopped at zero, no timer, not saving, no error |
| AddSessionViewModels.AddSessionViewModel.StartOrResume | app/src/main/java/com/kingkharnivore/skillz/ui/skills/AddSessionViewModel.kt:51-63 | nothing when running; otherwise running with the reading kept and the timer started |
| AddSessionViewModels.AddSessionViewModel.Pause | app/src/main/java/com/kingkharnivore/skillz/ui/skills/AddSessionViewModel.kt:65-70 | nothing when stopped; otherwise stopped with the reading kept and the timer cancelled |
| AddSessionViewModels.AddSessionViewModel.Reset | app/src/main/java/com/kingkharnivore/skillz/ui/skills/AddSessionViewModel.kt:72-76 | always stopped at zero with the timer cancelled |
| AddSessionViewModels.AddSessionViewModel.Tick | app/src/main/java/com/kingkharnivore/skillz/ui/skills/AddSessionViewModel.kt:58-60 | each tick adds exactly 1000 ms |
| AddSessionViewModels.AddSessionViewModel.RunTimer | app/src/main/java/com/kingkharnivore/skillz/ui/skills/AddSessionViewModel.kt:56-61 | n wake-ups add exactly n·1000 ms |
| AddSessionViewModels.AddSessionViewModel.SaveSession | app/src/main/java/com/kingkharnivore/skillz/ui/skills/AddSessionViewModel.kt:78-111 | a blank skill name sets the repository's error and changes nothing else; otherwise the skill is found or created, one row with the reading as duration is recorded, the stopwatch is reset and done is reported; saving is over either way |
| AddSessionViewModels.AddSessionViewModel.Conclude | app/src/main/java/com/kingkharnivore/skillz/ui/skills/AddSessionViewModel.kt:103-109 | reset on success, the message as error on failure, saving over either way |
| AddSessionViewModels.AddSessionViewModel.Record | app/src/main/java/com/kingkharnivore/skillz/ui/skills/AddSessionViewModel.kt:89-101 | the skill lookup or insert, then exactly one row when the name was accepted |
| AddSessionViewModels.WholeSeconds | app/src/main/java/com/kingkharnivore/skillz/ui/skills/AddSessionViewModel.kt:56-60 | the reading of a valid controller is a whole, non-negative number of seconds |
| AddSessionViewModels.TickScenario | app/src/main/java/com/kingkharnivore/skillz/ui/skills/AddSessionViewModel.kt:51-70 | start, three ticks, pause, two starts and a tick: running at 4000 ms |
| StopwatchSections.FormatElapsedReadsBack | app/src/main/java/com/kingkharnivore/skillz/ui/skills/AddSkillScreen.kt:286-297 | the clock text of a reading (also FocusOnScreen.kt 387-398) has three fields from one hour on, two below, reading back as the whole seconds, each field after the first below 60 |
| StopwatchSections.SameSecondSameText | app/src/main/java/com/kingkharnivore/skillz/ui/skills/AddSkillScreen.kt:286-287 | readings within the same second show the same text |
| StopwatchSections.ResetEnabledIffItChangesSomething | app/src/main/java/com/kingkharnivore/skillz/ui/skills/AddSkillScreen.kt:278 | Reset (also FocusOnScreen.kt 351) is enabled exactly on a stopped stopwatch not at zero |
| StopwatchSections.FormatElapsed | app/src/main/java/com/kingkharnivore/skillz/ui/skills/AddSkillScreen.kt:286-297 | the reading is shown on a single line |
| StopwatchSections.ResetEnabled | app/src/main/java/com/kingkharnivore/skillz/ui/skills/AddSkillScreen.kt:278 | Reset is never enabled while running or on a fresh stopwatch |
| AddSkillScreens.PrimaryButtonFor | app/src/main/java/com/kingkharnivore/skillz/ui/skills/AddSkillScreen.kt:262-274 | "Start" exactly when stopped at 0, "Pause" exactly while running, "Resume" otherwise |
| AddSkillScreens.PressPrimary | app/src/main/java/com/kingkharnivore/skillz/ui/skills/AddSkillScreen.kt:262-274 | pressing the button flips running and stopped, keeps the reading, and keeps timer and flag in step |
| AddSkillScreens.EnabledSaveFindsSkill | app/src/main/java/com/kingkharnivore/skillz/ui/skills/AddSkillScreen.kt:169 | an enabled Save never meets the empty-name error |
| AddSkillScreens.SaveEnabled | app/src/main/java/com/kingkharnivore/skillz/ui/skills/AddSkillScreen.kt:169 | Save is enabled exactly when the trimmed title and skill name are non-empty (equivalently, neither is blank) and no save is running |
| AddSkillScreens.CancelEnabled | app/src/main/java/com/kingkharnivore/skillz/ui/skills/AddSkillScreen.kt:178 | Cancel is enabled exactly when nothing is saving and the stopwatch is not running, so a fresh stopwatch can always be cancelled |
| AddSkillScreens.EndAndLeave | app/src/main/java/com/kingkharnivore/skillz/ui/skills/AddSkillScreen.kt:188-213 | confirming "End" leaves a stopped stopwatch at zero with the ticker off, so Start shows and Cancel is enabled; saving flag and error kept |
| AddSkillScreens.OnBack | app/src/main/java/com/kingkharnivore/skillz/ui/skills/AddSkillScreen.kt:66-71 | the end dialog exactly while running; otherwise the screen is left |
| FocusOnScreens.OnSavePressed | app/src/main/java/com/kingkharnivore/skillz/ui/skills/FocusOnScreen.kt:175-187 | from ten minutes the breakdown is shown first, with at least one ten-minute bonus and 15 points; below, the save goes ahead |
| FocusOnScreens.SaveEnabled | app/src/main/java/com/kingkharnivore/skillz/ui/skills/FocusOnScreen.kt:174 | Save is enabled exactly when the trimmed title and skill name are non-empty (equivalently, neither is blank), no save is running and focus mode is off |
| FocusOnScreens.AnnouncedPointsAreEarned | app/src/main/java/com/kingkharnivore/skillz/ui/skills/FocusOnScreen.kt:176-186 | the points announced are those the committed session earns |
| FocusOnScreens.OnResetPressed | app/src/main/java/com/kingkharnivore/skillz/ui/skills/FocusOnScreen.kt:342-349 | confirmation exactly from two minutes on, else an immediate reset |
| FocusOnScreens.ConfirmText | app/src/main/java/com/kingkharnivore/skillz/ui/skills/FocusOnScreen.kt:358-363 | the whole minutes of the reading, with "minute" singular exactly for one |
| FocusOnScreens.ConfirmationIsPlural | app/src/main/java/com/kingkharnivore/skillz/ui/skills/FocusOnScreen.kt:342-363 | the confirmation, reachable only from two minutes on, always counts at least 2 and says "minutes" |
| FocusOnScreens.EndFocusSession | app/src/main/java/com/kingkharnivore/skillz/ui/skills/FocusOnScreen.kt:213-219 | pause, reset, exit focus: stopped at zero, focus off, nothing banked, texts kept, record written (FocusOnScreen.kt never sets `showEndDialog` to true, so the app cannot reach this dialog) |
| SkillzListScreens.BodyFor | app/src/main/java/com/kingkharnivore/skillz/ui/skills/SkillzListScreen.kt:100-116 | loading first, then the error, then the empty state, then the content for the current mode |
| SkillzListScreens.BodyAfterReduce | app/src/main/java/com/kingkharnivore/skillz/ui/skills/SkillzListScreen.kt:100-116 | a reduced state shows the empty state exactly when the selection has no sessions, and a failed stream shows the error |
| SkillzListScreens.TotalTimeCardShowsSelectedSkill | app/src/main/java/com/kingkharnivore/skillz/ui/skills/SkillzListScreen.kt:431 | the card shows exactly when a skill is selected and some session carries it, and then shows that skill's total |
| SkillzListScreens.ShowTotalTimeCard | app/src/main/java/com/kingkharnivore/skillz/ui/skills/SkillzListScreen.kt:431 | the card appears only with a skill selected and never beside the empty-list body |
| SkillzListScreens.ChipFilters | app/src/main/java/com/kingkharnivore/skillz/ui/skills/SkillzListScreen.kt:635-637 | exactly the offered filters, in strictly increasing declaration order |
| SkillzListScreens.SubsequenceKeepsOrder | app/src/main/java/com/kingkharnivore/skillz/ui/skills/SkillzListScreen.kt:635-636 | filtering keeps declaration order |
| SkillzListScreens.ExpandedSessionIds.IsExpanded | app/src/main/java/com/kingkharnivore/skillz/ui/skills/SkillzListScreen.kt:581 | set membership |
| SkillzListScreens.ExpandedSessionIds.Toggle | app/src/main/java/com/kingkharnivore/skillz/ui/skills/SkillzListScreen.kt:583-585 | flips the id's membership and no other |
| SkillzListScreens.Toggled | app/src/main/java/com/kingkharnivore/skillz/ui/skills/SkillzListScreen.kt:583-585 | the toggled id flips membership and every other id keeps it |
| SkillzListScreens.ToggleTwiceRestores | app/src/main/java/com/kingkharnivore/skillz/ui/skills/SkillzListScreen.kt:584 | toggling twice restores the set; toggles of two ids commute |
| SkillzListScreens.SessionEditor.StartEditing | app/src/main/java/com/kingkharnivore/skillz/ui/skills/SkillzListScreen.kt:516-519 | the row is being edited and the text is its description |
| SkillzListScreens.SessionEditor.StopEditing | app/src/main/java/com/kingkharnivore/skillz/ui/skills/SkillzListScreen.kt:521-523 | the editor closes and the text stays |
| SkillzListScreens.SessionEditor.ConfirmEdit | app/src/main/java/com/kingkharnivore/skillz/ui/skills/SkillzListScreen.kt:538-566 | with a row open, hands its id and the edited text on and closes; with none, nothing |
| SkillzListScreens.EditUnchangedScenario | app/src/main/java/com/kingkharnivore/skillz/ui/skills/SkillzListScreen.kt:516-566 | opening a row and saving without typing hands back its own description |

## Left out

- `onTagSelected` in both list view models: it has the same body as `selectTag`, which is modelled.
- `clearError` in `StoryViewModel`: it only sets the error to null, with no logic worth a contract.
- `updateSessionDescription` and the repository update behind it: the edit dialog's confirm hands back the `(id, text)` pair, but the table update is not modelled.
- The `tags` StateFlows: these pass the tag table through unchanged.
- Coroutine scheduling, `delay`, cancellation, and the ordering of concurrent writes: each operation runs to completion in program order.
- Room's `ORDER BY` clauses and the foreign-key cascade: rows are kept in insertion order.
- `formatClockTime`: its output depends on the device locale and time zone. The notification takes the "started at" text as a parameter.
- The Android notification, channel, foreground-service and intent calls: only the values they are given are modelled.
- `MainActivity`'s check for whether to reinstate a session: it is platform glue outside this core.
- Kotlin `Long` overflow and the `toInt()` of the minute count: integers are unbounded.
- `AddSessionViewModels.AddSessionViewModel.SaveSession`: reads the clock once. The source reads it separately for the tag and for the session.
- The add-session screen's calls to `enterFocusMode()` and `exitFocusMode()` (AddSkillScreen.kt:121-125 and 199): `AddSessionViewModel.kt` declares neither member, so they are not modelled. The "End Focus Session?" dialog's pause and reset are modelled in `AddSkillScreens.EndAndLeave`; leaving the screen is navigation.
- The focus mini-bar's alpha animation: this is floating point and rendering.
- Compose layout and rendering in general.
- `FlowViewModel`'s `isSaving` flag: the screen passes it in as a parameter.
- Repository failures in `FlowViewModel.saveSession`
  (FlowViewModel.kt:266-267) and `AddSessionViewModel.saveSession`
  (AddSessionViewModel.kt:105-106): in the model the repositories do not
  throw. The catch branch that sets `e.message ?: "Failed to save session"`
  is therefore reached only by `AddSessionViewModel`'s blank-skill error
  from `getOrCreateTagId`. `FlowViewModel` checks for blanks before the
  call, so its catch branch is never reached. The
  `deleteSession` methods of ui/viewmodel/SkillListViewModel.kt:180-182,
  ui/viewmodel/StoryViewModel.kt:192-194 and
  ui/skills/SkillListViewModel.kt:117-119 have a catch branch that
  swallows exceptions, and it is not modelled. Repository exceptions and
  their messages are not modelled, because the modelled tables cannot fail.
- The ticker's one-second `delay`: `FlowViewModels.FlowViewModel.RunTicker` takes the wake-up instants as a sorted sequence.
