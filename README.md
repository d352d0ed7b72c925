# Pomodoro app core in Dafny

A model of the logic behind a small Angular Pomodoro app:

- **Timer dialog** (`PomodoroTimerComponent`): a once-a-second countdown through an uptime and a downtime phase per repetition. After the last downtime it stores one completed session, lasting `floor(totalDuration / 60)` minutes.
- **Local object store** (`DatabaseService`): three auto-increment tables.
  - `users` has a unique `email` index.
  - `alarms` has a `userId` index.
  - `sessions` has `userId` and `alarmId` indexes.
- **Auth gateway** (`AuthService`): the logged-in user, held in memory and in a persisted copy. Login, registration and logout change it.

Files:

- `outcomes.dfy` (`Outcomes`): `Option`, plus `Result` with the store's three failures.
  - `Unavailable`: the database was never opened.
  - `ConstraintError`: the unique email index rejected an add.
  - `AlarmNotFound`: the alarm id is missing.
- `keyed.dfy` (`Keyed`): a table as a sequence of rows kept strictly ascending by key, whose keys all lie below the key generator's next value.
  - Index lookups are `Where`; deletion by index is `Except`.
  - `DeleteWhere` is the cursor loop that deletes rows one at a time.
- `database.dfy` (`Database`): the record types, the alarm-patch overlay, the sample data and the `DatabaseService` class.
- `auth.dfy` (`Auth`): the `AuthService` class.
- `pomodoro_timer.dfy` (`PomodoroTimer`):
  - the countdown as pure functions (`Ticked`, `PhaseAdvanced`, `Run`);
  - the full-run theorem;
  - the `mm:ss` formatter;
  - the `PomodoroTimerComponent` class, whose `Tick` is the interval callback.

Modelling choices:

- Timestamps are opaque integers (milliseconds). The wall clock reaches the model only as a `now` parameter.
- `DatabaseService.ready` records whether opening the database succeeded. If it did not, the service has no handle and every request rejects.
- `PomodoroTimerComponent.ticking` stands for a scheduled `setInterval` callback. `closedWith` is the value the dialog was closed with.
- The ghost field `runStart` is `totalDuration` when the current run started. `startTimer` does not reset `totalDuration`, so a restarted run keeps counting on top of the previous one.

## Model

| member | source | states |
|---|---|---|
| Database.DatabaseService.constructor | src/app/services/database.service.ts:43-57 | Opening a fresh database seeds it: the demo user with id 1, the two sample alarms with ids 1 and 2, and the twelve sample sessions with ids 1 to 12. The key generators then stand at 2, 3 and 13. A database that failed to open stays empty, with every generator at 1. |
| Database.DatabaseService.CreateUser | src/app/services/database.service.ts:326-349 | The stored user is the input plus `createdAt` and the next key, which no stored user holds. The users table grows by that one row. A duplicate email fails with `ConstraintError` and changes nothing. The other tables are untouched. |
| Database.DatabaseService.GetUserByEmail | src/app/services/database.service.ts:351-365 | Returns the user with that email, or none exactly when no stored user has it. |
| Database.DatabaseService.ValidateUser | src/app/services/database.service.ts:408-414 | Returns a user exactly when a stored user has both that email and that password. The returned user has those credentials. |
| Database.UserWithEmail | src/app/services/database.service.ts:71 | The email index lookup. Under the unique-email invariant its hit is the only user with that email; no hit means no user has it. |
| Database.DatabaseService.CreateAlarm | src/app/services/database.service.ts:417-440 | The stored alarm is the input plus `createdAt` and a fresh key; the alarms table grows by exactly that row. |
| Database.DatabaseService.UpdateAlarm | src/app/services/database.service.ts:442-481 | A missing id fails with `AlarmNotFound` and changes nothing. Otherwise only that row is replaced, by the existing alarm overlaid with the patch, and `id` and `userId` keep their old values. |
| Database.Overlay | src/app/services/database.service.ts:458-463 | The merged alarm keeps the stored `id` and `userId` whatever the patch holds. |
| Database.OverlayProperties | src/app/services/database.service.ts:458-463 | The merge has these properties: an empty patch changes nothing; applying the same patch twice equals applying it once; two patches in a row equal one combined patch; each field comes from the patch when the patch has it, and from the alarm otherwise. |
| Database.DatabaseService.DeleteAlarm | src/app/services/database.service.ts:483-497 | Removes exactly the rows with that id from alarms. Sessions that refer to the alarm stay. A closed store fails with `Unavailable` and changes nothing. |
| Keyed.ExceptByKey | src/app/services/database.service.ts:483-497 | In a table ordered by key, deleting by key removes just the one row found at that key, or nothing when the key is absent. |
| Database.DatabaseService.GetAlarmsByUser | src/app/services/database.service.ts:499-513 | Returns exactly the alarms whose `userId` is the key, in key order. |
| Database.DatabaseService.CreateSession | src/app/services/database.service.ts:530-548 | The stored session is the input plus a fresh key and no `createdAt`. The sessions table grows by that one row. |
| Database.DatabaseService.GetSessionsByUser | src/app/services/database.service.ts:550-564 | Returns exactly the sessions whose `userId` is the key. |
| Database.DatabaseService.GetSessionsByAlarm | src/app/services/database.service.ts:566-580 | Returns exactly the sessions whose `alarmId` is the key, including those of a deleted alarm. |
| Database.DatabaseService.ClearUserData | src/app/services/database.service.ts:272-320 | Deletes every alarm and every session of that user and nothing else. Users and key generators are unchanged. A closed store fails with `Unavailable` and changes nothing. |
| Keyed.DeleteWhere | src/app/services/database.service.ts:278-297 | The cursor deletes every row whose indexed field matches. The loop walks the whole table row by row, where the source's cursor visits only the index matches. It leaves exactly the rows whose field differs, still a valid table. |
| Keyed.Find | src/app/services/database.service.ts:448 | `store.get(id)`: a hit is the position of a row with that key, and a miss means no row has it. |
| Keyed.Where | src/app/services/database.service.ts:357 | `index.get`/`index.getAll`: a row is in the result exactly when its indexed field equals the key, and the result is no longer than the table. The same lookup serves lines 505, 556 and 572. |
| Keyed.Except | src/app/services/database.service.ts:278-297 | What deleting by an index value leaves: a row stays exactly when its field differs from the value. |
| Keyed.WhereExceptPartition | src/app/services/database.service.ts:272-320 | The rows a user-data clear deletes and the rows it keeps together account for the whole table. |
| Database.DatabaseService.ClearAllData | src/app/services/database.service.ts:94-118 | Empties all three tables. The key generators keep counting. A closed store fails with `Unavailable` and changes nothing. |
| Database.DatabaseService.CreateSampleData | src/app/services/database.service.ts:120-264 | Without `force`, once any user exists, it is a no-op. With `force` and a truthy target user, it clears that user's data and seeds for that user. With `force` alone, it wipes everything and seeds a new demo user. Otherwise it adds the demo user. Each seeding adds the two sample alarms and the twelve sample sessions, advancing the alarm key by 2 and the session key by 12; the user key advances by 1 exactly when a demo user is created. |
| Database.DatabaseService.SeedSampleRows | src/app/services/database.service.ts:149-264 | After the sample user is chosen, appends exactly the two sample alarms and then the twelve sample sessions on those alarms, advancing the alarm key by 2 and the session key by 12 and leaving users alone. |
| Database.DatabaseService.AddSampleSessions | src/app/services/database.service.ts:167-264 | The twelve inserts append exactly the sample sessions, with consecutive new keys, and touch nothing else. |
| Database.SampleSessions | src/app/services/database.service.ts:167-262 | Twelve sessions for the sample user with consecutive keys. Each lasts 120 minutes and completed before now. |
| Database.SampleSessionsShape | src/app/services/database.service.ts:167-262 | Seven of the sample sessions are on the first sample alarm and five on the second. |
| Auth.AuthService.constructor | src/app/services/auth.service.ts:14-20 | The current user starts as the persisted one, if any. |
| Auth.AuthService.Login | src/app/services/auth.service.ts:22-37 | Succeeds exactly when the store is open and has a user with these credentials. On success, the current and persisted user both become that user, with "Login exitoso". On failure nothing changes. The message is "Credenciales incorrectas" for an unknown email and a wrong password alike, and "Error al iniciar sesión" on a store error. |
| Auth.AuthService.Register | src/app/services/auth.service.ts:39-63 | Succeeds exactly when the store is open and the email is unused. On success it creates exactly one user, who becomes the current and persisted user, with "Registro exitoso". A taken email fails with "El correo electrónico ya está registrado", and a store error with "Error al registrar usuario"; on failure no user is created and the current user is unchanged. The user key advances by one exactly on success; the other tables and keys are untouched. |
| Auth.AuthService.Logout | src/app/services/auth.service.ts:65-68 | Clears the current user and the persisted copy, so `IsLoggedIn` is false. |
| Auth.AuthService.GetCurrentUser | src/app/services/auth.service.ts:70-72 | The current user is always the persisted copy. |
| Auth.AuthService.IsLoggedIn | src/app/services/auth.service.ts:74-76 | Logged in exactly when a persisted user exists, i.e. when `getCurrentUser` is non-null. |
| PomodoroTimer.PomodoroTimerComponent.constructor | src/app/components/pomodoro-timer/pomodoro-timer.ts:28-46 | Opening the dialog starts a run from `totalDuration` 0: phase uptime, repetition 1, `uptime*60` seconds left, running, not paused, interval scheduled. |
| PomodoroTimer.PomodoroTimerComponent.StartTimer | src/app/components/pomodoro-timer/pomodoro-timer.ts:76-83 | Sets uptime, repetition 1, `uptime*60` seconds, running and not paused, and schedules the interval. `totalDuration` is left as it was. |
| PomodoroTimer.PomodoroTimerComponent.Tick | src/app/components/pomodoro-timer/pomodoro-timer.ts:86-93 | One callback moves the fields by `Ticked` while the interval is scheduled and keeps the running invariants. These are: repetition within 1..repetitions, remaining within the phase length, and `totalDuration` equal to the run's start plus the seconds counted so far. The callback that ends the run leaves the phase at downtime and the repetition at `repetitions+1`. It has then counted exactly `repetitions*(uptime+downtime)*60` seconds and stored one session (when someone is logged in) of `floor(totalDuration/60)` minutes. Any other callback stores nothing, and nothing is stored after the dialog was closed. The session key advances by the number of sessions stored; users and alarms are untouched. |
| PomodoroTimer.PomodoroTimerComponent.NextPhase | src/app/components/pomodoro-timer/pomodoro-timer.ts:96-119 | Uptime goes to downtime with `downtime*60`. Downtime raises the repetition; past the last, it finishes the run, otherwise it returns to uptime with `uptime*60`. `totalDuration` is unchanged. |
| PomodoroTimer.PomodoroTimerComponent.FinishSession | src/app/components/pomodoro-timer/pomodoro-timer.ts:121-146 | Stops the interval and the run and closes the dialog with `true`. It stores one session for the current user with the elapsed whole minutes, and nothing when no one is logged in or the store is unavailable. The session key advances by the number stored. |
| PomodoroTimer.PomodoroTimerComponent.PauseTimer | src/app/components/pomodoro-timer/pomodoro-timer.ts:148-153 | Only a running timer is paused and its interval stopped. Phase, repetition, remaining and `totalDuration` are unchanged. |
| PomodoroTimer.PomodoroTimerComponent.ResumeTimer | src/app/components/pomodoro-timer/pomodoro-timer.ts:155-160 | Only a paused timer is resumed with its interval scheduled again. The countdown fields are unchanged. |
| PomodoroTimer.PomodoroTimerComponent.ContinueTimer | src/app/components/pomodoro-timer/pomodoro-timer.ts:162-168 | Resumes a paused run unchanged, restarts a stopped one as `startTimer` does, and leaves a running one alone. |
| PomodoroTimer.PomodoroTimerComponent.CloseDialog | src/app/components/pomodoro-timer/pomodoro-timer.ts:170-175 | Stops the interval and closes with `false`. The countdown fields and the store are unchanged, so no session is recorded; the closed dialog never ticks again. |
| PomodoroTimer.Started | src/app/components/pomodoro-timer/pomodoro-timer.ts:76-81 | A started run has counted nothing yet, keeps the given `totalDuration`, and is live within the form bounds. |
| PomodoroTimer.PhaseAdvanced | src/app/components/pomodoro-timer/pomodoro-timer.ts:96-119 | Switching phase never changes `totalDuration`. A phase it starts is full length. The repetition rises by one exactly when leaving downtime. A running countdown stops exactly when it leaves downtime past the last repetition. |
| PomodoroTimer.Ticked | src/app/components/pomodoro-timer/pomodoro-timer.ts:86-93 | With time left, one second moves from `timeRemaining` to `totalDuration` and nothing else changes; at zero, `totalDuration` is unchanged. Neither `totalDuration` nor the repetition ever goes down. |
| PomodoroTimer.Run | src/app/components/pomodoro-timer/pomodoro-timer.ts:86-119 | `n` callbacks add at most `n` seconds to `totalDuration` and never lower it or the repetition; a stopped countdown stays as it is. |
| PomodoroTimer.TickKeepsProgress | src/app/components/pomodoro-timer/pomodoro-timer.ts:86-119 | One callback on a live countdown keeps the repetition and remaining bounds, and keeps `totalDuration` equal to the seconds counted so far. The phase-switching callback adds nothing. The callback that stops the run leaves exactly `repetitions*(uptime+downtime)*60` seconds counted. |
| PomodoroTimer.ProgressBounds | src/app/components/pomodoro-timer/pomodoro-timer.ts:86-119 | While running, the seconds counted in the run lie between 0 and the full run's length. |
| PomodoroTimer.CountDown | src/app/components/pomodoro-timer/pomodoro-timer.ts:86-90 | `k` callbacks within a phase take `k` seconds off `timeRemaining`, add `k` to `totalDuration` and change nothing else. |
| PomodoroTimer.FullRun | src/app/components/pomodoro-timer/pomodoro-timer.ts:76-123 | A run started at `totalDuration` t0 stops after exactly `repetitions*((uptime+downtime)*60+2)` callbacks, with `totalDuration` `t0 + repetitions*(uptime+downtime)*60`, repetition `repetitions+1` and phase downtime. It is still running at every earlier callback. |
| PomodoroTimer.RecordedMinutes | src/app/components/pomodoro-timer/pomodoro-timer.ts:133 | A finished run adds exactly `repetitions*(uptime+downtime)` whole minutes to the recorded duration. From a fresh component that is the whole recorded duration. |
| PomodoroTimer.SampleAlarmsRecordTwoHours | src/app/services/database.service.ts:150-164 | Both sample alarms (25/5/4 and 30/10/3) respect the form bounds and record 120 minutes per run, the duration of every seeded session. |
| PomodoroTimer.MinutesSecondsRoundTrip | src/app/components/pomodoro-timer/pomodoro-timer.ts:70-74 | `formattedTime` writes the minutes `t/60`, a colon, then the seconds `t%60` (0..59), each as digits zero-padded to at least two. Reading the text back gives `minutes*60 + seconds == t`. |
| PomodoroTimer.PomodoroTimerComponent.FormattedTime | src/app/components/pomodoro-timer/pomodoro-timer.ts:70-74 | The getter's text is at least five characters and reads back as `timeRemaining`. |
| PomodoroTimer.MinutesSeconds | src/app/components/pomodoro-timer/pomodoro-timer.ts:70-74 | The text has at least five characters with the colon third from the end, and is exactly five characters below 100 minutes. |
| PomodoroTimer.Decimal | src/app/components/pomodoro-timer/pomodoro-timer.ts:73 | `toString` of a non-negative integer is a non-empty string of digits, one digit below 10 and two below 100. |
| PomodoroTimer.PomodoroTimerComponent.Recorded | src/app/components/pomodoro-timer/pomodoro-timer.ts:126-134 | Finishing stores at most one session, and one exactly when a user is logged in and the store is open. |
| PomodoroTimer.DecimalRoundTrip | src/app/components/pomodoro-timer/pomodoro-timer.ts:73 | `toString` of a non-negative integer reads back as the same number. |
| PomodoroTimer.PadStart2 | src/app/components/pomodoro-timer/pomodoro-timer.ts:73 | `padStart(2, '0')` leaves at least two characters and does not change the digits' value. |

## Left out

- Opening and upgrading IndexedDB, transactions, request callbacks and promises. Each operation is a synchronous method whose failure is a `Result`, and the database model starts from a freshly created database. Reopening one that already holds data (where the seeding is skipped) is not modelled.
- The reactive `BehaviorSubject` streams and the `load*` refreshers only publish copies of the tables, and the model reads the tables directly. `getAllUsers`, `getAllAlarms` and `getAllSessions` are those reads.
- `recreateSampleData` is `CreateSampleData` with `force` set, and has no member of its own.
- `setInterval`/`setTimeout`, `new Date()` and the dialog's two-second close delay. The interval is the `ticking` flag plus the `Tick` method, and the clock is the `now` parameter.
- Snackbar messages, the `title` and `instruction` getters, and `ngOnDestroy` are UI text or a clean-up of the interval. `CloseDialog` already stops the interval.
- `localStorage` and JSON serialisation. The persisted copy is the `persisted` field, and the constructor takes its value.
- PomodoroTimer.PomodoroTimerComponent.StartTimer: requires that no interval is scheduled. Both callers guarantee this, so a second overlapping interval is not modelled.
- PomodoroTimer.PomodoroTimerComponent.PauseTimer, ResumeTimer, ContinueTimer, StartTimer and CloseDialog: require the dialog to be open (`closedWith == None`). Closing the dialog destroys the component, whose `ngOnDestroy` clears the interval, so no handler runs after it. `FinishSession` marks the dialog closed at once. The two seconds before the real close, when a click on continue would still restart a run, are not modelled.
- PomodoroTimer.PomodoroTimerComponent.constructor: requires alarms within the form bounds (uptime 1..120, downtime 1..60, repetitions 1..20). Alarms outside them, for which the form would refuse to save, are not modelled.
- Database.Overlay: a patch key that is present but holds `undefined` is treated as absent; the JavaScript spread would copy the `undefined`.
- Database.DatabaseService.CreateSampleData: the twelve session inserts are a loop over a table of alarm and time offset, where the source writes twelve calls out. A failure part-way through seeding cannot happen in the model, because every request fails exactly when the database is closed.
- The other screens (alarm form, alarm list, history, achievements, login and register pages, routes) are thin callers of these services.
