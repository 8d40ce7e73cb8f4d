# Session-boundary tracker, in Dafny

This project models the session counter of a small Android app. A lifecycle observer
(`SessionManager`) watches the main activity:

- ON_STOP records when the app went to the background.
- ON_START records when it came back. If the gap, truncated to whole minutes, is at least ten,
  it adds one to a persisted session count and notifies a listener. It does this at most once per
  observer instance.
- ON_DESTROY clears the two stored timestamps.

The persisted state lives in a three-field key-value store (`SharedPreferencesHelper`):

- `sessionsCount`, default 1;
- `backgroundStartTime`, default 0;
- `backgroundEndTime`, default 0.

Modules:

- `Prefs` (`prefs.dfy`): the store as a map from key strings to integers, with the three keyed
  getters (with their defaults), the setters and `clearTrackingTimes`.
- `TimeUnits` (`time_units.dfy`): `TimeUnit.MILLISECONDS.toMinutes`, a division by 60000 that
  truncates toward zero.
- `Session` (`session.dfy`): the observer as an immutable `State` (three flags plus the store) and
  a pure transition `Step(state, event, now)`. A step returns an `Outcome`: the next state, whether
  the listener was notified, and the store keys written, in order. The wall clock is the `now`
  argument.
- `SessionRuns` (`session_runs.dfy`): `Run` feeds a sequence of `(event, now)` inputs to one
  observer. Its lemmas cover:
  - at most one notification;
  - a count that grows by exactly the number of notifications and never decreases;
  - a start time written at most once that keeps the first stop's time;
  - a counted observer that ignores everything but ON_DESTROY;
  - the three-phase state machine (foreground, background pending, counted) the flags follow.
- `SessionScenarios` (`session_scenarios.dfy`): concrete event sequences and their outcomes.

The `isAppComingFromBackground = true` assignment sits inside the `if (!isSessionLogged)` guard
(app/src/main/java/com/challenge/patagonian/ui/SessionManager.kt:81-87). So once a session is
counted, an ON_STOP changes nothing (`Session.LogBackgroundEventStart`, `SessionRuns.CountedAbsorbs`).

`isNewSessionStarted` is never reset. So, until ON_DESTROY (after which Android delivers no further
events to the observer), the start time of an observer instance is its first ON_STOP, and the gap
checked at each ON_START is measured from that first stop. Two short excursions can therefore
count as one session once ten minutes have passed since the first stop.
`SessionScenarios.AbsenceMeasuredFromFirstStop` shows this. The model keeps this behaviour as
written.

Every step reports the store keys it writes, in order. `Session.StepWritesCoverStore` and
`SessionRuns.RunWritesCoverStore` show that this list is complete: a key that is not in it keeps
its presence and value in the store.

## Model

| member | source | states |
|---|---|---|
| Prefs.SetSessionsCount | app/src/main/java/com/challenge/patagonian/data/SharedPreferencesHelper.kt:20-22 | reading `sessionsCount` after setting it gives the value written; both times and every unrelated key are unchanged, because the keys are distinct |
| Prefs.SetBackgroundStartTime | app/src/main/java/com/challenge/patagonian/data/SharedPreferencesHelper.kt:24-26 | reading `backgroundStartTime` back gives the value written; the count, the end time and unrelated keys are unchanged |
| Prefs.SetBackgroundEndTime | app/src/main/java/com/challenge/patagonian/data/SharedPreferencesHelper.kt:28-30 | reading `backgroundEndTime` back gives the value written; the count, the start time and unrelated keys are unchanged |
| Prefs.ClearTrackingTimes | app/src/main/java/com/challenge/patagonian/data/SharedPreferencesHelper.kt:32-35 | afterwards both times read 0; the count and unrelated keys are unchanged |
| Prefs.EmptyStoreDefaults | app/src/main/java/com/challenge/patagonian/data/SharedPreferencesHelper.kt:20-30 | on a store never written to, the count reads 1 and both times read 0 |
| Prefs.ClearTrackingTimesIdempotent | app/src/main/java/com/challenge/patagonian/data/SharedPreferencesHelper.kt:32-35 | clearing the tracking times twice leaves the same store as clearing once |
| TimeUnits.MillisToMinutes | app/src/main/java/com/challenge/patagonian/ui/SessionManager.kt:99 | the result is the whole number of minutes in the duration, rounded toward zero for negative durations as well as positive ones |
| TimeUnits.MinutesAtLeastIff | app/src/main/java/com/challenge/patagonian/ui/SessionManager.kt:99-100 | a duration reaches k whole minutes (k at least 1) exactly when it is at least k times 60000 ms; negative durations never do |
| TimeUnits.TenMinuteBoundary | app/src/main/java/com/challenge/patagonian/ui/SessionManager.kt:99-100 | 600000 ms is 10 minutes and 599999 ms is 9; -599999 ms truncates to -9, not -10 |
| Session.CalculateTimeDifference | app/src/main/java/com/challenge/patagonian/ui/SessionManager.kt:96-105 | the listener is notified exactly when the stored end time minus the stored start time is at least 600000 ms. Then the count rises by exactly 1, the session is marked logged and only the count key is written. Otherwise nothing changes. |
| Session.LogBackgroundEventEnd | app/src/main/java/com/challenge/patagonian/ui/SessionManager.kt:64-72 | when already logged or not coming from the background: no change, no write, no notification. Otherwise: the end time becomes `now`, the start time is kept, and the background flag is cleared whether or not it counted. It counts (count +1, logged, notified) exactly when `now` is at least 600000 ms past the start time. It writes the end time, then the count if it counted. |
| Session.LogBackgroundEventStart | app/src/main/java/com/challenge/patagonian/ui/SessionManager.kt:80-88 | when logged: no change at all. Otherwise the background flag and the started flag end true. The start time becomes `now` and is written only if no stop was recorded before; otherwise it is kept. The end time and count are unchanged, and nobody is notified. |
| Session.Step | app/src/main/java/com/challenge/patagonian/ui/SessionManager.kt:42-55 | ON_DESTROY zeroes both times, writes end then start, and keeps the count, every unrelated key and all three flags. Events other than start, stop and destroy change nothing. A notification only comes from an ON_START that newly logs the session. The count rises by exactly the number of notifications, and a logged instance stays logged. |
| Session.StepWritesCoverStore | app/src/main/java/com/challenge/patagonian/ui/SessionManager.kt:42-105 | every store key a step does not list among its writes keeps its presence and value, so "writes nothing" and "writes only the times" are facts about the store |
| SessionRuns.RunWritesCoverStore | app/src/main/java/com/challenge/patagonian/ui/SessionManager.kt:42-105 | over any event sequence, a key that never appears among the writes keeps its presence and value in the store |
| SessionRuns.RunNotifiesAtMostOnce | app/src/main/java/com/challenge/patagonian/ui/SessionManager.kt:65-104 | over any event sequence, one instance notifies at most once, and never once it has counted. It ends logged exactly when it started logged or notified. |
| SessionRuns.RunCountTracksNotifications | app/src/main/java/com/challenge/patagonian/ui/SessionManager.kt:100-104 | over any event sequence, the stored count grows by exactly the number of notifications, so by at most 1 |
| SessionRuns.CountNeverDecreases | app/src/main/java/com/challenge/patagonian/ui/SessionManager.kt:101 | after every prefix of an event sequence the count lies between the initial and the final count |
| SessionRuns.RunAppend | app/src/main/java/com/challenge/patagonian/ui/SessionManager.kt:42-55 | feeding two event sequences back to back ends in the same state as feeding their concatenation, and the notifications add up |
| SessionRuns.CountedAbsorbs | app/src/main/java/com/challenge/patagonian/ui/SessionManager.kt:64-88 | once a session is counted, any event sequence without ON_DESTROY changes no flag, writes nothing and notifies nobody |
| SessionRuns.StartTimeWrittenAtMostOnce | app/src/main/java/com/challenge/patagonian/ui/SessionManager.kt:80-88 | without ON_DESTROY, the start-time key is written at most once per instance, and never after the first stop has been recorded |
| SessionRuns.StartTimeStable | app/src/main/java/com/challenge/patagonian/ui/SessionManager.kt:80-88 | once a stop has been recorded, no event sequence without ON_DESTROY changes the stored start time |
| SessionRuns.QuietUntilFirstStop | app/src/main/java/com/challenge/patagonian/ui/SessionManager.kt:64-72 | before the first stop of a fresh instance, events other than stop and destroy change nothing and write nothing |
| SessionRuns.FirstStopTimeKept | app/src/main/java/com/challenge/patagonian/ui/SessionManager.kt:80-88 | for a fresh instance with no ON_DESTROY, the stored start time ends up as the clock reading of the first ON_STOP, however many stops follow |
| SessionRuns.InitConsistent | app/src/main/java/com/challenge/patagonian/ui/SessionManager.kt:24-26 | a new instance (all flags false) satisfies the flag invariant and is in the foreground phase |
| SessionRuns.StepKeepsConsistent | app/src/main/java/com/challenge/patagonian/ui/SessionManager.kt:42-105 | every step keeps the invariant: logged implies a stop was recorded and the app is not coming from the background, and coming from the background implies a stop was recorded |
| SessionRuns.RunKeepsConsistent | app/src/main/java/com/challenge/patagonian/ui/SessionManager.kt:42-105 | every event sequence keeps that flag invariant |
| SessionRuns.StepFollowsPhases | app/src/main/java/com/challenge/patagonian/ui/SessionManager.kt:42-105 | each step moves the flags along the foreground / background-pending / counted machine: a stop pends unless counted, and a start from pending counts exactly when at least 600000 ms passed since the stored start. The listener is notified exactly on the pending-to-counted transition. |
| SessionScenarios.LongAbsenceCounts | app/src/main/java/com/challenge/patagonian/ui/SessionManager.kt:96-104 | fresh store, stop at 0, start at 700000: count 2, one notification, session logged |
| SessionScenarios.ShortAbsenceDoesNotCount | app/src/main/java/com/challenge/patagonian/ui/SessionManager.kt:64-70 | fresh store, stop at 0, start at 100000: count stays 1, no notification, back in the foreground with the started flag still set |
| SessionScenarios.ThresholdIsExact | app/src/main/java/com/challenge/patagonian/ui/SessionManager.kt:99-100 | a stop followed by a start 600000 ms later counts; 599999 ms later does not |
| SessionScenarios.BareStartIsNoOp | app/src/main/java/com/challenge/patagonian/ui/SessionManager.kt:64-72 | an ON_START with no earlier stop in the instance changes nothing and writes nothing |
| SessionScenarios.DoubleSuspendKeepsFirst | app/src/main/java/com/challenge/patagonian/ui/SessionManager.kt:80-88 | after stop, stop, start, the stored start time is the first stop's |
| SessionScenarios.AbsenceMeasuredFromFirstStop | app/src/main/java/com/challenge/patagonian/ui/SessionManager.kt:82-84 | two one-minute excursions whose second ends 600000 ms after the first stop count as a session, because the start time is never re-recorded |
| SessionScenarios.DestroyClearsTimes | app/src/main/java/com/challenge/patagonian/ui/SessionManager.kt:50-52 | after ON_DESTROY both times read 0 and the count is unchanged |

## Left out

- Lifecycle registration (`activity.lifecycle.addObserver`): framework wiring. Events are plain inputs to `Step`.
- `System.currentTimeMillis()`: each event carries its clock reading as `now`.
- The `SessionCountEvent` listener: its interface is not part of this model. A call to it is the `notified` flag of a step.
- Real persistence: `SharedPreferences` and its asynchronous `edit {}` apply are modelled as a synchronous in-memory map.
- Prefs.SetSessionsCount: `sessionsCount` is a 32-bit `Int` in the app, and the model uses unbounded integers, so `+= 1` at the maximum does not wrap around.
- Session.CalculateTimeDifference: the times are 64-bit `Long`s, and the subtraction's overflow is not modelled. It cannot happen for the non-negative clock readings and zeros the app stores.
- The gyroscope rotation detector (`GyroscopeListeners.kt`): it does floating-point accumulation, and the rest is sensor registration.
- `MainActivity.kt` and `utils/Extentions.kt`: UI wiring and text-size display only.
