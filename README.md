# AppMussic player activity: time formatting and transport rules

This project models the single activity of a small audio player app
(`MainActivity`). The app plays one bundled audio resource. It has play,
pause and stop buttons, a seek bar and two time labels. A self-rescheduling
task copies the playback position into the seek bar and the current-time label
once a second while audio plays.

The model has three modules:

- `TimeFormat` covers `formatTime`. A millisecond count becomes `M:SS`: the
  whole minutes in decimal without padding, a colon, and the whole seconds
  within the minute padded to two digits. `%d` and `%02d` are modelled as
  functions on `nat` (`Decimal`, `PadTwo`). A reader, `ParseTime`, gives the
  round trip.
- `PlaybackModel` covers the activity's event rules as a state machine over
  values. The engine (a `MediaPlayer`) is opaque, so a `Session` holds only
  its position, duration and playing flag. The views are the `Ui` record
  (`progress`, `max`, `currentLabel`, `totalLabel`). Queued runs of the
  progress task are a count, because posting the same task twice queues it
  twice. `Step` gives the effect of one event and `Run` the effect of a
  sequence of events. An event the platform would not deliver has no effect.
  Examples are a click before the listeners are wired, a run of the task
  that was never queued, or anything after teardown. The lemmas state the
  rules for the task, seeking, stopping, readiness and teardown, and an
  invariant of every reachable state.
- `App` holds the class `MainActivity`, with the activity's fields and one
  method per callback. Each method moves `Snapshot()` by exactly one `Step`.
  Each method also states its effect on the fields directly.

Three behaviours of the code deserve a note:

- The stop button calls `stop()` on the old engine and never `release()`,
  then creates a new engine. Every stop therefore leaves one engine
  unreleased: `created` and `released` count engines, and
  `StopLeavesReplacedEngineUnreleased` shows that create, stop, destroy
  creates two engines and releases one.
- The prepared listener is attached only to the engine made in `onCreate`.
  The engine made by stop carries no prepared listener, so `max` is never
  set again. Stop writes the total label at once from the new engine's
  duration.
- The code does not clamp a seek itself. It relies on the seek bar, which
  reports user changes only within `[0, max]` (`Delivered`). The engine
  never moves past its own end, whether it seeks or plays on (`SeekTarget`),
  so its position always lies within `[0, duration]` (`Inv`).

## Model

| member | source | states |
|---|---|---|
| `TimeFormat.Decimal` | app/src/main/java/com/example/appmussic/MainActivity.kt:110 | `%d` of a non-negative number is all digits, reads back as the number, has one digit exactly below 10, and has no leading zero unless the number is 0 |
| `TimeFormat.PadTwo` | app/src/main/java/com/example/appmussic/MainActivity.kt:110 | `%02d` is all digits and reads back as the number; it is exactly two characters below 100, and from 10 on it is the unpadded numeral |
| `TimeFormat.ToMinutes` | app/src/main/java/com/example/appmussic/MainActivity.kt:108 | the whole minutes `m` of a count are rounded down: `m * 60000 <= ms < (m + 1) * 60000` |
| `TimeFormat.ToSeconds` | app/src/main/java/com/example/appmussic/MainActivity.kt:109 | the whole seconds `s` of a count are rounded down: `s * 1000 <= ms < (s + 1) * 1000` |
| `TimeFormat.MinutesOfSeconds` | app/src/main/java/com/example/appmussic/MainActivity.kt:108-109 | whole minutes of a millisecond count equal its whole seconds divided by 60 |
| `TimeFormat.Fields` | app/src/main/java/com/example/appmussic/MainActivity.kt:108-109 | the seconds field is below 60, and minutes * 60 + seconds is the count's whole seconds |
| `TimeFormat.FormatTimeShape` | app/src/main/java/com/example/appmussic/MainActivity.kt:107-111 | the label has a colon as its third-last character; before it are canonical decimal digits worth `ms / 60000`; after it are exactly two digits worth `(ms / 1000) % 60` |
| `TimeFormat.ParseFormatTime` | app/src/main/java/com/example/appmussic/MainActivity.kt:106-111 | reading a label back gives the minutes and seconds of its count, and the seconds are at most 59 |
| `TimeFormat.FormatTimeSameIff` | app/src/main/java/com/example/appmussic/MainActivity.kt:108-110 | two counts get the same label if and only if they have the same whole seconds |
| `TimeFormat.FormatTimeTruncates` | app/src/main/java/com/example/appmussic/MainActivity.kt:108-109 | the sub-second part is truncated: `formatTime(ms) == formatTime(ms - ms % 1000)` |
| `TimeFormat.FieldsOfClock` | app/src/main/java/com/example/appmussic/MainActivity.kt:108-110 | every minute count, however large, and every second below 60 is shown, as `Decimal(m) + ":" + PadTwo(s)` |
| `TimeFormat.FormatTimeExamples` | app/src/main/java/com/example/appmussic/MainActivity.kt:106-111 | `formatTime(0) == "0:00"`, `formatTime(59000) == "0:59"`, `formatTime(65000) == "1:05"` |
| `PlaybackModel.FreshSession` | app/src/main/java/com/example/appmussic/MainActivity.kt:58 | a newly created engine (lines 58 and 80) is at position 0, not playing, and as long as the resource |
| `PlaybackModel.SeekTarget` | app/src/main/java/com/example/appmussic/MainActivity.kt:93 | the engine lands on the requested position when it is within its length, and never past its end |
| `PlaybackModel.Delivered` | app/src/main/java/com/example/appmussic/MainActivity.kt:45-120 | nothing reaches a torn-down activity with nothing queued; clicks, seek-bar reports and readiness need the listeners wired in onCreate; a task run needs a queued post; user seek-bar changes lie within `[0, max]` |
| `PlaybackModel.Step` | app/src/main/java/com/example/appmussic/MainActivity.kt:31-120 | the resource never changes; engine counters grow by at most one; an undelivered event does nothing; task runs, readiness, teardown and programmatic bar changes never touch the engine; play, pause, create, teardown and engine events never touch the views |
| `PlaybackModel.StepInv` | app/src/main/java/com/example/appmussic/MainActivity.kt:31-120 | every event keeps the invariant: the engine's position lies within its length, a playing engine has its task queued, nothing is queued after teardown, an engine exists once created, and only the engine current at teardown is released, once |
| `PlaybackModel.RunInv` | app/src/main/java/com/example/appmussic/MainActivity.kt:31-120 | every sequence of events keeps that invariant |
| `PlaybackModel.TickReschedulesIffPlaying` | app/src/main/java/com/example/appmussic/MainActivity.kt:33-41 | a run of the task queues itself again if and only if an engine exists and plays; otherwise only the queue shrinks; when it plays, progress and current label show the engine's position |
| `PlaybackModel.IdleDisplayFrozen` | app/src/main/java/com/example/appmussic/MainActivity.kt:33-41 | while the engine does not play, any number of task runs and engine events change neither the views nor the engine |
| `PlaybackModel.PauseFreezesDisplay` | app/src/main/java/com/example/appmussic/MainActivity.kt:73-75 | after pause, the views stay as they were and the engine stays at its position, whatever task runs follow |
| `PlaybackModel.IdleTicksDrain` | app/src/main/java/com/example/appmussic/MainActivity.kt:33-41 | with the engine not playing, each of `n` task runs removes one queued run |
| `PlaybackModel.DisplayNeverGoesBack` | app/src/main/java/com/example/appmussic/MainActivity.kt:36-37 | between clicks the shown progress never decreases and never passes the engine's position, which stays within its length |
| `PlaybackModel.SeekOnlyFromUser` | app/src/main/java/com/example/appmussic/MainActivity.kt:90-95 | a user change within the bar's range moves the engine to `progress` (or to its end, if `progress` passes it) and sets the label to `formatTime(progress)`; a programmatic change moves only the bar |
| `PlaybackModel.StopResets` | app/src/main/java/com/example/appmussic/MainActivity.kt:78-84 | stop shows progress 0 and `"0:00"`, installs an engine at 0, not playing and as long as the resource, shows its duration as total, keeps `max`, and a later readiness report changes nothing |
| `PlaybackModel.PreparedPublishesDuration` | app/src/main/java/com/example/appmussic/MainActivity.kt:61-64 | the first engine's readiness sets `max` to its duration and the total label to its formatted duration |
| `PlaybackModel.StopStep` | app/src/main/java/com/example/appmussic/MainActivity.kt:78-84 | stop changes exactly the engine, the listener flag, the creation count, the progress and the two labels, and nothing else |
| `PlaybackModel.DestroyIsFinal` | app/src/main/java/com/example/appmussic/MainActivity.kt:114-120 | teardown empties the queue, releases the engine exactly when one exists, and no later event changes anything |
| `PlaybackModel.StopLeavesReplacedEngineUnreleased` | app/src/main/java/com/example/appmussic/MainActivity.kt:78-84 | create, stop, destroy creates two engines and releases one |
| `App.MainActivity.constructor` | app/src/main/java/com/example/appmussic/MainActivity.kt:14-28 | the activity starts with no engine, nothing queued and the views as laid out |
| `App.MainActivity.OnCreate` | app/src/main/java/com/example/appmussic/MainActivity.kt:57-64 | creates an engine at the start of the resource, not playing, carrying the prepared listener |
| `App.MainActivity.OnPrepared` | app/src/main/java/com/example/appmussic/MainActivity.kt:61-64 | with the listener attached, `max` and the total label get the engine's duration; otherwise nothing changes |
| `App.MainActivity.PlayClicked` | app/src/main/java/com/example/appmussic/MainActivity.kt:67-70 | the engine plays and one more run of the task is queued |
| `App.MainActivity.PauseClicked` | app/src/main/java/com/example/appmussic/MainActivity.kt:73-75 | the engine stops playing at the same position; the queue is untouched |
| `App.MainActivity.StopClicked` | app/src/main/java/com/example/appmussic/MainActivity.kt:78-84 | a new engine without listener replaces the old, which is not released; progress 0, label `"0:00"`, total label from the new engine, `max` unchanged |
| `App.MainActivity.OnProgressChanged` | app/src/main/java/com/example/appmussic/MainActivity.kt:90-95 | the bar shows `p`; from the user, the engine seeks to `p` (up to its end) and the label shows `formatTime(p)`; otherwise engine and label are unchanged |
| `App.MainActivity.UpdateSeekBarRun` | app/src/main/java/com/example/appmussic/MainActivity.kt:31-43 | the queue keeps its length if and only if an engine exists and plays; then the bar and label show the engine's position; otherwise only the queue shrinks; the engine is never touched |
| `App.MainActivity.OnDestroy` | app/src/main/java/com/example/appmussic/MainActivity.kt:114-120 | the queue is emptied and the engine, if one exists, is released once |
| `App.MainActivity.EngineAdvanced` | app/src/main/java/com/example/appmussic/MainActivity.kt:36 | the engine's position, which the task reads, moves forward only while it plays, and never past its end |
| `App.MainActivity.EngineCompleted` | app/src/main/java/com/example/appmussic/MainActivity.kt:33 | a playing engine that reaches the end stops there, at its duration, so the task stops requeuing; an idle engine is unchanged |

## Left out

- Audio decoding and output, and the engine's own behaviour (creation,
  preparation, accuracy of `seekTo`, restarting from the beginning when play
  is pressed after the end): the engine is external. The model sees only
  position, duration and playing. Its clock is the `Advance` and `Complete`
  events, which the activity does not issue. How far it plays between two
  runs of the progress task is left free.
- The real one-second delay of the progress task and the handler's timing:
  a run of the task is one atomic step.
- Layout inflation, view lookup and resource identifiers: the initial views
  come from the constructor's `layout` argument. The audio resource is
  represented only by its duration.
- The seek bar clamping a programmatic progress to its `[0, max]` range,
  and the change report such a clamp can raise: this is view behaviour. The
  model sets progress to the engine's position as the code writes it.
- Negative millisecond counts for `formatTime`: the activity never passes
  one, so the model is on `nat`.
- `String.format` uses the default locale, which may print non-ASCII
  digits: the model prints ASCII digits.
- A resource that fails to load: the code has no handling for it, and the
  model has none either.
