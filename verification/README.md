# Pomodoro timer with a task list, in Dafny

A model of the browser Pomodoro timer in `script.js`. Its parts are:

- the countdown engine, the `Timer` class;
- the session controller in `App`, which alternates study and break phases, counts finished study sessions, plays the ambient tracks and the gong, and applies new settings;
- the `MM:SS` face that `updateDisplay` writes;
- the task list and its copy in the browser's storage.

The clock, the DOM and the audio elements are replaced by explicit events and plain values:

- each firing of the one-second interval is a call of `Tick`;
- the 2-second delayed `playAudio` after a mode switch is a separate event, `AmbientDue`;
- the three audio elements are a value `Audio`: whether each ambient track plays, whether its position was put back to the start, and how many times the gong was started from the beginning.

Files, one module each:

- `clock.dfy` (`Clock`): the face text. Decimal digits (`Decimal`), `padStart(2, '0')` (`PadStart2`), the face `Format`, and a reader `Parse` that is its inverse. The facts about `Decimal` and `PadStart2` are lemmas (`DecimalShape`, `ValueOfDecimal`, `PaddedShape`) rather than postconditions, so that the handlers of `App`, whose invariant mentions the face, are not slowed down by them.
- `countdown.dfy` (`Countdown`): the `Timer` class. Its specification is the value `TimerState` with one function per method, and the iterated tick `Ticks`.
- `tasks.dfy` (`Tasks`): the task list as `seq<Todo>`. It has ECMAScript `trim`, add, toggle and delete, and the storage slot under the key `zenfocus_todos`.
- `pomodoro.dfy` (`Pomodoro`): the `App` class. Its specification is the value `Session` with one function per handler. There is also an event type with a dispatch function `Step`, a run function `Run`, and lemmas over runs.

Every method of the two classes states its new state as a function of its old state (`State() == old(State()).Tick()`). The properties are proved about those functions. `App.Valid()` keeps these facts between events:

- both settings are positive;
- the countdown is sized to the active mode and has time left;
- at most one ambient track plays;
- the face shows the count;
- the stored task list equals the shown one.

Behaviour of the code worth knowing, which the model keeps:

- `saveSettings` resets the countdown to the active mode's new duration whenever both values are positive. It does this even when only the other mode's value changed.
- `saveSettings` stops the countdown but does not pause the ambient track. A track can therefore keep playing while the countdown stands still. `Session.SaveSettings` leaves `audio` unchanged.
- `Timer` does not reject a non-positive duration. `reset(n)` ignores only a falsy `n`, and `reset` takes minutes. A negative `n` would give a negative duration, but the app never passes one.
- `start` does not look at the count. A finished timer that is started again goes to -1 on its next tick (`StartWhenFinished`). The app never starts a finished timer, because the completion callback resets it before any other event can run.

## Model

| member | source | states |
|---|---|---|
| `Countdown.Init` | script.js:2-5 | a new timer of `m` minutes has duration `60*m`, the full duration left, and is stopped |
| `Countdown.Timer.constructor` | script.js:2-9 | the constructed timer's state is `Init(minutes)` |
| `Countdown.TimerState.Start` | script.js:11-13 | start leaves the timer running, with duration and count unchanged; on a running timer it changes nothing |
| `Countdown.TimerState.Pause` | script.js:23-27 | pause leaves the timer stopped, with duration and count unchanged; on a stopped timer it changes nothing |
| `Countdown.TimerState.Reset` | script.js:29-36 | reset stops the timer and sets the count to the full duration; a falsy argument keeps the duration, any other `n` makes it `60*n` |
| `Countdown.TimerState.Tick` | script.js:14-19 | without an active interval nothing happens; otherwise the count drops by exactly one, the tick completes exactly when the count reaches zero or below, and a completed timer is stopped |
| `Countdown.Timer.Start` | script.js:11-21 | the timer's new state is `Start` of the old one |
| `Countdown.Timer.Pause` | script.js:23-27 | the timer's new state is `Pause` of the old one |
| `Countdown.Timer.Reset` | script.js:29-36 | the timer's new state is `Reset(newMinutes)` of the old one |
| `Countdown.Timer.Complete` | script.js:38-41 | complete pauses the timer; the completion callback runs after it, in the caller |
| `Countdown.Timer.Tick` | script.js:14-19 | the new state and the completion flag are those of `Tick` of the old state |
| `Countdown.StartPauseIdempotent` | script.js:11-13 | starting twice is starting once; pausing twice is pausing once |
| `Countdown.InitHealthy` | script.js:2-5 | a timer built from a positive number of minutes keeps the count between zero and the duration, with time left while running |
| `Countdown.StepsKeepHealthy` | script.js:11-36 | ticks, pauses, resets to a positive or absent duration, and starts with time left keep that invariant |
| `Countdown.StartWhenFinished` | script.js:11-19 | a finished timer that is started again shows -1 after its next tick |
| `Countdown.PausedTicksIdle` | script.js:23-27 | once paused, no number of ticks changes the timer or completes it |
| `Countdown.TicksCountDown` | script.js:14-19 | `n` ticks with more than `n` seconds left leave `remaining - n`, still running, with no completion |
| `Countdown.TicksCompleteOnce` | script.js:14-41 | after `remaining + k` ticks the count is exactly 0, the timer is stopped and the completion fired exactly once |
| `Clock.DecimalShape` | script.js:133 | `Decimal`, the `toString` of a count, is not empty, has no leading zero, is one character long exactly below 10 and at most two below 100 |
| `Clock.ValueOfDecimal` | script.js:133 | `Decimal` writes only digits, and they read back as the number written |
| `Clock.PaddedShape` | script.js:133 | `PadStart2`, the `padStart(2, '0')`, yields at least two characters and keeps the text as the tail, behind zeros only |
| `Clock.Format` | script.js:130-133 | the face is at least five characters with the colon third from the end, and exactly five below 100 minutes |
| `Clock.FormatFields` | script.js:130-133 | the face is a minutes field of at least two digits, a colon and a two-digit seconds field below 60, and `minutes*60 + seconds` is the remaining count |
| `Clock.FormatRoundTrip` | script.js:130-133 | reading the face back gives the remaining count |
| `Clock.FormatInjective` | script.js:130-133 | two different counts never show the same face |
| `Tasks.WhitespaceClasses` | script.js:215 | `IsWhitespace`, the set `trim` strips, holds of space, tab, the line breaks, the no-break space and the byte order mark, and of no visible ASCII character |
| `Tasks.TrimStart` | script.js:215 | the result is a suffix of the text, only white space was cut, and it does not start with white space |
| `Tasks.TrimEnd` | script.js:215 | the result is a prefix of the text, only white space was cut, and it does not end with white space |
| `Tasks.Trim` | script.js:215 | the result is empty or trimmed at both ends, and is a slice of the text with only white space around it |
| `Tasks.TrimEmptyIff` | script.js:215-216 | the text trims to nothing exactly when it is all white space |
| `Tasks.TrimIdempotent` | script.js:215 | trimming twice is trimming once |
| `Tasks.Add` | script.js:214-221 | the list is unchanged exactly when the input is all white space; otherwise the trimmed text is appended as an incomplete task; well-formed lists stay well-formed |
| `Tasks.Toggle` | script.js:231-234 | only the chosen task's flag flips; text, order and length are kept |
| `Tasks.Delete` | script.js:242-245 | the chosen task is removed, and the others keep their order |
| `Tasks.LoadAfterSave` | script.js:253-271 | `Load`, the read of the key, after a write of a list under it gives back the same tasks in the same order |
| `Pomodoro.Session.PlayAudio` | script.js:171-182 | nothing happens unless the countdown runs; otherwise exactly the active mode's track plays, it has left the start, the paused track keeps its position, and nothing else changes |
| `Pomodoro.Session.PauseAudio` | script.js:184-187 | both ambient tracks stop, positions kept |
| `Pomodoro.Session.ResetAudio` | script.js:189-192 | both ambient tracks go back to the start, playing state kept |
| `Pomodoro.Session.SwitchMode` | script.js:140-169 | the mode flips; the counter rises by one exactly when study ended; the timer runs at the new mode's full duration; the gong is cued once and one delayed `playAudio` is scheduled |
| `Pomodoro.Session.Tick` | script.js:14-19 | a stopped countdown is left alone; a running one loses one second, and nothing else changes; the second that takes it to zero stops it there and then switches the mode |
| `Pomodoro.Session.ToggleTimer` | script.js:111-121 | running and stopped swap with the count kept; afterwards exactly the active mode's track plays if running, and none if stopped; the paused track keeps its position; the gong and the scheduled delays are untouched |
| `Pomodoro.Session.ResetTimer` | script.js:123-128 | the countdown stops at the full duration, both tracks are silent and rewound, and the gong, mode and settings are untouched |
| `Pomodoro.Session.SaveSettings` | script.js:194-211 | unless both values are positive nothing changes; otherwise both settings are replaced and the countdown is reset, stopped, to the active mode's new duration |
| `Pomodoro.Session.AmbientDue` | script.js:166-168 | with nothing scheduled nothing happens; otherwise one scheduled `playAudio` is used up and `playAudio` runs; on a stopped countdown the audio is untouched, on a running one exactly the active mode's track plays; nothing but the audio and the schedule changes |
| `Pomodoro.Session.Step` | script.js:95-102 | the dispatch of the events: only the save button changes the settings, and only a second of the interval changes the mode or the counter |
| `Pomodoro.Initial` | script.js:73-91 | the page opens in study mode with 25 and 5 minutes, no session done, the countdown stopped at 1500 seconds, nothing playing or scheduled, and a consistent state |
| `Pomodoro.StepKeepsConsistent` | script.js:95-211 | every handler keeps positive settings, a countdown sized to the active mode with time left, and at most one ambient track playing |
| `Pomodoro.RunKeepsConsistent` | script.js:95-211 | any run of events keeps that invariant |
| `Pomodoro.StepCountsStudyEnds` | script.js:140-147 | one event raises the counter by one exactly when it takes the mode from study to break |
| `Pomodoro.RunCountsStudyEnds` | script.js:140-147 | over any run, the counter grows by exactly the number of study phases that ended |
| `Pomodoro.SwitchesAlternate` | script.js:140-165 | `n` switches alternate the modes strictly, and the counter grows by the study phases among them |
| `Pomodoro.PausedSecondsIdle` | script.js:111-115 | while the countdown is stopped, seconds change nothing |
| `Pomodoro.SecondsCountDown` | script.js:14-19 | seconds short of the count only count the timer down |
| `Pomodoro.SecondsReachSwitch` | script.js:14-19 | when the count runs out, the timer stops at zero and the mode switch happens exactly once |
| `Pomodoro.FirstSession` | script.js:73-169 | start at 25 minutes and let 1500 seconds pass: break mode, one session done, the 300-second countdown running |
| `Pomodoro.DelayedAmbientGuard` | script.js:166-182 | a pause during the delay keeps the ambient track from starting; without it the new mode's track starts and the other stops |
| `Pomodoro.App.constructor` | script.js:45-93 | the app starts in the initial state, with a consistent state, the face showing the count, and the stored tasks loaded |
| `Pomodoro.App.UpdateDisplay` | script.js:130-133 | the face text is `Format` of the count given |
| `Pomodoro.App.Tick` | script.js:14-19 | the new state is `Session.Tick` of the old, the invariant holds, and the tasks are untouched |
| `Pomodoro.App.SwitchMode` | script.js:140-169 | from the moment of completion, the new state is `Session.SwitchMode` of the old, and the invariant holds again |
| `Pomodoro.App.PlayAudio` | script.js:171-182 | the new state is `Session.PlayAudio` of the old |
| `Pomodoro.App.PauseAudio` | script.js:184-187 | the new state is `Session.PauseAudio` of the old |
| `Pomodoro.App.ResetAudio` | script.js:189-192 | the new state is `Session.ResetAudio` of the old |
| `Pomodoro.App.AmbientDue` | script.js:166-168 | the new state is `Session.AmbientDue` of the old, and the invariant holds |
| `Pomodoro.App.ToggleTimer` | script.js:111-121 | the new state is `Session.ToggleTimer` of the old, and the invariant holds |
| `Pomodoro.App.ResetTimer` | script.js:123-128 | the new state is `Session.ResetTimer` of the old, and the invariant holds |
| `Pomodoro.App.SaveSettings` | script.js:194-211 | accepted exactly when both values are positive; the new state is `Session.SaveSettings` of the old, and the invariant holds |
| `Pomodoro.App.AddTodo` | script.js:214-221 | the list becomes `Add(old list, input)`; a blank input writes nothing, otherwise only the list's key is rewritten |
| `Pomodoro.App.ToggleTodo` | script.js:231-234 | the list becomes `Toggle(old list, i)`, and only the list's key is rewritten |
| `Pomodoro.App.DeleteTodo` | script.js:242-245 | the list becomes `Delete(old list, i)`, and only the list's key is rewritten |
| `Pomodoro.App.SaveTodos` | script.js:253-262 | the whole list, in order, replaces what was stored under the key |
| `Pomodoro.App.LoadTodos` | script.js:264-271 | the tasks `Load` reads from the key are appended in their stored order, or none if nothing is stored |
| `Pomodoro.Reload` | script.js:92 | reopening the page over the same storage shows the same tasks in the same order |

## Left out

- DOM wiring: element lookup, event listeners, button labels, the settings dialog's visibility, mode and counter labels, and the list items' markup. The dialog closing on an accepted save is `SaveSettings`'s `accepted` result. Clearing the input box after an add is not modelled.
- The progress ring (`circumference`, `strokeDashoffset`). It is floating-point presentation.
- Wall-clock time. `setInterval` and `setTimeout` are replaced by the explicit `Tick` and `AmbientDue` events. A scheduled `playAudio` is a counter, `pendingAmbient`, so a delay cannot fire unless a switch scheduled it. Nothing constrains when it fires relative to other events.
- Audio playback failures. The `play()` promise rejections are caught and logged in the source, and the model treats every `play()` as succeeding. Audio positions are reduced to a "rewound and not moved since" flag per ambient track, and the gong to a count of plays from the start.
- `localStorage` and JSON. Storage is a map from keys to task lists, and serialising and parsing are the identity. Malformed stored data is not handled by the source and is not modelled.
- `parseInt` of the settings inputs. The settings arrive as integers, and `NaN` is not modelled.
- `Clock.Format`: takes a non-negative count. The JavaScript face of a negative count (`Math.floor` and `%` on -1) is not modelled, and the app never shows one.
- Integer width: JavaScript numbers are doubles, and the model uses unbounded integers. Counts beyond 2^53 seconds are not modelled: only a setting above about 1.5·10^14 minutes produces one, and past it `remaining--` no longer steps by exactly one (and from 10^21 minutes `toString` writes exponent notation).
