# Interval workout timer — a verified Dafny model

This project models the core of a browser interval-training timer. A
workout is a list of *round groups*; each group has a number of rounds, a
work length and an optional pause length. The timer does four things:

- It expands a workout into a *timeline*: one 5-second countdown, then a
  work phase for every round, each followed by a pause when the group's
  pause is positive.
- A *timer engine* runs through the timeline one animation frame at a
  time. It gives a five-second lookahead cue once per phase, a tone and a
  pulse at every phase boundary, and an announcement at the end. The user
  can start, pause, resume and reset it.
- Spoken cues go through a *speech service*. It keeps a single-flight FIFO
  queue of messages, discovers voices asynchronously with a timeout
  fallback, and picks a voice by a fixed priority policy.
- The application keeps the configuration being edited and the audio
  switches. It also keeps a list of at most five *saved configurations* in
  local storage.

Each source file is one module:

| module | file | source |
|---|---|---|
| `Types` | `types.dfy` | `src/lib/types.ts` |
| `Timeline` | `timeline.dfy` | `buildTimeline` in `src/lib/timer.svelte.ts` |
| `Engine` | `engine.dfy` | `createTimerEngine` in `src/lib/timer.svelte.ts` |
| `Voice` | `voice.dfy` | `src/lib/VoiceNotification.svelte.ts` |
| `Format` | `format.dfy` | `formatTime`, `formatDuration` in `src/lib/utils.ts` |
| `Persistence` | `persistence.dfy` | `src/lib/persistence.ts` |
| `AppState` | `appstate.dfy` | `src/lib/state.svelte.ts` |
| `Text` | `text.dfy` | the JavaScript string behaviour the others rely on |

Code that changes state is modelled as classes with methods:

- `Engine.TimerEngine`;
- `Voice.VoiceNotificationService`;
- `Persistence.Store`, the local-storage slot;
- `AppState.GlobalState`.

Each of these methods is tied, in its `ensures`, to a pure specification:

- The engine's methods leave `Snapshot()` equal to a step function
  (`StartStep`, `PauseStep`, `ResumeStep`, `ResetStep`, `TickStep`) of the
  old snapshot. Their cue log grows by exactly the step's cues. The lemmas
  state what the source promises about those step functions. The engine
  invariant `Consistent` (the class's `Valid()`) is established by the
  constructor and preserved by every public method: `Start`, `Pause`,
  `Resume`, `Reset`, `Tick`, `UpdateSettings` and `Cleanup`. The internal
  steps `SetStateFromItem`, `CancelLoop`, `Account`, `WarnIfDue` and
  `Advance` are specified by their step functions only; `Tick`, which
  runs them in sequence, carries the invariant across them.
- `BuildTimeline` builds the list with the source's nested loops and
  returns exactly the `Timeline(cfg)` function. The shape lemmas are
  proved about that function.
- The speech queue's drain loop equals the pure `Drain` function of the
  old queue. `DrainIsFifo` states the FIFO property of `Drain`.

Platform calls are modelled as values. The animation-frame handle is a
`running` flag, and `Tick(now)` is called by whoever owns the clock. Calls
on the speech engine, tone generator and vibration motor are appended to a
log (`calls`, `cues`). Voice lists, clock readings and the presence of a
window or speech engine are parameters.

Numbers follow JavaScript where it matters:

- seconds and millisecond timestamps are `real`;
- rounds, group and item indices, and the clock reading a saved id is made from (`idTime`) are integers; the ids of groups and saved configurations are strings, as declared;
- `%` on possibly negative numbers is JavaScript's truncating remainder
  (`Format.JsRemainder`);
- `Math.ceil` is written out (`Format.Ceil`); `Math.floor(seconds / 60)` is Dafny's `/`, which rounds down for the positive divisor 60;
- `String.prototype.trim` removes the full ECMAScript whitespace and line
  terminator set (`Text.IsTrimmable`).

## Model

| member | source | states |
|---|---|---|
| Types.StatusIsOneOfSix | src/lib/types.ts:14 | the status is exactly one of idle, countdown, work, pause, paused, complete; `prevStatus` can only name a phase, by its type |
| Text.NatToString | src/lib/utils.ts:19 | `toString` of a natural number is a non-empty digit string with no leading zero |
| Text.IntToString | src/lib/utils.ts:26-28 | the printed form of an integer: for i >= 0 canonical digits reading back to i, for i < 0 a '-' followed by canonical digits reading back to -i |
| Text.NatToStringValue | src/lib/utils.ts:19 | printing a natural number is lossless: its digits read back to it |
| Text.PadStart2 | src/lib/utils.ts:19 | `padStart(2, '0')` gives length max(2, n), keeps the string as its suffix and fills only with zeros |
| Text.PadStart2Value | src/lib/utils.ts:19 | padding a digit string keeps its value |
| Text.IncludesMeansOccurs | src/lib/VoiceNotification.svelte.ts:102 | `includes` holds exactly when the part occurs at some position |
| Text.TrimStart | src/lib/state.svelte.ts:25 | leading whitespace only is removed, and the result does not start with whitespace |
| Text.TrimEnd | src/lib/state.svelte.ts:25 | trailing whitespace only is removed, and the result does not end with whitespace |
| Text.TrimCuts | src/lib/state.svelte.ts:25 | `trim` is the slice of the input between a whitespace-only head and a whitespace-only tail |
| Text.TrimSpec | src/lib/state.svelte.ts:25-26 | `trim` yields a contiguous piece of the input with only whitespace cut on either side, and it neither starts nor ends with whitespace |
| Text.TrimEmptyIff | src/lib/state.svelte.ts:25 | a name trims to the empty string exactly when it is all whitespace |
| Timeline.BuildTimeline | src/lib/timer.svelte.ts:25-41 | the nested push loops build exactly the timeline `Timeline(cfg)` |
| Timeline.RoundsUpToAt | src/lib/timer.svelte.ts:31-37 | k rounds emit k or 2k items, alternating work r / pause r with rounds numbered from 1 |
| Timeline.GroupLengthIsRounds | src/lib/timer.svelte.ts:31-37 | a group contributes rounds + (pause > 0 ? rounds : 0) items, in that closed form |
| Timeline.GroupsUpToLength | src/lib/timer.svelte.ts:30-38 | the groups contribute the sum of their lengths |
| Timeline.GroupsUpToAt | src/lib/timer.svelte.ts:30-38 | the j-th item of group gi sits at the group's offset plus j |
| Timeline.LengthUpToMonotone | src/lib/timer.svelte.ts:30-38 | group offsets never decrease |
| Timeline.TimelineLength | src/lib/timer.svelte.ts:28-38 | the timeline length is 1 + the sum over groups of rounds + (pause > 0 ? rounds : 0) |
| Timeline.TimelineAt | src/lib/timer.svelte.ts:28-38 | the item of group gi at position j is the closed-form item for (gi, j) |
| Timeline.Locate | src/lib/timer.svelte.ts:30-38 | every position after the countdown falls in some group at some offset |
| Timeline.LocateUnique | src/lib/timer.svelte.ts:30-38 | that group and offset are unique |
| Timeline.TimelineLocate | src/lib/timer.svelte.ts:28-38 | every item after the countdown is the closed-form item of its group and offset |
| Timeline.CountdownOnlyFirst | src/lib/timer.svelte.ts:25-41 | the first item is the countdown (group 0, round 0, 5 s) and no other item is a countdown |
| Timeline.ItemsBelongToGroups | src/lib/timer.svelte.ts:30-37 | each later item names an existing group and one of its rounds 1..rounds and carries its work or (positive) pause length |
| Timeline.WorkThenPause | src/lib/timer.svelte.ts:32-36 | work (gi, r) is immediately followed by pause (gi, r) when the pause is positive, otherwise by a work item or the end |
| Timeline.WorkFollowedByPause | src/lib/timer.svelte.ts:32-36 | in a group with a positive pause, the item after work (gi, r) is pause (gi, r) with the group's pause length |
| Timeline.WorkFollowedByWork | src/lib/timer.svelte.ts:32-36 | in a group without a pause, the item after a work item, when there is one, is again a work item |
| Timeline.SameBlock | src/lib/timer.svelte.ts:30-38 | two (group, offset) positions that give the same timeline index are equal |
| Timeline.GroupsInOrder | src/lib/timer.svelte.ts:30-31 | groups appear in order and rounds ascend inside a group |
| Timeline.BlockOrder | src/lib/timer.svelte.ts:30-31 | an earlier timeline index lies in an earlier group, or earlier in the same group |
| Timeline.RoundsGrow | src/lib/timer.svelte.ts:31-36 | inside one group's block the round number never decreases |
| Timeline.DurationsNonNegative | src/lib/timer.svelte.ts:28-36 | with non-negative work and pause lengths every item's duration is non-negative (`AllDurationsNonNegative`, the fact the engine invariant relies on) |
| Timeline.ScenarioTimelines | src/lib/timer.svelte.ts:25-41 | 2 rounds of 30/10 give countdown, work, pause, work, pause; 1 round of 20/0 gives countdown, work |
| Engine.InitialConsistent | src/lib/timer.svelte.ts:43-59 | a new engine is idle at index 0 with a stopped loop and satisfies the engine invariant |
| Engine.StartWithoutGroups | src/lib/timer.svelte.ts:116 | `start` on a configuration without groups changes nothing and emits nothing |
| Engine.StartBeginsCountdown | src/lib/timer.svelte.ts:115-126 | otherwise: index 0, countdown with 5 s, round 1, group 0, no time elapsed, warning cleared, loop running, "Starting workout" only with sound |
| Engine.StartConsistent | src/lib/timer.svelte.ts:115-126 | `start` preserves the engine invariant |
| Engine.PauseGuard | src/lib/timer.svelte.ts:135-143 | `pause` acts exactly on countdown/work/pause: records that phase, shows paused, stops the loop; times, group, round and index unchanged |
| Engine.ResumeGuard | src/lib/timer.svelte.ts:145-154 | `resume` acts exactly when paused with time left: restores the recorded phase (work if none), clears the record, restarts the loop with a fresh time reference |
| Engine.PauseResumeRoundTrip | src/lib/timer.svelte.ts:137-153 | pause then resume restores the running phase and all times and positions; with no time left the engine stays paused |
| Engine.PauseConsistent | src/lib/timer.svelte.ts:135-143 | `pause` preserves the engine invariant |
| Engine.ResumeConsistent | src/lib/timer.svelte.ts:145-154 | `resume` preserves the engine invariant |
| Engine.ResetIsIdle | src/lib/timer.svelte.ts:156-169 | `reset` yields idle, group 0, round 1, no remaining or elapsed time, index 0, no record, loop stopped, timeline rebuilt |
| Engine.TickTime | src/lib/timer.svelte.ts:69-75 | a frame adds exactly its delta to the elapsed total, the first frame of a run has delta 0, and the elapsed total never decreases while the clock does not |
| Engine.TickAdvance | src/lib/timer.svelte.ts:92-110 | a frame advances at most one item, exactly when the phase has run out; the next item's full duration is installed (overshoot dropped) and its warning re-armed; past the last item the workout completes with 0 remaining and the loop stops |
| Engine.TickRemainingNonNegative | src/lib/timer.svelte.ts:74-110 | with non-negative durations the remaining time is never negative after a frame |
| Engine.TickCues | src/lib/timer.svelte.ts:77-110 | a frame emits the lookahead cue when it fires, then the boundary tone and pulse, or the completion announcement and pattern, in that order |
| Engine.WarningAtMostOncePerPhase | src/lib/timer.svelte.ts:61-90 | once the warning fired it cannot fire again on the same item; the flag is cleared only by moving to a new item |
| Engine.WarningCueContent | src/lib/timer.svelte.ts:82-89 | "Rest in 5 seconds" only from work into a pause, "Work in 5 seconds" only from a pause or the countdown into work, speech only with sound; the [50, 40] pattern whenever vibration is on |
| Engine.TickConsistent | src/lib/timer.svelte.ts:69-113 | a frame preserves the engine invariant |
| Engine.CompleteIsTerminal | src/lib/timer.svelte.ts:95-102 | a completed engine is not running and pause and resume leave it unchanged |
| Engine.TimerEngine.constructor | src/lib/timer.svelte.ts:43-59 | the engine starts idle, round 1, index 0, timeline built, loop stopped, with the given settings |
| Engine.TimerEngine.SetStateFromItem | src/lib/timer.svelte.ts:61-67 | the snapshot shows the item (round 0 shown as 1) and the warning is re-armed |
| Engine.TimerEngine.CancelLoop | src/lib/timer.svelte.ts:128-133 | the loop stops and nothing else changes |
| Engine.TimerEngine.Cleanup | src/lib/timer.svelte.ts:179 | `cleanup` is `cancelLoop` and keeps the invariant |
| Engine.TimerEngine.Account | src/lib/timer.svelte.ts:70-75 | the time accounting of a frame |
| Engine.TimerEngine.WarnIfDue | src/lib/timer.svelte.ts:77-90 | the five-second warning of a frame |
| Engine.TimerEngine.Advance | src/lib/timer.svelte.ts:92-110 | the move to the next item or to completion |
| Engine.TimerEngine.Tick | src/lib/timer.svelte.ts:69-113 | a frame is `TickStep`; the invariant holds; the engine is then in a phase or complete, and complete exactly when the loop stopped |
| Engine.TimerEngine.Start | src/lib/timer.svelte.ts:115-126 | `start` is `StartStep` and keeps the invariant |
| Engine.TimerEngine.Pause | src/lib/timer.svelte.ts:135-143 | `pause` is `PauseStep` and keeps the invariant |
| Engine.TimerEngine.Resume | src/lib/timer.svelte.ts:145-154 | `resume` is `ResumeStep` and keeps the invariant |
| Engine.TimerEngine.Reset | src/lib/timer.svelte.ts:156-169 | `reset` is `ResetStep` and keeps the invariant |
| Engine.TimerEngine.UpdateSettings | src/lib/timer.svelte.ts:182-185 | later cues follow the new switches; nothing else changes |
| Voice.Find | src/lib/VoiceNotification.svelte.ts:92-106 | `find` returns nothing iff no voice matches, otherwise the first match |
| Voice.GetBestVoice | src/lib/VoiceNotification.svelte.ts:86-108 | nothing iff there are no voices; otherwise a listed voice: first exact name match, else first preferred-language match, else first "Google US English", else first English, else the first voice |
| Voice.CountdownTextReadsBack | src/lib/VoiceNotification.svelte.ts:177-178 | the announcement is "Work in " or "Rest in ", the digits of exactly the given seconds, then " seconds" |
| Voice.Drain | src/lib/VoiceNotification.svelte.ts:111-118 | the drain never makes the queue longer |
| Voice.DrainIsFifo | src/lib/VoiceNotification.svelte.ts:111-118 | the drain starts the oldest non-empty message, drops exactly the empty ones before it and keeps the rest in order; with none, the queue ends empty |
| Voice.VoiceNotificationService.constructor | src/lib/VoiceNotification.svelte.ts:29-52 | voices are marked ready at start exactly when a window and speech engine exist and report voices; otherwise both load listeners are armed |
| Voice.VoiceNotificationService.ClearLoadListeners | src/lib/VoiceNotification.svelte.ts:70-79 | both load listeners are released and nothing else changes |
| Voice.VoiceNotificationService.SpeakInternal | src/lib/VoiceNotification.svelte.ts:120-153 | before voices are loaded or while speaking the message joins the queue tail; otherwise exactly it starts (cancel, then speak with the preferred rate, pitch, volume and best voice) |
| Voice.VoiceNotificationService.ProcessPendingQueue | src/lib/VoiceNotification.svelte.ts:111-118 | the drain loop equals `Drain` of the old queue, so at most one message starts |
| Voice.VoiceNotificationService.OnUtteranceDone | src/lib/VoiceNotification.svelte.ts:141-150 | completion or error clears the speaking flag and starts the oldest waiting message |
| Voice.VoiceNotificationService.OnVoicesChanged | src/lib/VoiceNotification.svelte.ts:54-61 | only a non-empty list marks voices ready, clears both listeners and drains the queue |
| Voice.VoiceNotificationService.OnLoadTimeout | src/lib/VoiceNotification.svelte.ts:63-68 | the timeout marks voices ready even with an empty list, clears both listeners and drains the queue |
| Voice.VoiceNotificationService.Speak | src/lib/VoiceNotification.svelte.ts:155-172 | `immediate` cancels and empties the queue first; supplied rate, pitch and volume overwrite the stored ones; then the message is spoken or queued |
| Voice.VoiceNotificationService.SpeakAtCountdown | src/lib/VoiceNotification.svelte.ts:174-180 | nothing for a non-positive count or without a window and speech engine; otherwise "Work/Rest in N seconds" is queued (nothing else changes) or spoken (queue kept, speaking); preferences, voices and listener flags never change |
| Voice.VoiceNotificationService.SetVoicePreferences | src/lib/VoiceNotification.svelte.ts:182-184 | supplied fields replace the stored ones, the others stay |
| Voice.VoiceNotificationService.IsReady | src/lib/VoiceNotification.svelte.ts:190-193 | ready equals voices loaded |
| Voice.VoiceNotificationService.Cancel | src/lib/VoiceNotification.svelte.ts:195-200 | the queue ends empty and nothing is speaking |
| Voice.VoiceNotificationService.Cleanup | src/lib/VoiceNotification.svelte.ts:81-84 | cancel, then release the load listeners: queue empty, not speaking, both listeners cleared; voices, their loaded flag and preferences kept |
| Format.Ceil | src/lib/utils.ts:16 | `Math.ceil`: the least integer not below the input |
| Format.ClockValue | src/lib/utils.ts:16 | the shown whole seconds: 0 for non-positive input, otherwise the input rounded up |
| Format.FormatTime | src/lib/utils.ts:15-20 | a non-positive time shows "00:00" |
| Format.ShortNumber | src/lib/utils.ts:18-19 | a value below 100 prints in at most two digits |
| Format.FormatTimeReadsBack | src/lib/utils.ts:16-19 | the output is minutes, ':', seconds; the minutes field has at least two digits and a leading zero only when padded to two, the seconds field exactly two with value below 60, and minutes*60 + seconds == max(0, ceil(x)) |
| Format.HundredMinutes | src/lib/utils.ts:19 | 6000 s shows "100:00": the minutes field is never cut |
| Format.JsRemainder | src/lib/utils.ts:24 | JavaScript `%` is the remainder of division rounded toward zero, with the sign of the dividend |
| Format.FormatDuration | src/lib/utils.ts:22-28 | always ends in "s", and below one minute shows no minutes field; fully specified by `Format.FormatDurationReadsBack` and `Format.FormatDurationNegative`: "{m}m {s}s" from 60 s on, otherwise "{s}s", with JavaScript's truncating remainder |
| Format.FormatDurationReadsBack | src/lib/utils.ts:22-28 | for n >= 0 the minutes field is shown exactly from 60 s on, neither field is padded, the seconds field is below 60, and minutes*60 + seconds == n |
| Format.FormatDurationNegative | src/lib/utils.ts:23-28 | below zero no minutes are shown and the seconds are the truncated remainder, between -59 and 0 |
| Persistence.LoadConfigs | src/lib/persistence.ts:24-37 | the stored list, or nothing without a window, with nothing stored, with a non-array or with unparsable data |
| Persistence.SavedList | src/lib/persistence.ts:16-18 | the new entry first, then the previous entries in order, cut to min(n+1, 5) |
| Persistence.WithoutId | src/lib/persistence.ts:41 | an order-preserving subsequence in which every entry with another id keeps all its copies and no entry with the id remains |
| Persistence.FindById | src/lib/persistence.ts:48 | the first entry with the id, or none iff no entry has it |
| Persistence.SaveConfig | src/lib/persistence.ts:6-22 | the returned and stored list is `SavedList` of the loaded one with an entry whose id is the clock's decimal form; without storage the write fails and nothing is stored |
| Persistence.DeleteConfig | src/lib/persistence.ts:39-44 | the returned and stored list is the loaded one without the id |
| Persistence.LoadConfigById | src/lib/persistence.ts:46-50 | the configuration of the first entry with the id, none iff there is no such entry; the store is only read |
| Persistence.SavedIsFound | src/lib/persistence.ts:9-16 | the entry just saved is the first found by its id |
| Persistence.SaveKeepsOrder | src/lib/persistence.ts:16-18 | previous entries move one place back, in order |
| Persistence.SaveIsBounded | src/lib/persistence.ts:4-18 | never more than five entries; under five nothing is dropped |
| Persistence.DeletedIsGone | src/lib/persistence.ts:41 | after a delete no entry with that id is found |
| Persistence.DeleteIdempotent | src/lib/persistence.ts:41 | deleting twice is deleting once |
| Persistence.EntryForIsFound | src/lib/persistence.ts:48-49 | the entry `find` returns is the one at the first position with that id, and none when there is none |
| Persistence.DeleteKeepsOthers | src/lib/persistence.ts:39-49 | a delete does not change which entry another id finds |
| Persistence.Store.constructor | src/lib/persistence.ts:28 | a storage slot with the given contents |
| AppState.Merge | src/lib/state.svelte.ts:21 | supplied switches override, the others are kept |
| AppState.MergeLaws | src/lib/state.svelte.ts:21 | merging twice equals merging once; an empty partial, or the current values, change nothing |
| AppState.SaveGuard | src/lib/state.svelte.ts:25 | a save goes ahead exactly when the name is not all whitespace and there is a group |
| AppState.GlobalState.constructor | src/lib/state.svelte.ts:5-14 | no groups, sound on, vibration off, saved list as stored |
| AppState.GlobalState.UpdateConfig | src/lib/state.svelte.ts:16-18 | the configuration is replaced, nothing else changes |
| AppState.GlobalState.UpdateSettings | src/lib/state.svelte.ts:20-22 | the settings become the merge of the old ones and the partial |
| AppState.GlobalState.SaveCurrentConfig | src/lib/state.svelte.ts:24-28 | nothing happens for a blank name or no groups; otherwise the configuration is stored under the trimmed name and the list is reread |
| AppState.GlobalState.DeleteSavedConfig | src/lib/state.svelte.ts:30-33 | the saved list equals the store, which holds no entry with that id |
| AppState.GlobalState.LoadSavedConfig | src/lib/state.svelte.ts:35-43 | true and that entry's configuration made current exactly when an entry with the id exists; otherwise false and unchanged |

## Left out

- `src/lib/audio.ts` is not part of this model. It holds the Web Audio tone, the `AudioContext` lifecycle and the `navigator.vibrate` wrapper, which are platform calls. The engine records `playBeep` and `vibrate` as `Beep` and `Vibrate` cues.
- `requestAnimationFrame` and `cancelAnimationFrame` become the `running` flag. A frame is an explicit `Tick(now)` call, allowed only while `running`. The frame handle's value is not modelled.
- `Engine.TimerEngine.Start`: calling `start` while the loop runs requests a second animation frame without cancelling the first. The source then runs two frame chains. One flag cannot express this, so the model has a single loop.
- The engine keeps the configuration it was created with. In the source, `cfg` is an object reference that callers may mutate between `start` and `reset`; the model cannot mutate it.
- `engine.settings` aliasing and the `engine.config` field are not modelled; only `settingsRef` is.
- `pausedPrevStatus` in `src/lib/timer.svelte.ts` is left out. `pause` sets it to the current status and at once copies it into `state.prevStatus`, so the value read is always the status just saved, and the model writes that status to `prevStatus` directly. The write in `reset` is never read.
- Seconds and timestamps are exact reals, not IEEE doubles. With real arithmetic, rounding of the accumulated `totalElapsed` and `remainingSeconds` does not arise.
- Work and pause lengths are exact reals, so non-integer lengths are modelled. Rounds are integers: a non-integer round count is not modelled, and neither is `NaN` for any of the three. `Format.FormatDuration` takes whole seconds; the source would print fractional seconds with decimals.
- `Number.prototype.toString` is modelled for integers only: no exponent notation for very large values and no `-0`.
- `Voice.VoiceNotificationService.SpeakInternal` requires a speech engine. Its callers only run where one exists; elsewhere the platform call would throw, and that is not modelled.
- `Voice.VoiceNotificationService.Cancel`: with a window but no speech engine, the source's call throws. The model does nothing in that case.
- A late `onerror` that fires after `cancel` is treated as an ordinary `OnUtteranceDone`.
- `Voice.VoiceNotificationService.Speak` reads only `immediate`, `rate`, `pitch` and `volume` from its options, as the source does. Options given explicitly as `undefined` behave as absent everywhere, including in `setVoicePreferences`, where the source's object spread would store `undefined`.
- `AppState.Merge`: a switch given explicitly as `undefined` counts as not supplied, so the old value stays. The object spread in `updateSettings` (`src/lib/state.svelte.ts:21`) would store `undefined` instead.
- `getAvailableVoices` returns a copy of the voice list; it is a plain read and is not modelled.
- Console logging, the voices-changed callback registration and `setTimeout` are reduced to the flags `voicesChangedHandler` and `loadTimerArmed`. The timeout firing is the explicit `OnLoadTimeout` call.
- `JSON.stringify` and `JSON.parse` are taken as lossless for saved lists. Elements of a stored array are taken to be well-formed saved configurations.
- `Persistence.SaveConfig` and `Persistence.DeleteConfig`: without a window the source's `localStorage.setItem` throws. The model returns `None` with nothing written, and `AppState.GlobalState` then leaves its list unchanged.
- `src/lib/configSync.ts`, `src/hooks.server.ts`, `src/app.d.ts` and `tailwind.config.cjs` are not part of this model: network CRUD, server plumbing and configuration.
- `cn` and the type helpers in `src/lib/utils.ts` wrap styling libraries and type-level utilities.
- Svelte `$state` reactivity is treated as plain mutable fields.

