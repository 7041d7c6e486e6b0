# ESP32 remote-start controller, modelled in Dafny

The firmware drives a car's accessory (ACC), ignition (IG) and starter
relays, the door-lock solenoids, the hazard lights, an alarm output and an
"armed" indicator ("pesawat"). It takes commands from a BLE phone app, a
four-channel RF remote, a push button and a serial console. It is a single
`loop()` that polls timed state machines. This project models the logic of
that loop and of its components. Time is a `now: nat` parameter. Pin writes,
BLE notifications and component callbacks are an ordered list of
`Hw.Effect`s.

Two versions of the firmware are modelled side by side and not merged:

- **The live firmware (`src/`)**:
  - `Button`: the push-button start sequencer (ButtonTombol). It walks IDLE → ACC_WAIT → IG_WAIT → STARTER_ACTIVE → COUNTDOWN → IDLE, with a separate countdown deadline, 50 ms debouncing, a manual starter hold and the LED cadence.
  - `Door`: DoorControl. It covers the 600 ms lock/unlock pulses, the hazard choreographies, the alarm wave and the indicator blink.
  - `Warmup`: WarmUpEngine. It covers the clock-plausibility gate, the 15:31 daily trigger, the forced start, the pending starter shot and warm end.
  - `Remote`: the RX500 receiver's rising-edge detection.
  - `Rtc`: RTCModule's status machine, fall-backs and stamp parser.
  - `Text` and `Clock`: the string and stamp helpers.
  - `Arbiter`: the command arbiter of `main.cpp` (BLE dispatch, `resetAll` and its deferred phase, remote callbacks, the serial console, the `loop()` tick order), written as functions on a snapshot of the whole board.
- **The earlier snapshot (`backup/src/`)**:
  - `ButtonBackup`: its press-only sequencer.
  - `BackupRtc`: its clock module.
  - `BackupMain`: its `main.cpp`, with the inline lock pulse, blinkers, 08:00 daily warm-up and pending starters.

Every component whose source updates fields in place is a Dafny `class`
holding those fields:

- `Button.ButtonTombol`, `ButtonBackup.ButtonTombol`, `Door.DoorControl`, `Warmup.WarmUpEngine`, `Remote.RX500Module`, `Rtc.RTCModule` and `Store.Preferences`;
- `Controller.Firmware` (the globals of `src/main.cpp`) and `BackupBoard.Firmware` (those of `backup/src/main.cpp`).

Each method ensures that its new state and its effects are those of a pure
function of the old state. The properties are proved as lemmas about these
functions, and the class methods connect them to the code. The board
invariants are proved for every pass of `loop()`:

- `Arbiter.Inv`: the start stage machine of `loop()` is idle, the door keeps its pulse invariant, and main's engine flag is never on while the button's copy is off.
- `BackupMain.Inv`: the door keeps its pulse invariant, and the engine flag of the earlier `main.cpp` is never on while the button's copy is off.

Where the prose description of the system and the code disagree, the model
follows the code:

- Warm-up and `starter_on` do not release their starter pulse after one second. Nothing in `src/` clears `starterActive` at `starterEnd`, so STARTER stays high until `resetAll` or warm end. Only the earlier snapshot releases it.
- The start-trigger interlock's "start already pending" case is unreachable in `src/`. `startCarPending` is only ever set false, so the start-car stage block in `loop()` never runs.
- The live firmware's replies use spaces, not the colon prefixes: "IGNORED LOCK", "ENGINE ALREADY ON", and "UNKNOWN " followed by prettyCmd of the raw text. The colon forms ("ACK:", "IGNORED:", "UNKNOWN:") belong to the earlier snapshot.
- Deadlines are compared as absolute timestamps (`now >= deadline`). Only debounce and the loop throttle use differences.
- `DoorControl::cancelAll` leaves the lock pins and the indicator flag as they are. `setAlarm(false)` never writes the alarm pin.
- The COUNTDOWN → IDLE step leaves a manually held starter high. Release only acts in COUNTDOWN.
- The daily warm trigger does not check whether a cycle is already running.
- In the earlier snapshot:
  - `resetAll` is single-phase and cancels neither the warm-up nor the hazard;
  - `start_the_car` has no interlock.

## Model

| member | source | states |
|---|---|---|
| Text.NormalizeCmd | src/main.cpp:96-103 | the loop-and-transform normaliser returns exactly `Normalized(s)`: leading white space erased, trailing white space popped, then lower-cased (the same function as backup/src/main.cpp:162-169) |
| Text.NormalizedIsTrimmedInfix | src/main.cpp:96-103 | the normalised command is the lower-cased middle `s[i..i+n]` of the input, and everything cut off before and after it is white space |
| Text.NormalizedShape | src/main.cpp:96-103 | a normalised command starts and ends with a non-space and holds no upper-case letter |
| Text.NormalizeIdempotent | src/main.cpp:96-103 | normalising twice is normalising once |
| Text.TrimLeftShape | src/main.cpp:99 | the first erase loop removes exactly a white-space prefix and stops on a non-space |
| Text.TrimRightShape | src/main.cpp:100 | the pop_back loop removes exactly a white-space suffix and stops on a non-space |
| Text.PrettyCmdShape | src/main.cpp:119-124 | prettyCmd keeps the length, upper-cases each lower-case letter, turns each '_' into ' ', keeps every other character, and leaves no lower-case letter and no '_' (the same function as backup/src/main.cpp:172-177) |
| Text.ChunksCorrect | src/main.cpp:107-114 | the 20-byte pieces concatenate back to the message, there are ceil(n/20) of them, and each holds 1 to 20 characters |
| Text.SplitChunks | src/main.cpp:107-114 | the `for (i = 0; i < size; i += 20) substr(i, 20)` loop produces exactly those pieces, in order |
| Text.Stoul | src/main.cpp:350 | std::stoul on a 32-bit unsigned long never yields more than ULONG_MAX; it throws (None) when no digit follows the optional sign or the magnitude is out of range |
| Text.StoulOfDigits | src/main.cpp:350 | stoul of a plain numeral is its value when it fits 32 bits and throws otherwise; the empty argument throws |
| Text.PadNatCorrect | src/RTCModule.cpp:100-103 | a `%0Nd` field of a number below 10^N is exactly N digits long and denotes the number |
| Text.AtoL | src/main.cpp:556 | String::toInt (atol on a 32-bit long): the number read after blanks and an optional sign, saturated to -2^31..2^31-1 |
| Text.AtoLOfDigits | src/RTCModule.cpp:115-120 | String::toInt of a non-empty all-digit string is the number it denotes when that fits a long, and LONG_MAX otherwise |
| Clock.FieldRoundTrip | src/RTCModule.cpp:100-120 | a field printed at width 2 or 4 and read back with toInt gives the number |
| Clock.FormatReadFields | src/RTCModule.cpp:100-120 | nowString of a reading whose fields fit their widths is 19 characters, and setNowFromString's substring offsets read back exactly the reading's six fields |
| Clock.EpochStamp | src/RTCModule.cpp:96-97 | the fall-back stamp "2000-01-01 00:00:00" is the printed form of the fall-back time |
| Store.Preferences.constructor | src/main.cpp:157 | the namespace opened holds what the flash holds |
| Store.Preferences.PutInt | src/main.cpp:353 | putInt stores the value under its key, leaves every other key alone, and getInt then reads it back |
| Button.ButtonTombol.constructor | src/ButtonTombol.cpp:4-8 | a new sequencer is IDLE, engine off, starter not running, 15000 ms countdown window, 500/500 LED cadence |
| Button.ButtonTombol.Begin | src/ButtonTombol.cpp:10-22 | LED pin driven low, both debounce levels seeded from the current reading at `now`, LED off with its first toggle `now + 500` |
| Button.ButtonTombol.SetLedBlink | src/ButtonTombol.cpp:24-26 | only the LED high/low durations change |
| Button.ButtonTombol.SetResetCallback | src/ButtonTombol.h:10 | registers the reset callback; nothing else changes |
| Button.ButtonTombol.SetEngineSetter | src/ButtonTombol.h:11 | registers the engine-setter callback; nothing else changes |
| Button.ButtonTombol.SetCountdownMs | src/ButtonTombol.h:14 | only the countdown window changes |
| Button.ButtonTombol.SetEngineStatus | src/ButtonTombol.cpp:158-160 | only the engine-on flag changes |
| Button.ButtonTombol.StartRampStep | src/ButtonTombol.cpp:35-41 | the IDLE start block: ACC on, engine-setter(false), ACC_WAIT until `now + 1000`, countdown armed, slow blink |
| Button.ButtonTombol.TriggerStart | src/ButtonTombol.cpp:28-51 | new state and emitted effects are those of the triggerStart specification (partner lemmas below) |
| Button.ButtonTombol.LedStep | src/ButtonTombol.cpp:57-62 | the LED toggles and re-arms with the duration of its new level once `now` reaches the toggle time |
| Button.ButtonTombol.PressStep | src/ButtonTombol.cpp:73-95 | the falling-edge branch: reset callback with the engine on, ramp start in IDLE, manual starter hold in COUNTDOWN |
| Button.ButtonTombol.ReleaseStep | src/ButtonTombol.cpp:97-106 | the rising-edge branch: drops STARTER and the hold only when holding in COUNTDOWN |
| Button.ButtonTombol.DebounceStep | src/ButtonTombol.cpp:64-109 | debounce bookkeeping followed by the edge branches once the reading is stable |
| Button.ButtonTombol.TimingStep | src/ButtonTombol.cpp:111-155 | the state-machine switch, one deadline check per state |
| Button.ButtonTombol.Update | src/ButtonTombol.cpp:53-156 | one update is LED handler, then debounce, then timing switch, with the effects in that order |
| Button.TriggerWhileEngineOn | src/ButtonTombol.cpp:31-34 | with the engine on, triggerStart changes no field and only requests a reset (if a callback is registered) |
| Button.TriggerFromIdle | src/ButtonTombol.cpp:35-41 | from IDLE: ACC_WAIT, `stateUntil = now+1000`, `countdownUntil = now+countdownMs`, LED 500/500, effects ACC high then engine-setter(false) |
| Button.TriggerFromCountdown | src/ButtonTombol.cpp:42-50 | from COUNTDOWN: STARTER high, starter running, STARTER_ACTIVE until `now+1000`, countdown re-armed, LED 200/50 |
| Button.TriggerMidRampIgnored | src/ButtonTombol.cpp:35-50 | in ACC_WAIT, IG_WAIT or STARTER_ACTIVE triggerStart changes nothing and emits nothing |
| Button.TimingMovesIff | src/ButtonTombol.cpp:112-155 | the switch changes the phase iff the phase is not IDLE and its deadline has come, and then only to the next phase |
| Button.LedTickOnlyLed | src/ButtonTombol.cpp:57-62 | the LED handler changes only the LED fields |
| Button.EdgeKeepsPhase | src/ButtonTombol.cpp:73-106 | edge handling leaves phase and deadline alone except the IDLE press, and re-arms the countdown only in COUNTDOWN |
| Button.DebounceKeepsPhase | src/ButtonTombol.cpp:64-109 | the same for the whole debounce block |
| Button.EarlyPartKeepsPhase | src/ButtonTombol.cpp:57-109 | the same for LED handler plus debounce block |
| Button.UpdateAtMostOneStep | src/ButtonTombol.cpp:53-156 | an update moves the phase at most one step along the ramp; within the ramp exactly when `now >= stateUntil`; out of COUNTDOWN only at `countdownUntil` |
| Button.StarterEndsIntoCountdown | src/ButtonTombol.cpp:135-144 | STARTER_ACTIVE to COUNTDOWN drops STARTER, clears starter-running and keeps `countdownUntil` |
| Button.CountdownExpires | src/ButtonTombol.cpp:145-154 | COUNTDOWN to IDLE at `countdownUntil`: engine on, engine-setter(true), LED 500/500 |
| Button.DebounceNeedsStability | src/ButtonTombol.cpp:64-71 | an edge acts only when the reading equals the last raw reading and has been stable for more than 50 ms, and then always; the raw reading is always recorded |
| Button.PressInCountdownHolds | src/ButtonTombol.cpp:85-93 | a debounced press in COUNTDOWN holds the starter by hand, re-arms the countdown and stays in COUNTDOWN |
| Button.ReleaseInCountdownDrops | src/ButtonTombol.cpp:97-105 | the matching release drops STARTER, the hold and starter-running |
| Button.HoldOutlivesCountdown | src/ButtonTombol.cpp:97-154 | COUNTDOWN to IDLE during a hold does not write STARTER, and the later release no longer drops it |
| Button.InitialInv | src/ButtonTombol.cpp:4-22 | construction and begin establish the LED-cadence invariant |
| Button.TriggerKeepsInv | src/ButtonTombol.cpp:28-51 | triggerStart keeps the invariant (LED cadence matches the phase; STARTER_ACTIVE implies starter running) |
| Button.LedKeepsInv | src/ButtonTombol.cpp:57-62 | the LED handler keeps the invariant |
| Button.EdgeKeepsInv | src/ButtonTombol.cpp:73-106 | edge handling keeps the invariant |
| Button.DebounceKeepsInv | src/ButtonTombol.cpp:64-109 | the debounce block keeps the invariant |
| Button.TimingKeepsInv | src/ButtonTombol.cpp:112-155 | the timing switch keeps the invariant |
| Button.UpdateKeepsInv | src/ButtonTombol.cpp:53-156 | a whole update keeps the invariant |
| Button.QuietUpdate | src/ButtonTombol.cpp:53-156 | with the button at rest, an update is the LED handler followed by the timing switch |
| Button.QuietRampStep | src/ButtonTombol.cpp:116-154 | a timed step at rest: next phase, 1000 ms deadline after ACC_WAIT and IG_WAIT, countdown kept, the phase's pin write emitted, engine on after COUNTDOWN |
| Button.StartTimeline | src/ButtonTombol.cpp:28-156 | a start from rest: IG at 1 s, starter from 2 s to 3 s, engine counted running at the 15 s countdown |
| ButtonBackup.ButtonTombol.constructor | backup/src/ButtonTombol.cpp:4-8 | a new sequencer is IDLE, engine off, starter not running, 500/500 LED cadence |
| ButtonBackup.ButtonTombol.Begin | backup/src/ButtonTombol.cpp:10-22 | LED pin driven low, debounce levels seeded from the reading at `now`, LED off with first toggle at `now + 500` |
| ButtonBackup.ButtonTombol.SetResetCallback | backup/src/ButtonTombol.h:10 | registers the reset callback; nothing else changes |
| ButtonBackup.ButtonTombol.SetEngineSetter | backup/src/ButtonTombol.h:11 | registers the engine-setter callback; nothing else changes |
| ButtonBackup.ButtonTombol.SetEngineStatus | backup/src/ButtonTombol.cpp:129-131 | only the engine-on flag changes |
| ButtonBackup.ButtonTombol.SetLedBlink | backup/src/ButtonTombol.cpp:24-26 | only the LED high/low durations change |
| ButtonBackup.ButtonTombol.LedStep | backup/src/ButtonTombol.cpp:32-37 | the LED toggles and re-arms with the duration of its new level once `now` reaches the toggle time |
| ButtonBackup.ButtonTombol.PressStep | backup/src/ButtonTombol.cpp:48-77 | the falling-edge branch (partner: `PressCases`) |
| ButtonBackup.ButtonTombol.DebounceStep | backup/src/ButtonTombol.cpp:39-80 | debounce bookkeeping and the press branch once the reading is stable |
| ButtonBackup.ButtonTombol.TimingStep | backup/src/ButtonTombol.cpp:82-126 | the state-machine switch (partner: `TimingCases`) |
| ButtonBackup.ButtonTombol.Update | backup/src/ButtonTombol.cpp:28-127 | LED handler, then debounce, then timing switch, effects in that order |
| ButtonBackup.PressCases | backup/src/ButtonTombol.cpp:48-75 | with the engine on only the reset callback; from IDLE ACC on, ACC_WAIT until `now+1000`, countdown `now+5000`; from COUNTDOWN STARTER on, STARTER_ACTIVE until `now+1000`, countdown `now+5000`; in the other phases nothing |
| ButtonBackup.ReleaseOnlyRecordsLevel | backup/src/ButtonTombol.cpp:46-79 | a release emits nothing and changes only the debounce record (the accepted level once stable) |
| ButtonBackup.TimingCases | backup/src/ButtonTombol.cpp:87-125 | ACC_WAIT to IG_WAIT with IG on and a 2000 ms wait; IG_WAIT to STARTER_ACTIVE with a 1000 ms pulse; STARTER_ACTIVE to COUNTDOWN dropping STARTER and keeping the countdown; COUNTDOWN to IDLE with the engine on; nothing before the deadline |
| ButtonBackup.LedTickOnlyLed | backup/src/ButtonTombol.cpp:32-37 | the LED handler changes only the LED fields |
| ButtonBackup.QuietUpdate | backup/src/ButtonTombol.cpp:28-127 | with the button at rest, an update is the LED handler followed by the timing switch |
| ButtonBackup.QuietRampStep | backup/src/ButtonTombol.cpp:87-125 | a timed step at rest reaches the next phase with the 2000 ms (after ACC_WAIT) or 1000 ms (after IG_WAIT) deadline, countdown kept |
| ButtonBackup.PressTimeline | backup/src/ButtonTombol.cpp:54-125 | a press at 0.1 s: IG at 1.1 s, starter from 3.1 s to 4.1 s, engine counted running when the fixed 5 s window ends at 5.1 s |
| Door.DoorControl.constructor | src/Door_control.cpp:8-9 | a new controller is unlocked, with no pulse (pin -1), hazard, indicator or alarm activity |
| Door.DoorControl.Begin | src/Door_control.cpp:11-20 | drives LOCK, UNLOCK, HAZZARD and PESAWAT low, in that order |
| Door.DoorControl.LockPulse | src/Door_control.cpp:22-35 | new state and effects are those of the lock request (partners: `IgnoredRequests`, `AcceptedRequests`) |
| Door.DoorControl.UnlockPulse | src/Door_control.cpp:37-50 | new state and effects are those of the unlock request (same partners) |
| Door.DoorControl.ToggleAlarm | src/Door_control.cpp:52-54 | is setAlarm with the negated alarm flag |
| Door.DoorControl.SetAlarm | src/Door_control.cpp:56-72 | new state and effects of setAlarm (partner: `SetAlarmEffects`) |
| Door.DoorControl.PulseStep | src/Door_control.cpp:75-106 | pulse completion at `pulseEnd` (partners: `CompletionStarts`, `LockedChangesOnlyAtCompletion`) |
| Door.DoorControl.Complete | src/Door_control.cpp:76-105 | the completed pulse is cleared (inactive, pin -1) |
| Door.DoorControl.CommitLock | src/Door_control.cpp:79-91 | lock completion: locked, LOCK hazard at step 0, indicator HIGH and due 300 ms later |
| Door.DoorControl.CommitUnlock | src/Door_control.cpp:92-104 | unlock completion: unlocked, UNLOCK hazard at step 0, indicator off |
| Door.DoorControl.AlarmStep | src/Door_control.cpp:108-119 | only the alarm wave fields change (partner: `AlarmWave`) |
| Door.DoorControl.PesawatStep | src/Door_control.cpp:121-132 | only the indicator fields change: HIGH for 100 ms, LOW for 3000 ms |
| Door.DoorControl.HazardStep | src/Door_control.cpp:134-178 | only the hazard fields change (partners: `LockPattern`, `UnlockPattern`, `AlarmModeEndless`, `HazardWaits`) |
| Door.DoorControl.Update | src/Door_control.cpp:74-179 | pulse completion, alarm wave, indicator blink, hazard pattern, effects in that order |
| Door.DoorControl.CancelAll | src/Door_control.cpp:181-189 | new state and effects of cancelAll (partner: `CancelAllEffects`) |
| Door.DoorControl.SetEngineState | src/Door_control.cpp:193-210 | new state and effects of setEngineState (partner: `EngineStateIndicator`) |
| Door.IgnoredRequests | src/Door_control.cpp:23-40 | lock while locked or busy only notifies "IGNORED LOCK" and changes no field; unlock mirrors it while unlocked or busy |
| Door.AcceptedRequests | src/Door_control.cpp:26-49 | an accepted request drives the opposite solenoid low and its own high, records a 600 ms pulse on its pin and leaves `locked` alone |
| Door.PulseInvPreserved | src/Door_control.cpp:8-210 | every operation keeps: a pulse is in flight iff a solenoid pin is recorded; a lock pulse only while unlocked, an unlock pulse only while locked |
| Door.LockedChangesOnlyAtCompletion | src/Door_control.cpp:76-106 | `locked` changes only in update at `pulseEnd`, to true for LOCK and false for UNLOCK, and the pulse is then cleared |
| Door.CompletionFlipsLocked | src/Door_control.cpp:76-106 | under the pulse invariant a completed pulse always flips `locked` |
| Door.CompletionStarts | src/Door_control.cpp:79-104 | lock completion starts the LOCK pattern at step 0 and the indicator HIGH for 300 ms; unlock completion starts the UNLOCK pattern and turns the indicator off; with the exact writes and notifications |
| Door.LockPattern | src/Door_control.cpp:146-167 | the LOCK pattern is HIGH 400, LOW 200, HIGH 400, then LOW and inactive |
| Door.HazardWaits | src/Door_control.cpp:135 | the hazard does nothing before its deadline |
| Door.UnlockPattern | src/Door_control.cpp:168-177 | the UNLOCK pattern is HIGH 1000, then LOW and inactive |
| Door.AlarmModeEndless | src/Door_control.cpp:136-145 | alarm mode takes precedence, alternates every 200 ms and never ends by itself |
| Door.AlarmWave | src/Door_control.cpp:109-119 | the alarm output alternates every 200 ms while the alarm is on |
| Door.SetAlarmEffects | src/Door_control.cpp:52-72 | setAlarm(true) restarts the hazard in alarm mode at step 0, due now; setAlarm(false) stops it and drives HAZZARD low but never writes ALARM; toggleAlarm flips the alarm flag |
| Door.AlarmOutputLeftHigh | src/Door_control.cpp:65-109 | after setAlarm(false) a HIGH alarm output stays HIGH: no later tick writes it |
| Door.CancelAllEffects | src/Door_control.cpp:181-189 | pulse, hazard and alarm stop, `locked` and the indicator's flags are kept, HAZZARD and PESAWAT are driven low, LOCK/UNLOCK are not written |
| Door.IndicatorSurvivesCancel | src/Door_control.cpp:181-189 | the indicator keeps blinking after cancelAll (the indicator tick at line 122 keeps running) |
| Door.EngineStateIndicator | src/Door_control.cpp:193-210 | engine on turns the indicator off; engine off arms it (HIGH, +300 ms) only when locked |
| Door.LockTwice | src/Door_control.cpp:22-91 | a second lock request is ignored, before or after the first pulse completes |
| Door.UnlockLockRoundTrip | src/Door_control.cpp:22-106 | unlock then lock, each given 600 ms, leaves the door locked, the indicator on and no pulse in flight |
| Warmup.SafeNow | src/WarmUp_engine.cpp:37-41 | the clock reading when it is plausible, 2000-01-01 00:00:00 otherwise |
| Warmup.WarmUpEngine.constructor | src/WarmUp_engine.cpp:12-13 | inactive, no pending starter, `lastWarmDay = -1`, 10-minute duration, no clock or store attached |
| Warmup.WarmUpEngine.Init | src/WarmUp_engine.cpp:15-19 | attaches clock, store and engine-setter; nothing else changes |
| Warmup.WarmUpEngine.Begin | src/WarmUp_engine.cpp:21-26 | the duration is loaded from the store's "warmlen" entry (current value as default) when a store is attached, else unchanged |
| Warmup.WarmUpEngine.StarterStep | src/WarmUp_engine.cpp:44-55 | the pending-starter block (partners: `StarterShotOnce`, `StarterShotWaits`) |
| Warmup.WarmUpEngine.FinishStep | src/WarmUp_engine.cpp:57-69 | the warm-end block (partner: `FinishEffects`) |
| Warmup.WarmUpEngine.DailyStep | src/WarmUp_engine.cpp:71-88 | the daily trigger block (partners: `DailyFires`, `DailyOncePerDay`) |
| Warmup.WarmUpEngine.Update | src/WarmUp_engine.cpp:43-89 | pending starter, then warm end, then daily trigger, on the shared starter flag, with the clock as seen through the attached RTC |
| Warmup.WarmUpEngine.ForceWarm | src/WarmUp_engine.cpp:91-103 | new state and effects of forceWarm (partner: `ForceWarmCases`) |
| Warmup.WarmUpEngine.CancelWarm | src/WarmUp_engine.cpp:105-108 | clears active and pending only (partner: `CancelStopsEverything`) |
| Warmup.WarmUpEngine.SetDurationMinutes | src/WarmUp_engine.cpp:110-118 | the duration changes only for 1..60, and is then also stored under "warmlen" (partner: `SetDurationKeepsRange`) |
| Warmup.PlausibleIff | src/WarmUp_engine.cpp:28-41 | plausible iff a clock is attached, its year is in 2020..2035 and it has not lost power; otherwise the safe time is 2000-01-01 00:00:00 |
| Warmup.NeedSetNeverPlausible | src/WarmUp_engine.cpp:28-35 | through an RTC in NEED_SET the clock is never plausible; through an OK RTC exactly when the chip's year is in range and power was kept |
| Warmup.DailyFires | src/WarmUp_engine.cpp:71-88 | the trigger acts only when plausible, at 15:31, on a day other than the recorded one; it then records the day, starts the cycle with IG on and the starter due in 1000 ms, and notifies "WARM ON" |
| Warmup.DailyOncePerDay | src/WarmUp_engine.cpp:77-78 | after firing, no later update on the same day fires it again |
| Warmup.DailyRestartsActiveCycle | src/WarmUp_engine.cpp:77 | the trigger does not check `warmActive`: it restarts a running cycle |
| Warmup.ForceWarmCases | src/WarmUp_engine.cpp:91-103 | when idle: active, end `now + minutes*60000` (32-bit), IG on, starter pending at `now+1000`, "WARM ON"; when active: nothing changes |
| Warmup.SpanOfValidMinutes | src/WarmUp_engine.cpp:80-94 | for 1..60 minutes the 32-bit span is exactly `minutes*60000` |
| Warmup.StarterShotOnce | src/WarmUp_engine.cpp:45-55 | the pending starter fires once; it drives STARTER and takes the shared starter for 1000 ms only when no starter is active |
| Warmup.StarterShotWaits | src/WarmUp_engine.cpp:45 | before its time the pending starter does nothing |
| Warmup.FinishEffects | src/WarmUp_engine.cpp:58-69 | warm end clears `active` and the shared starter flag, drives ACC, IG, STARTER, LAMP and ALARM low, reports engine off, and leaves PESAWAT, HAZZARD, LOCK and UNLOCK untouched |
| Warmup.CancelStopsEverything | src/WarmUp_engine.cpp:105-108 | after cancelWarm an update does nothing unless the daily trigger is due |
| Warmup.SetDurationKeepsRange | src/WarmUp_engine.cpp:110-118 | the duration becomes `m` iff `m` is in 1..60; a valid duration stays valid |
| Warmup.RemainingMeaning | src/WarmUp_engine.cpp:122 | remaining time is positive iff active and before the end, and is then `warmEnd - now`; it never grows |
| Warmup.RemainingAfterStart | src/WarmUp_engine.cpp:91-122 | right after forceWarm the remaining time is the configured span |
| Rtc.ParseSetTime | src/RTCModule.cpp:112-124 | an accepted string has at least 19 characters, year at least 2020, month in 1..12 and day in 1..31 |
| Rtc.RTCModule.constructor | src/RTCModule.cpp:56-58 | the status starts NEED_SET |
| Rtc.RTCModule.Begin | src/RTCModule.cpp:60-78 | returns whether the chip answers; the status is OK only if it answers and has not lost power |
| Rtc.RTCModule.Now | src/RTCModule.cpp:84-91 | 2000-01-01 00:00:00 without reading the chip unless the status is OK, else the chip's time |
| Rtc.RTCModule.LostPowerFlag | src/RTCModule.cpp:133-137 | true whenever the status is not OK, else the chip's lost-power flag |
| Rtc.RTCModule.NowString | src/RTCModule.cpp:93-105 | "2000-01-01 00:00:00" when not OK or power was lost, else the zero-padded `YYYY-MM-DD HH:MM:SS` |
| Rtc.RTCModule.SetNowFromString | src/RTCModule.cpp:112-131 | returns true and hands the parsed fields to the chip iff the string is accepted; status becomes OK on acceptance and is unchanged on rejection |
| Rtc.RejectsShort | src/RTCModule.cpp:113 | strings shorter than 19 characters are rejected |
| Rtc.ParseFormatRoundTrip | src/RTCModule.cpp:100-120 | a stamp in nowString's format with an in-range date parses back to the same six fields |
| Rtc.ParseFormatRejects | src/RTCModule.cpp:122-124 | a well-formed stamp is rejected iff year < 2020, month outside 1..12 or day outside 1..31 |
| Rtc.FallbackRejected | src/RTCModule.cpp:96-124 | the neutral stamp nowString reports is itself rejected |
| Rtc.TimeOfDayUnchecked | src/RTCModule.cpp:118-124 | hour, minute and second out of range do not cause rejection |
| Rtc.NowStringIsFormatOfNow | src/RTCModule.cpp:84-105 | unless power was lost with status OK, nowString is the printed form of now() |
| Rtc.NowStringRoundTrip | src/RTCModule.cpp:93-131 | what nowString prints for a trusted in-range clock is accepted and restores the same fields |
| BackupRtc.ParseSetTime | backup/src/RTCModule.cpp:36-45 | an accepted string has at least 19 characters, year at least 2000, month in 1..12 and day in 1..31 |
| BackupRtc.RTCModule.constructor | backup/src/RTCModule.cpp:5 | no setting handed to the chip yet |
| BackupRtc.RTCModule.SetNowToCompileTime | backup/src/RTCModule.cpp:50-52 | the chip is set to the build's time stamp |
| BackupRtc.RTCModule.SetNowFromString | backup/src/RTCModule.cpp:36-48 | returns true iff the parse accepts the string; then the fixed-offset fields are handed to the chip, otherwise the chip is left alone |
| BackupRtc.RejectsShort | backup/src/RTCModule.cpp:38 | strings shorter than 19 characters are rejected |
| BackupRtc.NowStringRoundTrip | backup/src/RTCModule.cpp:24-47 | every reading with an in-range date survives nowString then the parse, with the same six fields |
| BackupRtc.RejectsIff | backup/src/RTCModule.cpp:45 | a well-formed stamp is rejected iff year < 2000, month outside 1..12 or day outside 1..31; time of day plays no part |
| BackupRtc.AcceptsEpochStamp | backup/src/RTCModule.cpp:45 | the earlier version accepts "2000-01-01 00:00:00" |
| Remote.RX500Module.constructor | src/RX500Module.cpp:3-7 | every stored level LOW, no callback registered |
| Remote.RX500Module.Begin | src/RX500Module.cpp:9-19 | the stored levels become the current readings; registrations unchanged |
| Remote.RX500Module.SetOnLock | src/RX500Module.cpp:49 | registers channel A's callback only |
| Remote.RX500Module.SetOnUnlock | src/RX500Module.cpp:50 | registers channel B's callback only |
| Remote.RX500Module.SetOnStart | src/RX500Module.cpp:51 | registers channel C's callback only |
| Remote.RX500Module.SetOnAlarmToggle | src/RX500Module.cpp:52 | registers channel D's callback only |
| Remote.RX500Module.Update | src/RX500Module.cpp:21-47 | the events are the rising edges from the stored to the current levels of registered channels; afterwards every stored level equals the reading |
| Remote.EdgeIff | src/RX500Module.cpp:28-46 | a channel reports iff its line is HIGH, was LOW, and its callback is registered |
| Remote.EdgesOrdered | src/RX500Module.cpp:27-46 | at most one event per channel, in the order A, B, C, D |
| Remote.NoEdgeWithoutChange | src/RX500Module.cpp:15-46 | unchanged levels (as right after begin) produce no event |
| Remote.ChannelsIndependent | src/RX500Module.cpp:27-46 | a channel's event depends only on its own line and callback |
| Remote.CountEdges | src/RX500Module.cpp:27-46 | one update reports a given event exactly once on a rising edge of a registered channel, else zero times |
| Remote.HeldHighOnce | src/RX500Module.cpp:28-31 | a line held HIGH across many updates reports once if it was LOW before, never if it was already HIGH |
| Remote.UnregisteredSilent | src/RX500Module.cpp:28-46 | without a callback a channel never reports, however its line moves |
| Arbiter.BootInv | src/main.cpp:152-240 | after setup the start stage machine is idle, the engine is off, the button is IDLE and the scheduler inactive with no day recorded (globals initialised at lines 58-68) |
| Arbiter.CallbackKeeps | src/main.cpp:127-159 | carrying out one component callback (reset request or engine setter) leaves only pin writes and notifications and keeps the loop timers, the clock, the settings, the receiver and the idle start stages (callbacks registered at lines 239-240) |
| Arbiter.ResolveKeeps | src/main.cpp:127-150 | the same for a whole sequence of component effects, callbacks in order (callbacks registered at lines 239-240) |
| Arbiter.OnRemoteKeeps | src/main.cpp:222-234 | a receiver callback keeps the loop timers, the clock, the settings and the idle start stages |
| Arbiter.OnRemoteAllKeeps | src/main.cpp:451 | the same for all the callbacks of one receiver update |
| Arbiter.ComponentsKeep | src/main.cpp:444-453 | the door, warm-up, receiver and button updates keep the loop timers and the board invariant; the receiver's stored levels become the readings |
| Arbiter.ButtonUpdateKeepsEngine | src/ButtonTombol.cpp:53-156 | the button's update never clears its own engine flag; only setEngineState turns it off |
| Arbiter.DebounceKeepsEngine | src/ButtonTombol.cpp:64-109 | the debounce block and its press and release branches never clear the button's engine flag |
| Arbiter.TimingKeepsEngine | src/ButtonTombol.cpp:112-155 | the timing switch never clears the button's engine flag; COUNTDOWN's end only sets it (line 149) |
| Arbiter.SerialKeepsGlobals | src/main.cpp:484-571 | the serial console never changes main's globals or the button's engine flag, and keeps the door's pulse invariant |
| Arbiter.SerialCmdKeepsGlobals | src/main.cpp:504-570 | no console command changes main's globals or the button's engine flag; lock and unlock keep the door's pulse invariant |
| Arbiter.SerialBtnCdExact | src/main.cpp:551-566 | the console's btncd sets and persists the countdown exactly when toInt reads its argument as 5000..60000, and then to that number; otherwise nothing changes |
| Arbiter.OversizedNumeral | src/main.cpp:556 | toInt reads 4294972296 (2^32 + 5000) as LONG_MAX |
| Arbiter.SerialBtnCdOverflow | src/main.cpp:551-566 | "btncd 4294972296" is refused: the saturated value is outside 5000..60000, so the countdown is not set to 5000 |
| Arbiter.TimersKeep | src/main.cpp:455-611 | report, console, start stages and deferred reset keep the loop tick, the board invariant, the engine flag and the starter: nothing in the live loop releases STARTER at `starterEnd` |
| Arbiter.LoopKeepsInv | src/main.cpp:430-619 | loop() does nothing within 10 ms of its last pass, otherwise records the pass; every pass keeps the board invariant (idle start stages, the door's pulse invariant, engine flag implies the button's) |
| Arbiter.StartCarBlockIdle | src/main.cpp:576-600 | with `startCarPending` never set, the start-stage block never acts (the flag's other write is at line 141) |
| Arbiter.StartTheCarCases | src/main.cpp:280-293 | start_the_car is refused with "ENGINE ALREADY ON" and no other change when the engine is on, the starter is active or a start is pending; otherwise it is triggerStart followed by "START THE CAR", which from a stopped idle button turns ACC on and enters ACC_WAIT |
| Arbiter.StarterOnCases | src/main.cpp:296-309 | starter_on with the starter free drives STARTER, takes it until `now+1000`, reports the engine on to globals and button, and notifies "STARTER ON"; with it active only "IGNORED STARTER ON" |
| Arbiter.SecondStarterOnIgnored | src/main.cpp:296-309 | a second starter_on at any later time is ignored: the pulse is never released (no pass of loop() at lines 430-619 releases it) |
| Arbiter.BtnCdOutcomes | src/main.cpp:344-369 | btncd sets and persists the countdown exactly for 5000..60000; an empty argument, a parse failure and an out-of-range value each give their own reply and change nothing |
| Arbiter.HandleRoutesBtnCd | src/main.cpp:344-347 | a command starting with "btncd" goes to the btncd decision with its argument's leading blanks removed |
| Arbiter.ResetImmediate | src/main.cpp:134-150 | resetAll drops IG, STARTER and ALARM at once, turns the engine off, cancels start, warm-up and door activity, keeps `locked`, leaves ACC and LAMP alone and arms the deferred half for `now+500` |
| Arbiter.ResetTwoPhase | src/main.cpp:134-150 | the deferred half does nothing before `resetAt`, then drives ACC, LAMP and HAZZARD low with "ALL OFF" once, and never again (deferred phase at lines 603-611) |
| Arbiter.SplitHmsBounds | src/main.cpp:460-465 | minutes and seconds are below 60 and h·3600000 + m·60000 + s·1000 ≤ rem < that + 1000 |
| Arbiter.NotesOfNotifyEach | src/main.cpp:107-114 | one notification per chunk, in order |
| Arbiter.ReportContents | src/main.cpp:455-474 | the report fires only after more than 10 s; its chunks put back together are "WARM: hh:mm:ss" of the time left during a warm-up, else nowString |
| Arbiter.RemoteStartCases | src/main.cpp:224-233 | the remote's start button ends with "START THE CAR SCHEDULED" with the engine off, and is exactly resetAll with it on |
| Arbiter.HandleSeesNormalized | src/main.cpp:247 | two texts that normalise alike are handled alike (unknown commands aside, which echo their own text) |
| Controller.Firmware.constructor | src/main.cpp:152-240 | the globals and components after setup are the boot world: initial globals, stored warm duration and button countdown, door begun, receiver seeded with its callbacks |
| Controller.Firmware.SetEngineState | src/main.cpp:127-131 | the step is setEngineState on the world: the flag, the door's indicator and the button's engine flag |
| Controller.Firmware.ResetAll | src/main.cpp:134-150 | the step is resetAll on the world (partners: `ResetImmediate`, `ResetTwoPhase`) |
| Controller.Firmware.ResetOutputsNow | src/main.cpp:136-139 | the first half of resetAll: IG, STARTER, ALARM low and engine off |
| Controller.Firmware.ResetCancelNow | src/main.cpp:141-148 | the second half: start stages, warm-up and door cancelled, deferred reset armed, "RESET ALL SCHEDULED" |
| Controller.Firmware.ApplyCallback | src/main.cpp:239-240 | one component effect with the registered callback carried out (partner: `CallbackKeeps`) (with the engine setter of line 159) |
| Controller.Firmware.ResolveAll | src/main.cpp:239-240 | a component's effects with each callback carried out in order (partner: `ResolveKeeps`) (with the engine setter of line 159) |
| Controller.Firmware.TriggerStart | src/main.cpp:289-290 | buttonTombol.triggerStart() with its callbacks, then the given notification (also the remote start at lines 227-228) |
| Controller.Firmware.EngageStarter | src/main.cpp:297-302 | STARTER high, starter taken until `now+1000`, engine reported on, "STARTER ON" |
| Controller.Firmware.Switch | src/main.cpp:250-277 | acc/ig/lamp on/off drive their pin, record the flag and notify (also lamp at lines 323-335) |
| Controller.Firmware.DoorRequest | src/main.cpp:312-319 | lock, unlock, alarm_on and alarm_off are the door controller's requests (also lock and unlock at lines 394-397) |
| Controller.Firmware.StartTheCar | src/main.cpp:280-293 | the step of start_the_car (partner: `StartTheCarCases`) |
| Controller.Firmware.StarterOn | src/main.cpp:296-309 | the step of starter_on (partners: `StarterOnCases`, `SecondStarterOnIgnored`) |
| Controller.Firmware.BtnCd | src/main.cpp:344-369 | the step of btncd (partner: `BtnCdOutcomes`) |
| Controller.Firmware.SetRtc | src/main.cpp:371-393 | "now" or an empty argument is declined; otherwise the clock is set from the stamp, then "RTC SET" and the new time in chunks, or "RTC SET FAILED" |
| Controller.Firmware.DispatchCmd | src/main.cpp:249-397 | a recognised command's step, by the if-chain of the write handler |
| Controller.Firmware.HandleWrite | src/main.cpp:245-403 | the write handler on raw text: normalise, dispatch, or "UNKNOWN " with the pretty-printed raw text |
| Controller.Firmware.Connection | src/main.cpp:405-412 | the connection flag and the connection LED follow the link |
| Controller.Firmware.RemoteEvent | src/main.cpp:222-234 | the registered callback of one receiver event (partner: `RemoteStartCases`) |
| Controller.Firmware.RemoteEvents | src/main.cpp:451 | the callbacks of one receiver update, in order |
| Controller.Firmware.UpdateComponents | src/main.cpp:443-453 | door, warm-up, receiver and button updates in that order, with their callbacks (partner: `ComponentsKeep`) |
| Controller.Firmware.UpdateDoorAndWarm | src/main.cpp:444-446 | doorControl.update() then warmEngine.update() with its engine-setter callbacks |
| Controller.Firmware.UpdateRemoteAndButton | src/main.cpp:451-453 | rx500.update() then buttonTombol.update(), with their callbacks |
| Controller.Firmware.ReportStep | src/main.cpp:455-474 | the 10-second report (partner: `ReportContents`) |
| Controller.Firmware.HostTimeStep | src/main.cpp:490-503 | a HOSTTIME line with a non-empty, accepted stamp sets the clock and sends the new time in chunks |
| Controller.Firmware.SerialSetRtc | src/main.cpp:522-539 | the console's setrtc: declined for an empty argument or "now" (any case); otherwise the clock is set and "RTC: " plus the time is notified on success |
| Controller.Firmware.SerialBtnCd | src/main.cpp:551-566 | the console's btncd sets and persists the countdown only when the argument, read by the saturating toInt and cast to a 32-bit unsigned value, is in 5000..60000 (partners: `SerialBtnCdExact`, `SerialBtnCdOverflow`) |
| Controller.Firmware.SerialCommand | src/main.cpp:504-569 | the console command chain after the HOSTTIME check, btncd and warmlen reading their argument with the saturating toInt (partners: `SerialCmdKeepsGlobals`, `SerialBtnCdExact`) |
| Controller.Firmware.SerialStep | src/main.cpp:484-571 | a trimmed, non-empty console line, with the saturating toInt for numeric arguments (partner: `SerialKeepsGlobals`) |
| Controller.Firmware.StartCarStep | src/main.cpp:575-600 | the start-stage block (partner: `StartCarBlockIdle`) |
| Controller.Firmware.ResetStep | src/main.cpp:602-611 | the deferred half of resetAll (partner: `ResetTwoPhase`) |
| Controller.Firmware.RunTimers | src/main.cpp:455-611 | report, console, start stages, deferred reset, in that order (partner: `TimersKeep`) |
| Controller.Firmware.Loop | src/main.cpp:430-619 | one loop() pass, throttled to 10 ms (partner: `LoopKeepsInv`) |
| Controller.NewWarmUp | src/main.cpp:159-160 | a fresh scheduler wired to the board's clock and store, with its duration loaded from "warmlen" |
| Controller.NewButton | src/main.cpp:238-240 | a fresh button with the stored "btncd" countdown (default 15000), begun on the current reading, callbacks registered (countdown loaded at lines 163-164) |
| Controller.NewReceiver | src/main.cpp:221-234 | a fresh receiver seeded with the current levels and all four callbacks registered |
| BackupMain.DoorAsLive | backup/src/main.cpp:92-559 | the inline door, hazard, indicator and alarm logic changes the door state exactly as the live DoorControl does; only the reply texts differ |
| BackupMain.PulseGuards | backup/src/main.cpp:92-120 | lock is refused with only "IGNORED:LOCK" exactly while locked or busy, otherwise a 600 ms LOCK pulse with the opposite pin low and "ACK:LOCK", `locked` unchanged; unlock mirrored with "IGNORED:UNLOCK" / "ACK:UNLOCK" |
| BackupMain.PulseCompletion | backup/src/main.cpp:436-473 | a completed pulse commits `locked` (true for LOCK, false for UNLOCK), clears the pulse, and emits the pin release, "LOCKED"/"UNLOCKED" and the indicator write |
| BackupMain.StarterDoneKeepsEngine | backup/src/main.cpp:476-482 | starter completion drops STARTER with "ACK:STARTER_DONE" and keeps `engineOn`, so the next remote start press is a resetAll |
| BackupMain.ResetAllSinglePhase | backup/src/main.cpp:150-159 | resetAll drives ACC, IG, ALARM and STARTER low at once, turns the engine off for main and button, replies "ACK:RESET_ALL" last, and leaves LAMP, HAZZARD, the hazard, the pulse, the warm-up and both pending starters alone |
| BackupMain.PendingStartSurvivesReset | backup/src/main.cpp:150-690 | a start request made before a reset still cranks the engine when due |
| BackupMain.StartTheCarNoInterlock | backup/src/main.cpp:320-332 | start_the_car, whatever the state, turns ACC and IG on, schedules the starter 1000 ms out and replies "ACK:START THE CAR" |
| BackupMain.StartCarFiresOnce | backup/src/main.cpp:680-690 | the pending start is consumed when due; it starts a 1000 ms starter pulse with the engine on and "ACK:STARTER ON" only when no starter is active; a second pass finds nothing pending |
| BackupMain.WarmPendingFiresOnce | backup/src/main.cpp:667-677 | the warm-up's pending starter is consumed when due and, silently, starts a starter pulse only when none is active |
| BackupMain.RemoteStartCases | backup/src/main.cpp:245-256 | remote start with the engine off: ACC and IG on, engine reported on at once, starter 1000 ms out, "ACK:START THE CAR SCHEDULED"; with the engine on: resetAll |
| BackupMain.UnknownReply | backup/src/main.cpp:395-399 | an unrecognised command changes nothing and is answered "UNKNOWN:" plus prettyCmd of the raw text |
| BackupMain.WarmLenRange | backup/src/main.cpp:623-638 | warmlen changes and persists the duration exactly when its argument reads (atol) as 1..60 |
| BackupMain.SetRtcRequestCases | backup/src/main.cpp:608-622 | no argument or "now" asks for the compile time; a stamp is handed to the chip exactly when setNowFromString accepts it, as its fixed-offset fields; nothing is handed over exactly for a refused stamp |
| BackupMain.SerialSetRtc | backup/src/main.cpp:608-622 | the console's setrtc changes only the chip's setting: to the request when there is one, not at all for a refused stamp |
| BackupMain.ReadClockOfReading | backup/src/main.cpp:648-651 | hour, minute and day read back from the printed stamp are the reading's own |
| BackupMain.DailyIff | backup/src/main.cpp:647-665 | the daily trigger acts iff it is 08:00 on a day of the month not yet recorded; it records the day and starts a cycle (IG on, starter in 1000 ms, "ACK:WARM_ON") even when one is running |
| BackupMain.DailyOncePerDay | backup/src/main.cpp:652-654 | after firing, the same reading at any later pass leaves the board alone |
| BackupMain.ForceWarmOnlyIdle | backup/src/main.cpp:593-603 | the console's warm starts a cycle only when none is running, without recording a day |
| BackupMain.WarmEndDirect | backup/src/main.cpp:692-703 | warm end turns ACC, IG, STARTER, LAMP and ALARM off, clears `engineOn` directly, replies "ACK:WARM_DONE" last, and leaves the indicator, the lock state and the button's engine flag alone |
| BackupMain.LoopThrottle | backup/src/main.cpp:426-428 | a pass within 10 ms of the previous one does nothing |
| BackupMain.BootInv | backup/src/main.cpp:179-280 | after setup: the board invariant, engine off, no starter, no warm-up, no day recorded, button IDLE (globals initialised at lines 32-89) |
| BackupMain.SetEngineKeeps | backup/src/main.cpp:123-147 | setEngineState keeps the board invariant (pulse invariant, and main's engine flag implies the button's) |
| BackupMain.CallbackKeeps | backup/src/main.cpp:279-280 | a button callback keeps the invariant |
| BackupMain.ResolveKeeps | backup/src/main.cpp:279-280 | all of one update's button callbacks keep the invariant (button update at line 566) |
| BackupMain.OnRemoteKeeps | backup/src/main.cpp:243-274 | a receiver callback keeps the invariant |
| BackupMain.OnRemoteAllKeeps | backup/src/main.cpp:564 | all the callbacks of one receiver update keep the invariant |
| BackupMain.ButtonKeepsEngine | backup/src/ButtonTombol.cpp:28-127 | the earlier button's update never clears its engine flag |
| BackupMain.RemoteAndButtonKeeps | backup/src/main.cpp:563-566 | receiver and button updates keep the invariant |
| BackupMain.TicksKeep | backup/src/main.cpp:435-559 | pulse, starter, alarm, indicator and hazard ticks keep the invariant |
| BackupMain.DoorCmdKeeps | backup/src/main.cpp:351-394 | the door commands keep the invariant |
| BackupMain.StarterOnKeeps | backup/src/main.cpp:335-348 | starter_on keeps the invariant |
| BackupMain.HandleKeeps | backup/src/main.cpp:285-400 | every BLE command keeps the invariant |
| BackupMain.SerialKeeps | backup/src/main.cpp:575-645 | every console line keeps the invariant |
| BackupMain.SerialCmdKeeps | backup/src/main.cpp:581-643 | every classified console command keeps the invariant |
| BackupMain.DailyKeeps | backup/src/main.cpp:647-665 | the daily trigger keeps the invariant |
| BackupMain.WarmEndKeeps | backup/src/main.cpp:692-703 | warm end keeps the invariant |
| BackupMain.TimersKeep | backup/src/main.cpp:568-703 | console, daily trigger, pending starters and warm end keep the invariant |
| BackupMain.PendingKeeps | backup/src/main.cpp:667-690 | the two pending starters keep the invariant |
| BackupMain.LoopKeepsInv | backup/src/main.cpp:424-709 | every pass of loop() keeps the invariant, whatever its inputs |
| BackupBoard.Firmware.constructor | backup/src/main.cpp:179-280 | the globals and components after setup are the boot world: stored warm duration, receiver seeded with callbacks, button begun with callbacks (globals initialised at lines 32-89) |
| BackupBoard.Firmware.StartLockPulse | backup/src/main.cpp:92-105 | the door fields change as the lock request says (partner: `PulseGuards`), the other globals stay |
| BackupBoard.Firmware.StartUnlockPulse | backup/src/main.cpp:107-120 | the same for the unlock request |
| BackupBoard.Firmware.SetAlarm | backup/src/main.cpp:351-372 | alarm on restarts the hazard in alarm mode; alarm off stops it and drives HAZZARD low, with the "ACK:ALARM ON/OFF" reply (also the remote toggle at lines 257-274) |
| BackupBoard.Firmware.SetEngineState | backup/src/main.cpp:123-147 | the step is setEngineState on the world (partner: `SetEngineKeeps`) |
| BackupBoard.Firmware.ResetAll | backup/src/main.cpp:150-159 | the step is resetAll on the world (partner: `ResetAllSinglePhase`) |
| BackupBoard.Firmware.ApplyCallback | backup/src/main.cpp:279-280 | one button effect with the registered callback carried out (partner: `CallbackKeeps`) |
| BackupBoard.Firmware.ResolveAll | backup/src/main.cpp:279-280 | the button's effects with each callback carried out in order (partner: `ResolveKeeps`) (button update at line 566) |
| BackupBoard.Firmware.EngageStarter | backup/src/main.cpp:336-341 | STARTER high, starter taken until `now+1000`, engine reported on (the same steps at lines 670-674 and 682-686) |
| BackupBoard.Firmware.RemoteStart | backup/src/main.cpp:245-256 | the remote start callback (partner: `RemoteStartCases`) |
| BackupBoard.Firmware.RemoteEvent | backup/src/main.cpp:243-274 | the registered callback of one receiver event |
| BackupBoard.Firmware.RemoteEvents | backup/src/main.cpp:564 | the callbacks of one receiver update, in order (partner: `OnRemoteAllKeeps`) |
| BackupBoard.Firmware.Switch | backup/src/main.cpp:289-317 | acc/ig/lamp on/off drive their pin, record the flag and reply with the "ACK:" token (also lamp at lines 375-388) |
| BackupBoard.Firmware.StartTheCar | backup/src/main.cpp:320-332 | the step of start_the_car (partner: `StartTheCarNoInterlock`) |
| BackupBoard.Firmware.StarterOn | backup/src/main.cpp:335-348 | starter pulse when the starter is free, else "IGNORED:STARTER ON" (partner: `StarterOnKeeps`) |
| BackupBoard.Firmware.DoorRequest | backup/src/main.cpp:351-394 | lock, unlock, alarm_on and alarm_off (partner: `DoorCmdKeeps`) |
| BackupBoard.Firmware.DispatchCmd | backup/src/main.cpp:289-394 | a recognised command's step, by the if-chain of the write handler |
| BackupBoard.Firmware.HandleWrite | backup/src/main.cpp:285-400 | the write handler on raw text (partners: `UnknownReply`, `HandleKeeps`) |
| BackupBoard.Firmware.Connection | backup/src/main.cpp:402-409 | the connection flag and the connection LED follow the link |
| BackupBoard.Firmware.PulseStep | backup/src/main.cpp:435-473 | pulse completion (partner: `PulseCompletion`) |
| BackupBoard.Firmware.StarterDoneStep | backup/src/main.cpp:475-482 | starter completion (partner: `StarterDoneKeepsEngine`) |
| BackupBoard.Firmware.AlarmStep | backup/src/main.cpp:484-495 | the alarm output wave, 200 ms each way |
| BackupBoard.Firmware.PesawatStep | backup/src/main.cpp:497-508 | the indicator blink, HIGH 100 ms and LOW 3000 ms |
| BackupBoard.Firmware.HazardStep | backup/src/main.cpp:510-559 | the hazard patterns, as the live controller's |
| BackupBoard.Firmware.TicksStep | backup/src/main.cpp:435-559 | pulse, starter, alarm, indicator and hazard, in that order (partner: `TicksKeep`) |
| BackupBoard.Firmware.UpdateRemoteAndButton | backup/src/main.cpp:563-566 | rx500.update() then buttonTombol.update(), with their callbacks |
| BackupBoard.Firmware.WarmStart | backup/src/main.cpp:595-600 | a warm-up cycle starting now: active, end after the duration, IG on, starter pending in 1000 ms (the same steps at lines 654-663) |
| BackupBoard.Firmware.WarmLen | backup/src/main.cpp:623-638 | the warmlen command (partner: `WarmLenRange`) |
| BackupBoard.Firmware.SetRtcCommand | backup/src/main.cpp:608-622 | setrtc calls setNowToCompileTime or setNowFromString on the RTC module (partners: `SetRtcRequestCases`, `SerialSetRtc`) |
| BackupBoard.Firmware.SerialCommand | backup/src/main.cpp:581-643 | one classified console command, setrtc included (partners: `SerialCmdKeeps`, `SerialSetRtc`) |
| BackupBoard.Firmware.SerialStep | backup/src/main.cpp:575-645 | a trimmed, non-empty console line (partner: `SerialKeeps`) |
| BackupBoard.Firmware.DailyStep | backup/src/main.cpp:647-665 | the daily trigger (partners: `DailyIff`, `DailyOncePerDay`) |
| BackupBoard.Firmware.WarmPendingStep | backup/src/main.cpp:667-677 | the warm-up's pending starter (partner: `WarmPendingFiresOnce`) |
| BackupBoard.Firmware.StartCarStep | backup/src/main.cpp:679-690 | the pending start_the_car starter (partner: `StartCarFiresOnce`) |
| BackupBoard.Firmware.WarmEndStep | backup/src/main.cpp:692-703 | the end of a warm-up cycle (partner: `WarmEndDirect`) |
| BackupBoard.Firmware.RunTimers | backup/src/main.cpp:568-703 | console, daily trigger, pending starters, warm end, in that order (partner: `TimersKeep`) |
| BackupBoard.Firmware.Loop | backup/src/main.cpp:424-709 | one loop() pass, throttled to 10 ms (partners: `LoopThrottle`, `LoopKeepsInv`) |
| BackupBoard.NewButton | backup/src/main.cpp:278-280 | a fresh button begun on the current reading with both callbacks registered |
| BackupBoard.NewReceiver | backup/src/main.cpp:242-257 | a fresh receiver seeded with the current levels and all four callbacks registered |

## Left out

- BLE transport: advertising, the connection callbacks' logging and the ESP32 stack are not modelled. `notify` is a `Notify` effect. The 5 ms delay between notification chunks and the reconnect delay are timing only.
- Serial output: every `Serial.print`, the periodic clock log and `printNow` are not modelled. Only the dispatch decision on an already-read console line is. The line reading itself is an input.
- `i2cscan` and `rtc` console commands: they only print. The `i2cscan` Wire bus loop is pure I/O, so both are modelled as commands that change nothing.
- `setup()`: pinMode, the 3 s baud-change window and the MAC/UUID printing are not modelled. The constructors `Controller.Firmware.constructor` and `BackupBoard.Firmware.constructor` start from the state `setup()` leaves. They do not return the effects `setup()` writes to pins.
- `millis()` wrap-around: time is an unbounded `nat`, so the 32-bit wrap of the millisecond counter is not modelled.
- RTClib: `rtc.now`, `rtc.lostPower`, `rtc.begin` and `rtc.adjust` are foreign. The chip's reading and presence are inputs of each step, so a setting handed to the chip shows in later readings only through those inputs.
- `Rtc.RTCModule.SetNowFromString` returns the fields it hands to `rtc.adjust`. The live world keeps only the RTC status, not the fields.
- `BackupRtc.RTCModule` records the setting it last handed to `rtc.adjust`: the compile time, or the fields of an accepted stamp. The compile time itself (`__DATE__`, `__TIME__`) is not modelled, only that it was requested.
- `begin()` of the earlier RTCModule is not modelled. Its adjust to the compile time after a power loss (backup/src/RTCModule.cpp:17-20) is not recorded, because the board's boot takes no chip state.
- Warmup.WarmUpEngine.Update: the chip is read once per call. `update()` reads it up to three times, through `rtcSafeNow` and `rtcTimePlausible` (src/WarmUp_engine.cpp:72-73), so a reading that changes between those reads is not modelled.
- Preferences: NVS is a map from keys to integers. Flash wear and commit failures are not modelled.
- Concurrency: the BLE write callback runs on another FreeRTOS task, and the `volatile` globals reflect that. Each handler call is modelled as an atomic step between loop passes.
- Remote and button callbacks: the receiver's callbacks run after all four levels of an update are stored, whereas the source calls each one between two channels. No callback reads the receiver, so the outcome is the same.
- The earlier snapshot has no RX500 receiver source of its own. Its `main.cpp` uses the same RX500Module interface, so `BackupBoard` uses the `Remote` module.
- `host_time_responder.py` and the SPP echo test in `test/main.cpp` are host-side or test programs outside the firmware.
