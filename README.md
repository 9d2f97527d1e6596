# Digital AC Switcher — a verified model of the control loop

The switcher is an Arduino sketch that drives four mains loads through
relays. Each load (channel A to D) has a push-button that toggles it, an
indicator LED that shows it and a relay driven active-low (relay HIGH = load
off). A panic button switches every load off without forgetting which ones
were on, blinks the panic indicator until it is pressed again, and later
restores the loads. An interrupt line puts the microcontroller to sleep and
wakes it again; with the build option `INTERRUPT_AT_START` the first pass of
the loop goes to sleep by itself.

This project models `setup()` and one pass of `loop()` of `src/main.cpp`:

- `millis.dfy` — module `Millis`: the 32-bit unsigned clock and the wrapping
  difference `now - last` that the blink timer compares with the 450 ms
  period.
- `control.dfy` — module `Control`: the state between two passes as a value
  (`State`: the four channels' flags with their relay and indicator levels,
  `stopFlag`, `iFlag`, `softInterrupt`, the blink bookkeeping with the panic
  indicator, and the ENABLED/DISABLED sleep indicators), the inputs of a pass
  (`PassInput`: the level of each input at the moment the pass reads it, and
  the `(panic level, millis)` samples the blink loop consumes), and one pass
  as pure functions in the source's order: `EnterSleep` (gate),
  `PanicButton` (engage or restore, blink, flip), `PollChannels` (A, B, C, D),
  `WakeAck`; `Pass` composes them and `Run` repeats them. `Boot` is the state
  `setup()` leaves and `Valid` the invariant that holds between passes (its
  clauses are spelled out in the `ControlProperties.PassKeepsValid` row).
- `blink.dfy` — module `BlinkProperties`: the blink loop's properties.
- `properties.dfy` — module `ControlProperties`: channel isolation, the
  output-polarity invariant, panic override and restore, the one-shot boot
  sleep, and the sleep flag's round trip inside one pass.
- `device.dfy` — module `Board`: class `Device` holds the sketch's globals
  and pin levels as fields and runs the pass in place (`Step` and the
  methods for each block, the blink loop as a `while` loop over the samples).
  Each method is proved to leave `Snapshot()` equal to the matching
  `Control` function of the old snapshot, so every lemma about `Control`
  holds of the device.

Pin levels are booleans with HIGH = true. The buttons and the interrupt line
are pulled up, so LOW means pressed.

The gate (src/main.cpp:187-188) drives the DISABLED indicator LOW and the
ENABLED indicator HIGH while the device sleeps, and the acknowledgment
(src/main.cpp:354-355) turns them back. So between passes ENABLED is dark
and DISABLED lit.

Where the code and the sketch's own header comment (src/main.cpp:9-21)
differ, the model follows the code:

- The header promises that the panic button disables and locks all loads.
  The channel blocks (src/main.cpp:274-322) do not test `stopFlag`. Channels
  are locked out only while the blink loop (src/main.cpp:249-265) runs. A
  channel press read after that loop ends toggles in the same pass
  (`PressAfterEngageToggles`), and so does one in any later pass that does
  not press panic while `stopFlag` is true (`ChannelsNotLockedWhileEngaged`).
  The press that ends the blink loop is not waited on. The restore happens
  on the next pass only if that press is still held when the pass reads the
  button. Otherwise panic stays engaged, unlocked and not blinking until the
  next press.

## Model

| member | source | states |
|---|---|---|
| `Millis.Elapsed` | src/main.cpp:254-255 | the unsigned `millisActual - millisAnterior` is the plain difference without wrap and `2^32 - last + now` across a wrap; `last + elapsed` is `now` modulo 2^32 |
| `Control.Boot` | src/main.cpp:74-132 | `setup()` leaves all flags false, relays HIGH (loads off), channel indicators LOW, no panic, the blink phase LOW at time 0, the boot sleep pending as `INTERRUPT_AT_START` says, and the between-passes invariant `Valid` holding |
| `Control.EnterSleep` | src/main.cpp:152-193 | when the gate fires, `iFlag` flips, `softInterrupt` ends false, DISABLED is LOW and ENABLED HIGH; otherwise nothing changes; channels, `stopFlag` and blink state are never touched |
| `ControlProperties.GateFiresBetweenPasses` | src/main.cpp:152 | between passes the gate fires exactly when the interrupt line reads LOW or the boot sleep is pending; its `!iFlag` test never blocks there |
| `Control.WakeAck` | src/main.cpp:327-359 | with `iFlag` up it lowers `iFlag`, darkens ENABLED and lights DISABLED; with `iFlag` down it changes nothing; channels, panic state and `softInterrupt` untouched |
| `Control.Darken` | src/main.cpp:213-214 | a channel under panic engage has relay HIGH and indicator LOW and keeps its flag |
| `Control.Show` | src/main.cpp:232-233 | a restored channel has indicator = flag and relay = !flag and keeps its flag |
| `Control.Engage` | src/main.cpp:212-224 | every channel forced (relay HIGH, indicator LOW), every flag kept, nothing else changed |
| `Control.Restore` | src/main.cpp:231-243 | every channel shows its flag with the inverse on the relay, every flag kept, nothing else changed |
| `Control.PanicLit` | src/main.cpp:200 | the panic indicator is lit when panic is about to engage and cleared when it is about to be restored; nothing else changes |
| `Control.DriveOutputs` | src/main.cpp:212-243 | each channel is darkened when `stopFlag` is false and shown from its flag when it is true; nothing but the four channels changes |
| `Control.BlinkStage` | src/main.cpp:249-265 | the blink loop runs only when panic is being engaged: on engage the blink state becomes the loop's result over the samples, on restore nothing changes; it only ever changes the blink state, and then the panic indicator shows the blink phase |
| `Control.FlipStop` | src/main.cpp:266-270 | `stopFlag` flips and the panic indicator shows its new value; nothing else changes |
| `Control.PanicPress` | src/main.cpp:196-271 | a handled panic press flips `stopFlag` once and leaves the panic indicator equal to the new `stopFlag`; flags kept; engage forces all channels and leaves the blink phase and flip time as the blink loop over the samples gives them; restore shows all channels and leaves the blink phase and time alone; sleep state untouched |
| `Control.PanicButton` | src/main.cpp:196-271 | a HIGH panic button changes nothing; the panic mode flips exactly when the button reads LOW; no channel flag and no sleep state changes |
| `Control.Toggle` | src/main.cpp:277-280 | a pressed channel's flag flips and its indicator shows it, with the inverse on the relay |
| `Control.PollButton` | src/main.cpp:274-322 | a LOW button flips only its own channel's flag, after which indicator = flag and relay = !flag; a HIGH button changes nothing; other channels and all other state unchanged |
| `Control.PollChannels` | src/main.cpp:274-322 | after the four blocks, each channel is toggled exactly when its own button read LOW, independently of the others; nothing else changes |
| `Control.BlinkTick` | src/main.cpp:254-264 | one loop iteration changes the blink state exactly when `(now - millisAnterior) mod 2^32 >= 450`, and then flips `stateStop`, sets `millisAnterior := now` and writes the new phase to the panic indicator |
| `Control.BlinkRun` | src/main.cpp:249-265 | after the loop, either the blink state is as it was or the panic indicator shows the current phase |
| `Control.BlinkRunIgnoresIndicator` | src/main.cpp:249-265 | the phase and flip time the loop leaves do not depend on the panic indicator's level when it started |
| `BlinkProperties.FirstLow` | src/main.cpp:249 | the sample that ends the blink loop is the first LOW one: every earlier sample is HIGH |
| `BlinkProperties.BlinkTickAcrossWrap` | src/main.cpp:255 | 512 ms across the clock's wrap to zero is a full blink period |
| `BlinkProperties.BlinkRunIgnoresLaterSamples` | src/main.cpp:249-265 | samples after the first LOW one are never consumed: appending samples to a sequence that already holds the ending press changes nothing |
| `BlinkProperties.BlinkRunStopsAtPress` | src/main.cpp:249-265 | the loop stops at the first LOW sample and that press has no effect itself (its clock value is never read): the result is the loop over the HIGH samples before it |
| `BlinkProperties.BlinkRunQuiet` | src/main.cpp:249-265 | while less than a period has passed at every sample, the loop changes nothing |
| `BlinkProperties.BlinkRunFirstDue` | src/main.cpp:249-264 | the loop does blink: at the first HIGH sample a full period after the last flip it flips the phase, remembers that sample's time, shows the new phase, and carries on from the next sample |
| `BlinkProperties.BlinkRunRemembersSampleTime` | src/main.cpp:254-256 | the remembered flip time after the loop is the old one or the clock value of a sample read before the ending press (it and every earlier sample HIGH) |
| `ControlProperties.PollButtonKeepsConsistent` | src/main.cpp:274-322 | a channel block keeps "relay = !flag and indicator = flag" for all four channels |
| `ControlProperties.PanicPressChannel` | src/main.cpp:196-271 | a panic press darkens (engage) or shows from its flag (restore) each channel; the blink loop and indicator writes leave channels alone |
| `ControlProperties.AfterPanicChannel` | src/main.cpp:152-271 | the gate leaves channels alone, so channel polling starts from the panic block's result |
| `Control.Pass` | src/main.cpp:146-360 | one pass flips the panic mode exactly when panic is pressed, always leaves the boot sleep consumed, and always ends with `iFlag` down |
| `ControlProperties.PassChannel` | src/main.cpp:146-360 | one pass maps each channel to: engaged or restored if panic was pressed, then toggled if its own button was pressed |
| `ControlProperties.PassFlag` | src/main.cpp:146-360 | a channel flag changes in a pass exactly when its button is pressed; panic never writes flags |
| `ControlProperties.PassKeepsValid` | src/main.cpp:146-360 | every pass keeps the invariant: `iFlag` down, ENABLED dark, DISABLED lit, panic indicator = `stopFlag`, all channels consistent when panic is off, and each channel consistent or forced off otherwise |
| `Control.Run` | src/main.cpp:146-360 | over any number of passes panic ends engaged exactly when it started engaged or was pressed an odd number of times, but not both |
| `ControlProperties.RunKeepsValid` | src/main.cpp:146-360 | any number of passes from a valid state keep the invariant |
| `ControlProperties.ReachableIsValid` | src/main.cpp:86-360 | every state reached from `setup()` satisfies the invariant |
| `ControlProperties.SleepFlagRoundTrip` | src/main.cpp:152-359 | starting with `iFlag` down, the gate raises it exactly when it fires and the device sleeps with ENABLED HIGH and DISABLED LOW; the acknowledgment runs exactly when the gate fired; the pass ends with `iFlag` down, ENABLED LOW and DISABLED HIGH |
| `ControlProperties.SoftInterruptConsumed` | src/main.cpp:152-162 | a pending boot sleep forces the gate, and after any pass `softInterrupt` is false |
| `ControlProperties.SoftInterruptNeverReturns` | src/main.cpp:152-162 | once consumed, or after at least one pass, `softInterrupt` stays false for any number of passes |
| `ControlProperties.BootSleepsFirst` | src/main.cpp:112-193 | the first pass after `setup()` sleeps whatever the interrupt line reads, with all relays off and flags false, and ends awake with no boot sleep pending |
| `ControlProperties.EngageThenRestore` | src/main.cpp:212-271 | engage forces all outputs and keeps flags; engage then restore returns every channel's flag, relay and indicator to its pre-panic value and the panic indicator to LOW |
| `ControlProperties.PanicRoundTrip` | src/main.cpp:196-322 | two passes that press panic and no channel button restore every channel exactly, the first leaving all channels forced with flags kept |
| `ControlProperties.PressAfterEngageToggles` | src/main.cpp:249-286 | a channel press read after the blink loop, in the pass that engaged panic, toggles and shows that channel while the others stay forced and panic stays engaged |
| `ControlProperties.ChannelsNotLockedWhileEngaged` | src/main.cpp:270-322 | with panic engaged and not pressed in the pass, a channel press still toggles the channel and panic stays engaged |
| `ControlProperties.OnlyEngageBreaksPolarity` | src/main.cpp:212-224 | if a pass breaks a channel's polarity, the pass engaged panic and did not press that channel, and the channel is left forced off |
| `ControlProperties.ScenarioBootPressPanic` | src/main.cpp:146-360 | boot, wake, press A, engage and restore: A on (relay LOW, indicator HIGH), then forced off with its flag kept, then on again |
| `Board.Device.constructor` | src/main.cpp:112-132 | the new device is in the `setup()` state, which satisfies the invariant |
| `Board.Device.ScanGate` | src/main.cpp:152-193 | the in-place gate leaves the device in the `EnterSleep` state |
| `Board.Device.BlinkUntilPressed` | src/main.cpp:249-265 | the blink `while` loop ends at the first LOW sample and leaves the blink fields as the blink specification over the samples gives; it runs only when panic is being engaged |
| `Board.Device.ForceOutputsOff` | src/main.cpp:212-224 | the in-place engage writes give the `Engage` state |
| `Board.Device.ShowOutputs` | src/main.cpp:231-243 | the in-place restore writes give the `Restore` state |
| `Board.Device.ScanPanic` | src/main.cpp:196-271 | the in-place panic block gives the specified panic transition |
| `Board.Device.ScanChannel` | src/main.cpp:274-322 | one in-place channel block gives the `PollButton` state |
| `Board.Device.ScanChannels` | src/main.cpp:274-322 | the four blocks in order give the state of all four channel blocks |
| `Board.Device.AcknowledgeWake` | src/main.cpp:327-359 | the in-place acknowledgment gives the `WakeAck` state |
| `Board.Device.Step` | src/main.cpp:146-360 | one in-place pass of `loop()` leaves the device in the `Pass` state of its old state |

## Left out

- Buzzer patterns (`tone`, `noTone` and their `delay`s) are timing only and change no modelled state.
- `pinMode` configuration and the `delay(300)` at the end of `setup()` are platform set-up.
- AVR sleep and interrupt hardware are not modelled: `set_sleep_mode`, `sleep_enable`, `sleep_mode`, `sleep_disable`, `attachInterrupt` and the handler `interrupthandler`. The handler only cancels the sleep, so "sleep, then wake" is modelled as the gate returning. An interrupt outside sleep changes no modelled state.
- `millis()` and `digitalRead` are inputs, not hardware reads. Each pass gets the levels it reads and the blink loop's `(level, time)` samples.
- The wait-for-release loops (src/main.cpp:153, 197, 275, 290, 302, 314, 351) change no state and become no-ops. Whether they terminate depends on the user, so it is not modelled.
- `Board.Device.Step`: requires the blink samples to hold a LOW sample when the pass engages panic. A pass whose blink loop never sees a press never returns and is not modelled as a step.
- `Control.BlinkRun`: on samples with no LOW one it gives the state reached so far, a pass still in progress. This is weaker than the never-returning loop.
- `millisActual` is kept as a local of the blink loop. It is only read in the iteration that writes it. `setup()` also zeroes it, which has no effect.
- The endless repetition of `loop()` by the Arduino runtime is `Control.Run` over a finite sequence of pass inputs.
- Channel state is one record per channel: its flag, its relay level and its indicator level. The source keeps these as separate globals and pins.
- Commented-out serial debugging output is left out.
