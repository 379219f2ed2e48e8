# Taranis board lifecycle, in Dafny

This project models the board lifecycle controller of EdgeTX radios of the
Taranis family (`radio/src/targets/taranis/board.cpp`):

- `UNEXPECTED_SHUTDOWN`: the start-up test of whether the previous run ended
  without the orderly power-down.
- `boardInit`: the ordered hardware bring-up. It has three parts:
  - phase 1: clocks, option bytes, power detection, module ports, status LED;
  - the charge-wait block of radios with function-switch LEDs, with its battery
    ladder;
  - phase 3: keys, interrupts, ADC, display and the other drivers, then the
    real-time clock, backlight and contrast.
- `boardOff`: the power-down that never returns.
- `isJackPlugged`: the two-sample debounce of the headphone jack.

The build-time `#if defined(...)` options are a `FeatureSet` value, so every
property is proved for every combination of options at once. Each call into a
driver becomes an `Event` appended to a trace. The answers the code branches on
are parameters:

- the option-byte brown-out level;
- the `usbPlugged()` answers and battery voltages of the charge loop;
- the result of `adcInit`;
- the reset cause;
- the `pwrPressed()` samples;
- the jack pin level.

Each block of the code is a method that builds its trace step by step. Each
method is proved equal to a trace function, and the ordering and gating
properties are proved as lemmas about those functions. `isJackPlugged` keeps
its two function-local statics, so it is a class whose method updates them in
place.

Modules:

- `Events`: the event type, and the ordering predicates `Before`, `Preceded`,
  `Follows` and `AllBefore` with their concatenation lemmas.
- `Features`: build options, reset flags and `UNEXPECTED_SHUTDOWN`.
- `ChargeLadder`: the charge-wait block.
- `BootPhases`: phase 1 and phase 3 of `boardInit`.
- `BoardInit`: `boardInit` as a whole.
- `BoardOff`: `boardOff`.
- `JackDetect`: `isJackPlugged`.

Two behaviours of the code worth knowing before reading the contracts:

- Jack debounce. A sample that differs from the previous raw sample leaves the
  reported level unchanged, whatever its direction (lines 358-368).
- Delay service. In phase 3 the keys and switches are initialised (lines
  180-185) before the main `delaysInit` (line 187). The orderings the model
  states are the ones the code has:
  - delay service before interrupts, the ADC and the display;
  - power detection before the module ports;
  - the clock directly before the backlight, after every driver except the
    backlight and the contrast.

## Model

All source paths are in `radio/src/targets/taranis/board.cpp`.

| member | source | states |
|---|---|---|
| Features.UnexpectedShutdown | radio/src/targets/taranis/board.cpp:68-72 | an unexpected shutdown is reported when the reset was a watchdog reset or the persisted flag is set, and only then |
| Features.UnexpectedShutdownTable | radio/src/targets/taranis/board.cpp:68-72 | the four combinations of watchdog flag and persisted flag; the software-reset flag plays no part |
| BootPhases.EarlyInit | radio/src/targets/taranis/board.cpp:95-142 | phase 1 produces exactly the trace of its steps and optional steps, in source order |
| BootPhases.EarlyOrder | radio/src/targets/taranis/board.cpp:115-118 | power detection is set up before the module ports, whatever the options |
| BootPhases.EarlyEvents | radio/src/targets/taranis/board.cpp:95-142 | phase 1 takes only clock, Bluetooth, option-byte, trainer, power, module-port, heartbeat and status-LED steps |
| BootPhases.EarlyGating | radio/src/targets/taranis/board.cpp:97-113 | Bluetooth starts exactly when built in; the brown-out level is programmed exactly on a RadioMaster F407 whose option bytes are not already at level 3 |
| BootPhases.StatusLedGating | radio/src/targets/taranis/board.cpp:135-142 | the status LED is set up only when built in, blue on RadioMaster, Jumper and Commando8 radios and green otherwise |
| ChargeLadder.ThresholdsAscend | radio/src/targets/taranis/board.cpp:163-174 | the six ladder thresholds strictly ascend |
| ChargeLadder.ReachedIsPrefix | radio/src/targets/taranis/board.cpp:163-174 | with ascending thresholds, the ones a voltage reaches are exactly the first `Reached` of them |
| ChargeLadder.ReachedLadder | radio/src/targets/taranis/board.cpp:163-174 | the number of LEDs lit, voltage band by voltage band (660, 700, 740, 780, 820, 842) |
| ChargeLadder.LadderExamples | radio/src/targets/taranis/board.cpp:163-174 | 7.41 V lights three LEDs, 6.59 V none, 9.00 V all six |
| ChargeLadder.Ladder | radio/src/targets/taranis/board.cpp:163-174 | a pass that lights `n` LEDs switches on LEDs 0 to n-1, one each, in ascending order |
| ChargeLadder.Lit | radio/src/targets/taranis/board.cpp:163-174 | the LEDs lit by such a pass are exactly those below `n` |
| ChargeLadder.LadderLeds | radio/src/targets/taranis/board.cpp:163-174 | an LED is switched on by the pass exactly when it is in the lit set |
| ChargeLadder.LitMeansReached | radio/src/targets/taranis/board.cpp:163-174 | LED `i` is lit exactly when the voltage reaches threshold `i` |
| ChargeLadder.LightLadder | radio/src/targets/taranis/board.cpp:163-174 | the six comparisons switch on the LEDs of the thresholds the voltage reaches, in ascending order |
| ChargeLadder.Charging | radio/src/targets/taranis/board.cpp:159 | the loop runs once per leading sample that finds USB plugged, and stops at the first that does not |
| ChargeLadder.Peak | radio/src/targets/taranis/board.cpp:159-175 | the highest voltage read so far bounds every reading and is one of them |
| ChargeLadder.LitAfterMeaning | radio/src/targets/taranis/board.cpp:159-175 | after `n` iterations LED `i` is lit exactly when one of the first `n` voltages reaches threshold `i` |
| ChargeLadder.LitAfterGrows | radio/src/targets/taranis/board.cpp:159-175 | the loop never switches an LED off: the lit set only grows |
| ChargeLadder.LitAfterIsPrefix | radio/src/targets/taranis/board.cpp:159-175 | at every point the lit LEDs are 0..k-1, where k is the number of thresholds the highest voltage so far reaches |
| ChargeLadder.HeaderNoWait | radio/src/targets/taranis/board.cpp:147-157 | the set-up before the loop has no 20 ms wait |
| ChargeLadder.HeaderPowersOnce | radio/src/targets/taranis/board.cpp:147-157 | the set-up switches the power latch on exactly once |
| ChargeLadder.HeaderFacts | radio/src/targets/taranis/board.cpp:147-157 | the set-up lights no LED and never releases the power latch |
| ChargeLadder.IterationWaits | radio/src/targets/taranis/board.cpp:159-162 | one iteration adds exactly one 20 ms wait |
| ChargeLadder.IterationLeds | radio/src/targets/taranis/board.cpp:159-175 | one iteration adds exactly the LEDs its ladder pass lights |
| ChargeLadder.IterationKinds | radio/src/targets/taranis/board.cpp:159-175 | one iteration takes only an ADC read, a wait and LED steps |
| ChargeLadder.LoopTraceWaits | radio/src/targets/taranis/board.cpp:159-175 | the loop waits 20 ms exactly once per iteration |
| ChargeLadder.LoopTraceLeds | radio/src/targets/taranis/board.cpp:159-175 | the loop switches on exactly the LEDs reached by some voltage read so far |
| ChargeLadder.LoopTraceKinds | radio/src/targets/taranis/board.cpp:159-175 | the loop takes only ADC reads, 20 ms waits and LED steps |
| ChargeLadder.ChargeLoop | radio/src/targets/taranis/board.cpp:159-175 | the loop produces, for each leading sample that finds USB plugged, an ADC read, a 20 ms wait and that voltage's ladder pass, in order (`LoopTrace`), and its lit set is the LEDs reached so far (`LitAfter`) |
| ChargeLadder.HeaderPrecedesDelays | radio/src/targets/taranis/board.cpp:151-162 | every 20 ms wait comes after the delay service and the ADC are set up |
| ChargeLadder.HeaderPrecedesAdc | radio/src/targets/taranis/board.cpp:151-153 | the ADC is started only after the delay service |
| ChargeLadder.ChargeWait | radio/src/targets/taranis/board.cpp:145-178 | the block is `ChargeBlock`: only the USB start without USB; otherwise the set-up, power on, both module rails off, the loop trace, and the power-latch release |
| ChargeLadder.ChargeBlockFacts | radio/src/targets/taranis/board.cpp:145-178 | the block starts with the USB start; with USB it is the set-up, then the loop, then the single release of the latch; it waits once per iteration, powers on once, and takes only block steps |
| ChargeLadder.ChargeBlockLedsAndOrder | radio/src/targets/taranis/board.cpp:145-178 | the block lights exactly the LEDs reached so far; waits come after the delay service and the ADC; the ADC starts after the delay service |
| ChargeLadder.ChargeBlockAdcStart | radio/src/targets/taranis/board.cpp:147-153 | with USB plugged the block starts USB, then the delay service, then the ADC |
| ChargeLadder.BlockShape | radio/src/targets/taranis/board.cpp:151-177 | the block is the set-up, the loop, then the single release of the power latch |
| ChargeLadder.BlockWaits | radio/src/targets/taranis/board.cpp:151-177 | the block waits exactly as often as its loop |
| ChargeLadder.BlockPowersOnce | radio/src/targets/taranis/board.cpp:151-177 | the block powers on exactly once |
| ChargeLadder.BlockLeds | radio/src/targets/taranis/board.cpp:151-177 | the block lights exactly the LEDs its loop lights |
| ChargeLadder.BlockOrder | radio/src/targets/taranis/board.cpp:151-177 | waits come after the delay service and the ADC; ADC starts after the delay service |
| BootPhases.InitInputs | radio/src/targets/taranis/board.cpp:180-188 | keys, switches, optional encoder, delay service, interrupts on, in that order |
| BootPhases.InitAdc | radio/src/targets/taranis/board.cpp:190-199 | optional stick detection and gimbal, then the ADC, with the failure traced when it fails |
| BootPhases.InitDevices | radio/src/targets/taranis/board.cpp:201-223 | the display and the other devices in source order, each optional one by its option |
| BootPhases.InitPowerIo | radio/src/targets/taranis/board.cpp:225-246 | the power latch, top display, charger, jack detection, speaker and headphone switch, each optional one by its option |
| BootPhases.InitTail | radio/src/targets/taranis/board.cpp:248-256 | optional clock, backlight, optional contrast |
| BootPhases.DriverInit | radio/src/targets/taranis/board.cpp:180-256 | phase 3 is its five regions in order |
| BootPhases.BeforeThroughDevices | radio/src/targets/taranis/board.cpp:180-256 | an ordering met by the end of the device region holds for all of phase 3 |
| BootPhases.DriverOrderIrq | radio/src/targets/taranis/board.cpp:187-188 | the delay service comes before interrupts are enabled |
| BootPhases.DriverOrderAdc | radio/src/targets/taranis/board.cpp:187-198 | the delay service and interrupts come before the ADC starts |
| BootPhases.DriverOrderLcd | radio/src/targets/taranis/board.cpp:187-201 | the display starts only after the delay service and interrupts |
| BootPhases.RegionKinds | radio/src/targets/taranis/board.cpp:180-256 | each region of phase 3 takes only its own steps |
| BootPhases.RegionsCombine | radio/src/targets/taranis/board.cpp:180-256 | phase 3 takes no phase-1 or charge-only step; the ADC failure and the power latch come only from their regions; the clock appears only in the tail |
| BootPhases.DriverEvents | radio/src/targets/taranis/board.cpp:180-256 | phase 3 starts with the keys and takes no step of phase 1 and no step that only the charge block takes (ADC reads, 20 ms waits, LED steps, module rails off, latch release) |
| BootPhases.InputsGating | radio/src/targets/taranis/board.cpp:183-185 | the encoder is set up exactly when built in |
| BootPhases.AdcGating | radio/src/targets/taranis/board.cpp:190-199 | stick detection and gimbal by option; the failure is traced exactly when the start fails |
| BootPhases.DeviceGating | radio/src/targets/taranis/board.cpp:207-223 | debug serial and the debug freeze exactly in debug builds; haptic and module probe by option |
| BootPhases.PowerIoGating | radio/src/targets/taranis/board.cpp:225-242 | the latch is switched on exactly for a power-button radio after a watchdog or software reset; top display, charger and jack detection by option |
| BootPhases.TailShape | radio/src/targets/taranis/board.cpp:248-256 | the clock, when built in, is first and directly before the backlight; the contrast is set exactly with a GUI |
| BootPhases.DriverAdcFailureGating | radio/src/targets/taranis/board.cpp:198-199 | phase 3 traces an ADC failure exactly when the start fails |
| BootPhases.AdcFailureAfterStart | radio/src/targets/taranis/board.cpp:198-199 | a failed start is traced after the start |
| BootPhases.DriverAdcFailure | radio/src/targets/taranis/board.cpp:198-199 | no ADC failure is traced before an ADC start |
| BootPhases.DriverPowerLatch | radio/src/targets/taranis/board.cpp:225-229 | phase 3 switches the latch on exactly for a power-button radio after a watchdog or software reset, and only once interrupts are on |
| BootPhases.UnexpectedShutdownRestartsPower | radio/src/targets/taranis/board.cpp:68-72 | an unexpected shutdown with the persisted flag clear makes a power-button radio switch its latch on in phase 3 (lines 225-229), after interrupts are on |
| BootPhases.DriverTail | radio/src/targets/taranis/board.cpp:248-256 | phase 3 ends with the tail and no earlier step sets up the clock |
| BootPhases.RtcOnlyInTail | radio/src/targets/taranis/board.cpp:248-249 | no region before the tail sets up the clock |
| BootPhases.AdcFailureOnlyTraced | radio/src/targets/taranis/board.cpp:198-199 | a failed ADC start changes nothing else: the trace equals the successful one with the failure inserted right after the ADC start |
| BoardInit.ChargePhaseRun | radio/src/targets/taranis/board.cpp:144-178 | the charge-wait phase is the block (`ChargeBlock`) on radios with function-switch LEDs and nothing otherwise, with the LEDs the loop lit |
| BoardInit.ChargeTraceSteps | radio/src/targets/taranis/board.cpp:144-178 | the phase takes only block steps; it powers on and releases the latch exactly when the loop runs, starts the ADC only then, and waits once per iteration |
| BoardInit.ChargeTraceOrder | radio/src/targets/taranis/board.cpp:144-178 | the phase lights exactly the LEDs of its lit set; its waits follow the delay service and the ADC; its ADC start follows the delay service |
| BoardInit.ChargeTracePhase | radio/src/targets/taranis/board.cpp:144-178 | the phase has all the properties of the two lemmas above |
| BoardInit.EarlyAndChargeInBoot | radio/src/targets/taranis/board.cpp:93-257 | power detection stays before the module ports, and every step only the charge block takes (ADC reads, 20 ms waits, LED steps, module rails off, latch release) comes before the first key step |
| BoardInit.ChargeInBoot | radio/src/targets/taranis/board.cpp:93-257 | the charge block's waits, LEDs, latch release and ordering hold in the whole boot trace |
| BoardInit.DriverOrderInBoot | radio/src/targets/taranis/board.cpp:93-257 | the phase-3 orderings hold in the boot trace; when the charge loop did not run, interrupts precede every ADC start |
| BoardInit.ChargeAdcBeforeIrq | radio/src/targets/taranis/board.cpp:151-188 | when the charge loop runs, its ADC start (line 153) comes before interrupts are enabled (line 188), so not every ADC start follows interrupts |
| BoardInit.AdcAndLatchInBoot | radio/src/targets/taranis/board.cpp:93-257 | the ADC failure and the power latch of the whole boot: latch on exactly for the charge loop or, on a radio with a power button, after a watchdog or software reset |
| BoardInit.TailInBoot | radio/src/targets/taranis/board.cpp:93-257 | the boot ends with the tail, and the clock is set up nowhere earlier |
| BoardInit.BootEarlyAndCharge | radio/src/targets/taranis/board.cpp:93-257 | the whole boot trace keeps power detection before the module ports and every step only the charge block takes before the keys, and shows the charge loop's latch release, waits, LEDs and their ordering |
| BoardInit.KeysAfterChargeBlock | radio/src/targets/taranis/board.cpp:144-181 | the keys are set up exactly after phase 1 and the whole charge-wait block: the trace before the first key step is phase 1 followed by the block |
| BoardInit.BootDrivers | radio/src/targets/taranis/board.cpp:93-257 | the boot trace has the phase-3 orderings, with interrupts before every ADC start exactly when the charge loop did not run, and the ADC-failure, power-latch and tail properties |
| BoardInit.BoardInit | radio/src/targets/taranis/board.cpp:93-257 | `boardInit` produces phase 1, the charge-wait block, then phase 3 (`BootTrace`), and keeps every dependency: power detection before the module ports; every step only the charge block takes before the keys; the delay service before the ADC and the display; interrupts before every ADC start exactly when the charge loop did not run; the clock directly before the backlight, after every driver except the backlight and the contrast; the latch on exactly when the charge loop ran or, on a radio with a power button, after a watchdog or software reset |
| BoardOff.HoldEnd | radio/src/targets/taranis/board.cpp:272-275 | the first sample at or after `i` that reports the button released; every sample before it reports it held |
| BoardOff.PowerDown | radio/src/targets/taranis/board.cpp:260-310 | `boardOff` produces the display-off prefix, the button wait, the F407 display re-init, the power cut and `fuel` turns of the final loop |
| BoardOff.DisplaysOff | radio/src/targets/taranis/board.cpp:262-270 | status LEDs off and top display off by option, backlight off always, in that order |
| BoardOff.WaitRelease | radio/src/targets/taranis/board.cpp:272-276 | with a power button, one watchdog service per sample that reports it held, ending at the first release |
| BoardOff.Spin | radio/src/targets/taranis/board.cpp:289-306 | `fuel` turns of the final loop, each a watchdog service and, on a released power button, a standby request |
| BoardOff.IdleSnoc | radio/src/targets/taranis/board.cpp:289-306 | one more turn of the final loop appends one turn |
| BoardOff.HoldLoopOnlyServices | radio/src/targets/taranis/board.cpp:272-276 | the button wait only services the watchdog, once per sample that reports the button held |
| BoardOff.IdleStepShape | radio/src/targets/taranis/board.cpp:289-306 | a turn is a watchdog service, followed by a standby request exactly when a radio with a power button reads the button released |
| BoardOff.IdleServiceCount | radio/src/targets/taranis/board.cpp:289-306 | `n` turns service the watchdog `n` times |
| BoardOff.IdleServices | radio/src/targets/taranis/board.cpp:289-306 | the final loop starts with a watchdog service and takes only services and standby requests |
| BoardOff.IdleStandby | radio/src/targets/taranis/board.cpp:293-305 | every standby request comes on a power-button radio, directly after a watchdog service |
| BoardOff.PrefixShape | radio/src/targets/taranis/board.cpp:262-270 | the backlight is always disabled; status LEDs and top display are switched off exactly when built in |
| BoardOff.BeforeCutShape | radio/src/targets/taranis/board.cpp:262-280 | before the power cut the displays are off by option, and all before the first watchdog service |
| BoardOff.BeforeCutServices | radio/src/targets/taranis/board.cpp:262-280 | before the cut the watchdog is serviced once per sample that reported the button held, and never without a power button |
| BoardOff.BeforeCutParts | radio/src/targets/taranis/board.cpp:262-280 | the display steps come first and are kept by the button wait and the F407 re-init |
| BoardOff.DisplaysBeforeServicesExtend | radio/src/targets/taranis/board.cpp:262-310 | steps without display-off keep the displays-off-first order |
| BoardOff.PowerCutMembers | radio/src/targets/taranis/board.cpp:282-287 | the power cut has its four steps and no display or standby step |
| BoardOff.PowerCutOrder | radio/src/targets/taranis/board.cpp:282-287 | LCD off, systick off, power latch off, interrupts off, each before the next |
| BoardOff.CutOrder | radio/src/targets/taranis/board.cpp:282-287 | the order of the power cut holds in the whole power-down trace |
| BoardOff.CutBeforeStandby | radio/src/targets/taranis/board.cpp:287-304 | no standby request comes before interrupts are off |
| BoardOff.StandbyAfterService | radio/src/targets/taranis/board.cpp:290-304 | steps without standby requests in front keep every standby request directly after a watchdog service |
| BoardOff.GatedOf | radio/src/targets/taranis/board.cpp:262-270 | the display-off steps of the whole trace are those of the prefix |
| BoardOff.ServicesOf | radio/src/targets/taranis/board.cpp:262-310 | the displays are off before every watchdog service of the whole trace |
| BoardOff.LcdOffAfterHoldOf | radio/src/targets/taranis/board.cpp:272-282 | the LCD-off step opens the power cut, after the button wait |
| BoardOff.DisplaysOffFirstOf | radio/src/targets/taranis/board.cpp:262-282 | display gating, displays before services and LCD off after the wait, for the whole trace |
| BoardOff.CutThenSpinOf | radio/src/targets/taranis/board.cpp:282-306 | the four power-cut steps all happen, in order; standby requests only after interrupts are off, each after a watchdog service |
| BoardOff.CutPresent | radio/src/targets/taranis/board.cpp:282-287 | the LCD-off, systick-off, latch-off and interrupts-off steps all happen |
| BoardOff.PowerDownOrder | radio/src/targets/taranis/board.cpp:260-310 | `boardOff` switches the displays off first; waits for the button servicing only the watchdog; then cuts LCD, systick, latch and interrupts in order; standby only after that, each after a service |
| BoardOff.PowerDownNeverReturns | radio/src/targets/taranis/board.cpp:289-309 | the final loop never ends on its own: each further turn extends the trace, starts with a watchdog service, and requests standby exactly when its button sample reports release on a power-button radio |
| JackDetect.StepRule | radio/src/targets/taranis/board.cpp:352-371 | a raw level that repeats the previous raw level is adopted, otherwise the reported level is kept; the raw level is remembered |
| JackDetect.Outputs | radio/src/targets/taranis/board.cpp:352-371 | one answer per call |
| JackDetect.FinalSnoc | radio/src/targets/taranis/board.cpp:352-371 | reading one more sample is one more step |
| JackDetect.OutputIsFinal | radio/src/targets/taranis/board.cpp:352-371 | the k-th answer is the reported level after samples 0..k |
| JackDetect.FinalRemembersLastSample | radio/src/targets/taranis/board.cpp:358-368 | the remembered raw level is that of the latest sample |
| JackDetect.LatestAgreementWins | radio/src/targets/taranis/board.cpp:352-371 | the reported level is that of the latest sample that agreed with its predecessor |
| JackDetect.NoAgreementKeepsLevel | radio/src/targets/taranis/board.cpp:352-371 | without any agreeing sample the reported level stays the initial one |
| JackDetect.GlitchIgnored | radio/src/targets/taranis/board.cpp:352-371 | a sample that differs from the previous one returns the previous answer; one that repeats it returns its own level |
| JackDetect.FirstResultNotPlugged | radio/src/targets/taranis/board.cpp:355-356 | the first call reports "not plugged", whatever the pin |
| JackDetect.ExampleRun | radio/src/targets/taranis/board.cpp:352-371 | plugged levels 0,1,1,0,0,1 are reported as 0,0,1,1,0,0 |
| JackDetect.JackDetector.constructor | radio/src/targets/taranis/board.cpp:355-356 | both statics start out false |
| JackDetect.JackDetector.IsJackPlugged | radio/src/targets/taranis/board.cpp:352-371 | one call updates both statics by the debounce step and returns the new reported level |
| JackDetect.ExampleClient | radio/src/targets/taranis/board.cpp:352-371 | a fresh detector polled with the example samples gives the example answers |

## Left out

- `boardOff` never returns. The model runs its final loop for `fuel` turns.
  `PowerDownNeverReturns` states that one more turn always extends the trace.
  The infinite loop itself is not a program here.
- Standby. The power-control and system-control register bits and the
  wait-for-event instruction (lines 297-304) are one `Standby` event. The
  model does not capture waking up: after the event the loop simply goes on.
- Input sequences that run out. A `usbPlugged()` or `pwrPressed()` sample past
  the end of its sequence reads as unplugged or released, so both waiting loops
  end. The model does not capture a cable or button that stays held forever.
- `usbPlugged()` and `pwrPressed()` are not part of this model; their answers
  are given as sequences. The code calls `usbPlugged()` once and drops the
  answer before the answer it acts on (lines 148-149); that first call is not
  an event of the model.
- `getBatteryVoltage()` is read six times per iteration in the code. The model
  reads one voltage per iteration, as if the value did not change between the
  six comparisons.
- `TRACE("adcInit failed")` is an `AdcInitFailed` event. What the trace prints
  is not modelled.
- Register-level effects are not modelled:
  - the watchdog registers of `watchdogInit` (lines 77-85);
  - the option-byte programming sequence, which is one `BorProgram` event;
  - the debug-freeze register values, one `DebugFreeze` event;
  - `SysTick->CTRL = 0`, one `SystickOff` event.
- The GPIO wrappers of lines 312-350 (speaker, headphone/trainer switch,
  jack-detect pin set-up) are not modelled; their calls in `boardInit` are
  events.
- Driver internals are not modelled. Every called driver, and the
  `g_eeGeneral` storage behind the persisted unexpected-shutdown flag, is not
  part of this model.
- Interrupts and concurrency are not modelled. An interrupt handler that
  could run after `__enable_irq()` is outside the model.
- The `BOOT` build of the file, where `boardInit` and `UNEXPECTED_SHUTDOWN`
  are compiled out and `boardOff` skips the LED and top-display steps, is not
  modelled. The model is the firmware build.
