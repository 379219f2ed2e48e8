/** `boardInit`: the ordered bring-up of a Taranis-family radio. The build-time
    options become a `FeatureSet`, and the answers of the collaborators the
    sequence branches on (option bytes, USB presence, battery samples, ADC
    start-up, reset cause) become a `BootOracle`. Each phase is a method that
    appends events to a trace, proved equal to a trace function; the ordering
    properties are lemmas about those functions. */
module BootPhases {
  import opened Events
  import opened Features

  /** Events of the clock, power-detection, module-port and status-LED steps. */
  predicate IsEarlyEvent(e: Event) {
    e.AudioClockEnable? || e.SyscfgClockEnable? || e.BluetoothInit? || e.BorProgram?
    || e.TrainerInit? || e.PwrInit? || e.ModulePortsInit? || e.PxxFastBaudrate?
    || e.HeartbeatCallbacks? || e.LedInit? || e.LedBlue? || e.LedGreen?
  }

  /** The colour the status LED is switched to at boot. */
  function StatusColour(f: FeatureSet): Event {
    if f.blueStatusLed then LedBlue else LedGreen
  }

  // ---------------------------------------------------------------------------
  // Phase 1: clocks, option bytes, power detection, module ports, status LED

  function EarlyTrace(f: FeatureSet, borAtLevel3: bool): seq<Event> {
    EarlyBody(f, borAtLevel3) + StatusLedTrace(f)
  }

  /** Phase 1 up to the status LED. */
  function EarlyBody(f: FeatureSet, borAtLevel3: bool): seq<Event> {
    [AudioClockEnable, SyscfgClockEnable]
    + Opt(f.bluetoothAtBoot, [BluetoothInit])
    + Opt(f.radiomasterF407 && !borAtLevel3, [BorProgram])
    + [TrainerInit, PwrInit]
    + [ModulePortsInit]
    + Opt(f.pxx1FastBaudrate, [PxxFastBaudrate])
    + Opt(f.intmoduleHeartbeat, [HeartbeatCallbacks])
  }

  /** The status LED, switched to its boot colour, when built in. */
  function StatusLedTrace(f: FeatureSet): seq<Event> {
    Opt(f.statusLeds, [LedInit, StatusColour(f)])
  }

  method EarlyInit(f: FeatureSet, borAtLevel3: bool) returns (t: seq<Event>)
    ensures t == EarlyTrace(f, borAtLevel3)
  {
    t := [AudioClockEnable, SyscfgClockEnable];
    ghost var t0 := t;
    if f.bluetoothAtBoot {
      t := t + [BluetoothInit];
    }
    assert t == t0 + Opt(f.bluetoothAtBoot, [BluetoothInit]);
    t0 := t;
    if f.radiomasterF407 && !borAtLevel3 {
      t := t + [BorProgram];
    }
    assert t == t0 + Opt(f.radiomasterF407 && !borAtLevel3, [BorProgram]);
    t := t + [TrainerInit, PwrInit];
    t := t + [ModulePortsInit];
    t0 := t;
    if f.pxx1FastBaudrate {
      t := t + [PxxFastBaudrate];
    }
    assert t == t0 + Opt(f.pxx1FastBaudrate, [PxxFastBaudrate]);
    t0 := t;
    if f.intmoduleHeartbeat {
      t := t + [HeartbeatCallbacks];
    }
    assert t == t0 + Opt(f.intmoduleHeartbeat, [HeartbeatCallbacks]);
    t0 := t;
    if f.statusLeds {
      t := t + [LedInit, StatusColour(f)];
    }
    assert t == t0 + Opt(f.statusLeds, [LedInit, StatusColour(f)]);
  }

  /** Power detection is set up before the module ports are. */
  lemma EarlyOrder(f: FeatureSet, borAtLevel3: bool)
    ensures Before(EarlyTrace(f, borAtLevel3), PwrInit, ModulePortsInit)
  {
    var p := [AudioClockEnable, SyscfgClockEnable]
      + Opt(f.bluetoothAtBoot, [BluetoothInit])
      + Opt(f.radiomasterF407 && !borAtLevel3, [BorProgram])
      + [TrainerInit, PwrInit];
    BeforeAcross(p, [ModulePortsInit], PwrInit, ModulePortsInit);
    var q := p + [ModulePortsInit];
    BeforeExtend(q, Opt(f.pxx1FastBaudrate, [PxxFastBaudrate]), PwrInit, ModulePortsInit);
    q := q + Opt(f.pxx1FastBaudrate, [PxxFastBaudrate]);
    BeforeExtend(q, Opt(f.intmoduleHeartbeat, [HeartbeatCallbacks]), PwrInit, ModulePortsInit);
    q := q + Opt(f.intmoduleHeartbeat, [HeartbeatCallbacks]);
    BeforeExtend(q, Opt(f.statusLeds, [LedInit, StatusColour(f)]), PwrInit, ModulePortsInit);
  }

  /** Every event of the phase is one of its own kind. */
  lemma EarlyEvents(f: FeatureSet, borAtLevel3: bool)
    ensures forall e :: e in EarlyTrace(f, borAtLevel3) ==> IsEarlyEvent(e)
  {
  }

  /** Bluetooth and the brown-out level are set up by build option and
      option-byte state. */
  lemma EarlyGating(f: FeatureSet, borAtLevel3: bool)
    ensures BluetoothInit in EarlyTrace(f, borAtLevel3) <==> f.bluetoothAtBoot
    ensures BorProgram in EarlyTrace(f, borAtLevel3) <==> f.radiomasterF407 && !borAtLevel3
  {
  }

  /** The status LED is brought up, in its boot colour, only when built in. */
  lemma StatusLedGating(f: FeatureSet, borAtLevel3: bool)
    ensures LedInit in EarlyTrace(f, borAtLevel3) <==> f.statusLeds
    ensures LedBlue in EarlyTrace(f, borAtLevel3) <==> f.statusLeds && f.blueStatusLed
    ensures LedGreen in EarlyTrace(f, borAtLevel3) <==> f.statusLeds && !f.blueStatusLed
  {
    var b := EarlyBody(f, borAtLevel3);
    assert LedInit !in b && LedBlue !in b && LedGreen !in b;
    InConcat(b, StatusLedTrace(f), LedInit);
    InConcat(b, StatusLedTrace(f), LedBlue);
    InConcat(b, StatusLedTrace(f), LedGreen);
  }

  // ---------------------------------------------------------------------------
  // Phase 3: inputs, interrupts, drivers and the tail

  /** Keys, switches, the rotary encoder, the delay service, interrupts on. */
  function InputsTrace(f: FeatureSet): seq<Event> {
    [KeysInit, SwitchInit] + Opt(f.rotaryEncoder, [RotaryEncoderInit]) + [DelaysInit] + [EnableIrq]
  }

  /** Stick detection, gimbal, then the ADC; a failed start is only traced. */
  function AdcTrace(f: FeatureSet, adcOk: bool): seq<Event> {
    AdcStart(f) + Opt(!adcOk, [AdcInitFailed])
  }

  /** The ADC region up to and including the start of the ADC. */
  function AdcStart(f: FeatureSet): seq<Event> {
    Opt(f.pwmSticks, [SticksPwmDetect]) + Opt(f.flyskyGimbal, [GimbalInit]) + [AdcInit]
  }

  /** Display, audio, timers, USB, debug serial, haptic, module probe and the
      debug freeze of timers and watchdog. */
  function DeviceTrace(f: FeatureSet): seq<Event> {
    [LcdInit, AudioInit, Timer2MhzInit, Timer1msInit, UsbInit]
    + Opt(f.debug, [DebugSerialInit])
    + Opt(f.haptic, [HapticInit])
    + Opt(f.pxx2Probe, [Pxx2Probe])
    + Opt(f.debug, [DebugFreeze])
  }

  /** The power latch after a watchdog or software reset, top display, charger,
      jack detection, speaker and headphone/trainer switch. */
  function PowerIoTrace(f: FeatureSet, reset: ResetFlags): seq<Event> {
    Opt(f.pwrButtonPress && WasResetByWatchdogOrSoftware(reset), [PwrOn])
    + Opt(f.topLcd, [ToplcdInit])
    + Opt(f.usbCharger, [UsbChargerInit])
    + Opt(f.jackDetect, [JackDetectInit])
    + [SpeakerEnableInit, SpeakerEnable, HeadphoneTrainerSwitchInit]
  }

  /** The last steps: the real-time clock (ahead of any restore of RAM-backed
      state), then the backlight and the display contrast. */
  function BootTail(f: FeatureSet): seq<Event> {
    Opt(f.rtc, [RtcInit]) + [BacklightInit] + Opt(f.gui, [LcdContrast])
  }

  /** Everything from `keysInit` up to the tail. */
  function DriverBody(f: FeatureSet, adcOk: bool, reset: ResetFlags): seq<Event> {
    InputsTrace(f) + AdcTrace(f, adcOk) + DeviceTrace(f) + PowerIoTrace(f, reset)
  }

  /** Phase 3 as a whole. */
  function DriverTrace(f: FeatureSet, adcOk: bool, reset: ResetFlags): seq<Event> {
    DriverBody(f, adcOk, reset) + BootTail(f)
  }

  method InitInputs(f: FeatureSet) returns (t: seq<Event>)
    ensures t == InputsTrace(f)
  {
    t := [KeysInit, SwitchInit];
    if f.rotaryEncoder {
      t := t + [RotaryEncoderInit];
    }
    t := t + [DelaysInit];
    t := t + [EnableIrq];
  }

  method InitAdc(f: FeatureSet, adcOk: bool) returns (t: seq<Event>)
    ensures t == AdcTrace(f, adcOk)
  {
    t := [];
    if f.pwmSticks {
      t := t + [SticksPwmDetect];
    }
    assert t == Opt(f.pwmSticks, [SticksPwmDetect]);
    ghost var t0 := t;
    if f.flyskyGimbal {
      t := t + [GimbalInit];
    }
    assert t == t0 + Opt(f.flyskyGimbal, [GimbalInit]);
    t := t + [AdcInit];
    t0 := t;
    if !adcOk {
      t := t + [AdcInitFailed];
    }
    assert t == t0 + Opt(!adcOk, [AdcInitFailed]);
  }

  method InitDevices(f: FeatureSet) returns (t: seq<Event>)
    ensures t == DeviceTrace(f)
  {
    t := [LcdInit, AudioInit, Timer2MhzInit, Timer1msInit, UsbInit];
    ghost var t0 := t;
    if f.debug {
      t := t + [DebugSerialInit];
    }
    assert t == t0 + Opt(f.debug, [DebugSerialInit]);
    t0 := t;
    if f.haptic {
      t := t + [HapticInit];
    }
    assert t == t0 + Opt(f.haptic, [HapticInit]);
    t0 := t;
    if f.pxx2Probe {
      t := t + [Pxx2Probe];
    }
    assert t == t0 + Opt(f.pxx2Probe, [Pxx2Probe]);
    t0 := t;
    if f.debug {
      t := t + [DebugFreeze];
    }
    assert t == t0 + Opt(f.debug, [DebugFreeze]);
  }

  method InitPowerIo(f: FeatureSet, reset: ResetFlags) returns (t: seq<Event>)
    ensures t == PowerIoTrace(f, reset)
  {
    t := [];
    if f.pwrButtonPress {
      if WasResetByWatchdogOrSoftware(reset) {
        t := t + [PwrOn];
      }
    }
    assert t == Opt(f.pwrButtonPress && WasResetByWatchdogOrSoftware(reset), [PwrOn]);
    ghost var t0 := t;
    if f.topLcd {
      t := t + [ToplcdInit];
    }
    assert t == t0 + Opt(f.topLcd, [ToplcdInit]);
    t0 := t;
    if f.usbCharger {
      t := t + [UsbChargerInit];
    }
    assert t == t0 + Opt(f.usbCharger, [UsbChargerInit]);
    t0 := t;
    if f.jackDetect {
      t := t + [JackDetectInit];
    }
    assert t == t0 + Opt(f.jackDetect, [JackDetectInit]);
    t := t + [SpeakerEnableInit, SpeakerEnable, HeadphoneTrainerSwitchInit];
  }

  method InitTail(f: FeatureSet) returns (t: seq<Event>)
    ensures t == BootTail(f)
  {
    t := [];
    if f.rtc {
      t := t + [RtcInit];
    }
    assert t == Opt(f.rtc, [RtcInit]);
    t := t + [BacklightInit];
    ghost var t0 := t;
    if f.gui {
      t := t + [LcdContrast];
    }
    assert t == t0 + Opt(f.gui, [LcdContrast]);
  }

  /** Phase 3, region by region. */
  method DriverInit(f: FeatureSet, adcOk: bool, reset: ResetFlags) returns (t: seq<Event>)
    ensures t == DriverTrace(f, adcOk, reset)
  {
    t := InitInputs(f);
    var adc := InitAdc(f, adcOk);
    t := t + adc;
    var devices := InitDevices(f);
    t := t + devices;
    var powerIo := InitPowerIo(f, reset);
    t := t + powerIo;
    var tail := InitTail(f);
    t := t + tail;
  }

  /** A dependency met by the end of the device region holds for all of phase 3. */
  lemma BeforeThroughDevices(f: FeatureSet, adcOk: bool, reset: ResetFlags, x: Event, y: Event)
    requires Before(InputsTrace(f) + AdcTrace(f, adcOk) + DeviceTrace(f), x, y)
    ensures Before(DriverTrace(f, adcOk, reset), x, y)
  {
    var v := InputsTrace(f) + AdcTrace(f, adcOk) + DeviceTrace(f);
    BeforeExtend(v, PowerIoTrace(f, reset), x, y);
    BeforeExtend(v + PowerIoTrace(f, reset), BootTail(f), x, y);
  }

  /** The delay service comes before interrupts are enabled. */
  lemma DriverOrderIrq(f: FeatureSet, adcOk: bool, reset: ResetFlags)
    ensures Before(DriverTrace(f, adcOk, reset), DelaysInit, EnableIrq)
  {
    var i := InputsTrace(f);
    var a := AdcTrace(f, adcOk);
    var pre := [KeysInit, SwitchInit] + Opt(f.rotaryEncoder, [RotaryEncoderInit]) + [DelaysInit];
    BeforeAcross(pre, [EnableIrq], DelaysInit, EnableIrq);
    BeforeExtend(i, a, DelaysInit, EnableIrq);
    BeforeExtend(i + a, DeviceTrace(f), DelaysInit, EnableIrq);
    BeforeThroughDevices(f, adcOk, reset, DelaysInit, EnableIrq);
  }

  /** The delay service and interrupts both come before the ADC is started. */
  lemma DriverOrderAdc(f: FeatureSet, adcOk: bool, reset: ResetFlags)
    ensures Before(DriverTrace(f, adcOk, reset), DelaysInit, AdcInit)
    ensures Before(DriverTrace(f, adcOk, reset), EnableIrq, AdcInit)
  {
    var i := InputsTrace(f);
    var a := AdcTrace(f, adcOk);
    var v := DeviceTrace(f);
    BeforeAcross(i, a, DelaysInit, AdcInit);
    BeforeExtend(i + a, v, DelaysInit, AdcInit);
    BeforeThroughDevices(f, adcOk, reset, DelaysInit, AdcInit);
    BeforeAcross(i, a, EnableIrq, AdcInit);
    BeforeExtend(i + a, v, EnableIrq, AdcInit);
    BeforeThroughDevices(f, adcOk, reset, EnableIrq, AdcInit);
  }

  /** The display is started only after the delay service and interrupts. */
  lemma DriverOrderLcd(f: FeatureSet, adcOk: bool, reset: ResetFlags)
    ensures var d := DriverTrace(f, adcOk, reset);
      && Before(d, DelaysInit, LcdInit) && Before(d, EnableIrq, LcdInit)
  {
    var ia := InputsTrace(f) + AdcTrace(f, adcOk);
    BeforeAcross(ia, DeviceTrace(f), DelaysInit, LcdInit);
    BeforeThroughDevices(f, adcOk, reset, DelaysInit, LcdInit);
    BeforeAcross(ia, DeviceTrace(f), EnableIrq, LcdInit);
    BeforeThroughDevices(f, adcOk, reset, EnableIrq, LcdInit);
  }

  /** Events only the charge-wait block produces. */
  predicate ChargeOnly(e: Event) {
    e.FsLedOn? || e.DelayMs? || e.PwrOff? || e.GetAdc? || e.InternalModuleOff? || e.ExternalModuleOff?
  }

  // The steps each region of phase 3 can take.

  predicate IsInputsEvent(e: Event) {
    e == KeysInit || e == SwitchInit || e == RotaryEncoderInit || e == DelaysInit || e == EnableIrq
  }

  predicate IsAdcEvent(e: Event) {
    e == SticksPwmDetect || e == GimbalInit || e == AdcInit || e == AdcInitFailed
  }

  predicate IsDeviceEvent(e: Event) {
    e == LcdInit || e == AudioInit || e == Timer2MhzInit || e == Timer1msInit || e == UsbInit
    || e == DebugSerialInit || e == HapticInit || e == Pxx2Probe || e == DebugFreeze
  }

  predicate IsPowerIoEvent(e: Event) {
    e == PwrOn || e == ToplcdInit || e == UsbChargerInit || e == JackDetectInit
    || e == SpeakerEnableInit || e == SpeakerEnable || e == HeadphoneTrainerSwitchInit
  }

  predicate IsTailEvent(e: Event) {
    e == RtcInit || e == BacklightInit || e == LcdContrast
  }

  /** Each region of phase 3 takes only its own steps. */
  lemma RegionKinds(f: FeatureSet, adcOk: bool, reset: ResetFlags)
    ensures forall e :: e in InputsTrace(f) ==> IsInputsEvent(e)
    ensures forall e :: e in AdcTrace(f, adcOk) ==> IsAdcEvent(e)
    ensures forall e :: e in DeviceTrace(f) ==> IsDeviceEvent(e)
    ensures forall e :: e in PowerIoTrace(f, reset) ==> IsPowerIoEvent(e)
    ensures forall e :: e in BootTail(f) ==> IsTailEvent(e)
  {
    DeviceKinds(f);
    PowerIoKinds(f, reset);
  }

  lemma DeviceKinds(f: FeatureSet)
    ensures forall e :: e in DeviceTrace(f) ==> IsDeviceEvent(e)
  {
  }

  lemma PowerIoKinds(f: FeatureSet, reset: ResetFlags)
    ensures forall e :: e in PowerIoTrace(f, reset) ==> IsPowerIoEvent(e)
  {
  }

  /** What the region kinds alone say about phase 3 put together. */
  lemma RegionsCombine(i: seq<Event>, a: seq<Event>, v: seq<Event>, p: seq<Event>, t: seq<Event>)
    requires forall e :: e in i ==> IsInputsEvent(e)
    requires forall e :: e in a ==> IsAdcEvent(e)
    requires forall e :: e in v ==> IsDeviceEvent(e)
    requires forall e :: e in p ==> IsPowerIoEvent(e)
    requires forall e :: e in t ==> IsTailEvent(e)
    ensures var d := i + a + v + p + t;
      && (forall e :: e in d ==> !ChargeOnly(e) && !IsEarlyEvent(e))
      && (AdcInitFailed in d <==> AdcInitFailed in a)
      && (PwrOn in d <==> PwrOn in p)
      && PwrOn !in i + a + v
      && RtcInit !in i + a + v + p
  {
  }

  /** Phase 3 starts with the keys and takes none of the steps of phase 1 or
      the ones only the charge-wait block takes. */
  lemma DriverEvents(f: FeatureSet, adcOk: bool, reset: ResetFlags)
    ensures var d := DriverTrace(f, adcOk, reset);
      && |d| > 0 && d[0] == KeysInit
      && (forall e :: e in d ==> !ChargeOnly(e) && !IsEarlyEvent(e))
  {
    RegionKinds(f, adcOk, reset);
    RegionsCombine(InputsTrace(f), AdcTrace(f, adcOk), DeviceTrace(f), PowerIoTrace(f, reset), BootTail(f));
  }

  /** Input region: the encoder is brought up only when it is built in. */
  lemma InputsGating(f: FeatureSet)
    ensures RotaryEncoderInit in InputsTrace(f) <==> f.rotaryEncoder
  {
  }

  /** ADC region: stick detection and gimbal by build option; the failure
      event exactly when the ADC reports a failed start. */
  lemma AdcGating(f: FeatureSet, adcOk: bool)
    ensures SticksPwmDetect in AdcTrace(f, adcOk) <==> f.pwmSticks
    ensures GimbalInit in AdcTrace(f, adcOk) <==> f.flyskyGimbal
    ensures AdcInitFailed in AdcTrace(f, adcOk) <==> !adcOk
  {
  }

  /** Device region: debug serial and timer freeze with a debug build, haptic
      and module probe by build option. */
  lemma DeviceGating(f: FeatureSet)
    ensures DebugSerialInit in DeviceTrace(f) <==> f.debug
    ensures DebugFreeze in DeviceTrace(f) <==> f.debug
    ensures HapticInit in DeviceTrace(f) <==> f.haptic
    ensures Pxx2Probe in DeviceTrace(f) <==> f.pxx2Probe
  {
  }

  /** Power and I/O region: the power latch is switched on exactly when the
      radio has a power button and the reset was a watchdog or software reset. */
  lemma PowerIoGating(f: FeatureSet, reset: ResetFlags)
    ensures PwrOn in PowerIoTrace(f, reset) <==> f.pwrButtonPress && WasResetByWatchdogOrSoftware(reset)
    ensures ToplcdInit in PowerIoTrace(f, reset) <==> f.topLcd
    ensures UsbChargerInit in PowerIoTrace(f, reset) <==> f.usbCharger
    ensures JackDetectInit in PowerIoTrace(f, reset) <==> f.jackDetect
  {
  }

  /** The tail: the clock, if built in, comes first and directly before the
      backlight; the contrast is set last, with a GUI. */
  lemma TailShape(f: FeatureSet)
    ensures f.rtc ==> |BootTail(f)| >= 2 && BootTail(f)[0] == RtcInit && BootTail(f)[1] == BacklightInit
    ensures !f.rtc ==> |BootTail(f)| >= 1 && BootTail(f)[0] == BacklightInit && RtcInit !in BootTail(f)
    ensures LcdContrast in BootTail(f) <==> f.gui
  {
  }

  /** A failed ADC start is traced exactly when the start fails. */
  lemma DriverAdcFailureGating(f: FeatureSet, adcOk: bool, reset: ResetFlags)
    ensures AdcInitFailed in DriverTrace(f, adcOk, reset) <==> !adcOk
  {
    RegionKinds(f, adcOk, reset);
    RegionsCombine(InputsTrace(f), AdcTrace(f, adcOk), DeviceTrace(f), PowerIoTrace(f, reset), BootTail(f));
    AdcGating(f, adcOk);
  }

  /** A failed ADC start is traced after the start. */
  lemma AdcFailureAfterStart(f: FeatureSet, reset: ResetFlags)
    ensures Before(DriverTrace(f, false, reset), AdcInit, AdcInitFailed)
  {
    var i := InputsTrace(f);
    assert AdcTrace(f, false) == AdcStart(f) + [AdcInitFailed];
    AppendAssoc(i, AdcStart(f), [AdcInitFailed]);
    BeforeAcross(i + AdcStart(f), [AdcInitFailed], AdcInit, AdcInitFailed);
    BeforeExtend(i + AdcTrace(f, false), DeviceTrace(f), AdcInit, AdcInitFailed);
    BeforeThroughDevices(f, false, reset, AdcInit, AdcInitFailed);
  }

  /** A failed ADC start is traced only after the start. */
  lemma DriverAdcFailure(f: FeatureSet, adcOk: bool, reset: ResetFlags)
    ensures Preceded(DriverTrace(f, adcOk, reset), AdcInit, AdcInitFailed)
  {
    if !adcOk {
      AdcFailureAfterStart(f, reset);
    } else {
      DriverAdcFailureGating(f, adcOk, reset);
      PrecededVacuous(DriverTrace(f, adcOk, reset), AdcInit, AdcInitFailed);
    }
  }

  /** The power latch is switched on in phase 3 exactly after a watchdog or
      software reset of a radio with a power button, and only once interrupts
      are enabled. */
  lemma DriverPowerLatch(f: FeatureSet, adcOk: bool, reset: ResetFlags)
    ensures var d := DriverTrace(f, adcOk, reset);
      && (PwrOn in d <==> f.pwrButtonPress && WasResetByWatchdogOrSoftware(reset))
      && Preceded(d, EnableIrq, PwrOn)
  {
    RegionKinds(f, adcOk, reset);
    RegionsCombine(InputsTrace(f), AdcTrace(f, adcOk), DeviceTrace(f), PowerIoTrace(f, reset), BootTail(f));
    PowerIoGating(f, reset);
    var v := InputsTrace(f) + AdcTrace(f, adcOk) + DeviceTrace(f);
    if f.pwrButtonPress && WasResetByWatchdogOrSoftware(reset) {
      BeforeAcross(v, PowerIoTrace(f, reset), EnableIrq, PwrOn);
      BeforeExtend(v + PowerIoTrace(f, reset), BootTail(f), EnableIrq, PwrOn);
    } else {
      PrecededVacuous(DriverTrace(f, adcOk, reset), EnableIrq, PwrOn);
    }
  }

  /** A shutdown counted as unexpected (the persisted flag clear) is a reset
      after which a radio with a power button latches its power back on in
      phase 3, once interrupts are enabled. */
  lemma UnexpectedShutdownRestartsPower(f: FeatureSet, adcOk: bool, r: ResetFlags)
    requires f.pwrButtonPress && UnexpectedShutdown(r, false)
    ensures PwrOn in DriverTrace(f, adcOk, r)
    ensures Preceded(DriverTrace(f, adcOk, r), EnableIrq, PwrOn)
  {
    DriverPowerLatch(f, adcOk, r);
  }

  /** The clock is set up after every driver except the backlight and the
      contrast, directly ahead of the backlight: phase 3 ends with the tail, and no earlier step is the clock. */
  lemma DriverTail(f: FeatureSet, adcOk: bool, reset: ResetFlags)
    ensures var d := DriverTrace(f, adcOk, reset);
      && |d| >= |BootTail(f)| && d[|d| - |BootTail(f)|..] == BootTail(f)
      && RtcInit !in d[..|d| - |BootTail(f)|]
  {
    RtcOnlyInTail(f, adcOk, reset);
    SplitAt(DriverBody(f, adcOk, reset), BootTail(f));
  }

  /** No region before the tail sets up the clock. */
  lemma RtcOnlyInTail(f: FeatureSet, adcOk: bool, reset: ResetFlags)
    ensures RtcInit !in DriverBody(f, adcOk, reset)
  {
    RegionKinds(f, adcOk, reset);
    RegionsCombine(InputsTrace(f), AdcTrace(f, adcOk), DeviceTrace(f), PowerIoTrace(f, reset), BootTail(f));
  }

  /** A failed ADC start changes nothing else: the trace of a boot whose ADC
      fails is that of a boot whose ADC starts, with the failure traced right
      after the ADC start. */
  lemma AdcFailureOnlyTraced(f: FeatureSet, reset: ResetFlags)
    ensures var ok := DriverTrace(f, true, reset);
      exists k :: 0 < k <= |ok| && ok[k - 1] == AdcInit
        && DriverTrace(f, false, reset) == ok[..k] + [AdcInitFailed] + ok[k..]
  {
    var i := InputsTrace(f);
    var x := AdcStart(f);
    var rest := DeviceTrace(f) + PowerIoTrace(f, reset) + BootTail(f);
    assert AdcTrace(f, true) == x;
    AppendAssoc(i, x, [AdcInitFailed]);
    ReassociateTail(i + x, DeviceTrace(f), PowerIoTrace(f, reset), BootTail(f));
    ReassociateTail(i + x + [AdcInitFailed], DeviceTrace(f), PowerIoTrace(f, reset), BootTail(f));
    SplitAt(i + x, rest);
    var ok := DriverTrace(f, true, reset);
    assert ok[|i + x| - 1] == AdcInit;
  }

  lemma ReassociateTail(h: seq<Event>, v: seq<Event>, p: seq<Event>, t: seq<Event>)
    ensures h + v + p + t == h + (v + p + t)
  {
    AppendAssoc(h, v, p);
    AppendAssoc(h + v, p, t);
    AppendAssoc(h, v + p, t);
  }
}
