/** `boardInit` as a whole: phase 1 (clocks to status LED), the charge-wait
    block on radios with function-switch LEDs, and phase 3 (keys to display
    contrast), each appended to one boot trace. */
module BoardInit {
  import opened Events
  import opened Features
  import opened ChargeLadder
  import opened BootPhases

  /** The answers of the collaborators the boot sequence branches on. */
  datatype BootOracle = BootOracle(
    borAtLevel3: bool,                  // option bytes already hold brown-out level 3
    usbAtEntry: bool,                   // second `usbPlugged()` answer of the charge-wait block
    chargeSamples: seq<ChargeSample>,   // the charge loop's readings
    adcOk: bool,                        // result of the main `adcInit`
    reset: ResetFlags)                  // cause of the reset that started this boot

  /** The charge loop runs: the radio has function-switch LEDs and USB is
      plugged when the block is entered. */
  predicate ChargeLoopEntered(f: FeatureSet, o: BootOracle) {
    f.functionSwitches && o.usbAtEntry
  }

  /** The charge-wait block with its build option: skipped entirely without
      function-switch LEDs. */
  function ChargeTrace(f: FeatureSet, o: BootOracle): seq<Event> {
    if f.functionSwitches then ChargeBlock(o.usbAtEntry, o.chargeSamples) else []
  }

  /** The LEDs the charge loop leaves lit. */
  function ChargeLit(f: FeatureSet, o: BootOracle): set<nat> {
    if ChargeLoopEntered(f, o) then LitAfter(o.chargeSamples, Charging(o.chargeSamples)) else {}
  }

  /** The steps of the charge-wait phase: nothing but the events of the block,
      the release and the latching of power exactly when the loop ran, an ADC
      start only then, and one 20 ms wait per iteration. */
  ghost predicate ChargePhaseSteps(f: FeatureSet, o: BootOracle, c: seq<Event>) {
    var ran := ChargeLoopEntered(f, o);
    && (forall e :: e in c ==> IsChargeEvent(e))
    && (PwrOff in c <==> ran)
    && (PwrOn in c <==> ran)
    && (AdcInit in c ==> ran)
    && Count(c, DelayMs(20)) == (if ran then Charging(o.chargeSamples) else 0)
  }

  /** The LEDs of the charge-wait phase and its own ordering. */
  ghost predicate ChargePhaseOrder(c: seq<Event>, lit: set<nat>) {
    && (forall i :: FsLedOn(i) in c <==> i in lit)
    && Preceded(c, DelaysInit, DelayMs(20)) && Preceded(c, AdcInit, DelayMs(20))
    && Preceded(c, DelaysInit, AdcInit)
  }

  ghost predicate ChargePhase(f: FeatureSet, o: BootOracle, c: seq<Event>, lit: set<nat>) {
    && ChargePhaseSteps(f, o, c)
    && lit == (if ChargeLoopEntered(f, o) then LitAfter(o.chargeSamples, Charging(o.chargeSamples)) else {})
    && ChargePhaseOrder(c, lit)
  }

  lemma ChargeTraceSteps(f: FeatureSet, o: BootOracle)
    ensures ChargePhaseSteps(f, o, ChargeTrace(f, o))
  {
    if f.functionSwitches {
      var c := ChargeTrace(f, o);
      ChargeBlockFacts(o.usbAtEntry, o.chargeSamples);
      CountAbsent(c, PwrOn);
      if o.usbAtEntry {
        assert c[|c| - 1] == PwrOff;
      }
    }
  }

  lemma ChargeTraceOrder(f: FeatureSet, o: BootOracle)
    ensures ChargePhaseOrder(ChargeTrace(f, o), ChargeLit(f, o))
  {
    if f.functionSwitches {
      ChargeBlockLedsAndOrder(o.usbAtEntry, o.chargeSamples);
    }
  }

  /** The charge-wait trace and its lit set have every property of the phase. */
  lemma ChargeTracePhase(f: FeatureSet, o: BootOracle)
    ensures ChargePhase(f, o, ChargeTrace(f, o), ChargeLit(f, o))
  {
    ChargeTraceSteps(f, o);
    ChargeTraceOrder(f, o);
  }

  /** Runs the charge-wait block when the radio has function-switch LEDs. */
  method ChargePhaseRun(f: FeatureSet, o: BootOracle) returns (c: seq<Event>, lit: set<nat>)
    ensures c == ChargeTrace(f, o) && lit == ChargeLit(f, o)
  {
    c, lit := [], {};
    if f.functionSwitches {
      c, lit := ChargeWait(o.usbAtEntry, o.chargeSamples);
    }
  }

  // ---------------------------------------------------------------------------
  // What the boot trace shows

  /** The trace of a whole boot: phase 1, the charge-wait block, phase 3. */
  function BootTrace(f: FeatureSet, o: BootOracle): seq<Event> {
    EarlyTrace(f, o.borAtLevel3) + ChargeTrace(f, o) + DriverTrace(f, o.adcOk, o.reset)
  }

  /** Power detection before the module ports; the whole charge-wait block
      before the keys. */
  ghost predicate EarlyAndChargeOrder(t: seq<Event>) {
    && Before(t, PwrInit, ModulePortsInit)
    && KeysInit in t
    && (forall x :: ChargeOnly(x) ==> AllBefore(t, x, KeysInit))
  }

  /** The charge loop: entered only with USB plugged, the power latch released
      afterwards, one 20 ms wait per iteration after the delay service and the
      ADC are up, and the LEDs that the voltages seen so far reach. */
  ghost predicate ChargeObserved(f: FeatureSet, o: BootOracle, t: seq<Event>, lit: set<nat>) {
    var ran := ChargeLoopEntered(f, o);
    && (PwrOff in t <==> ran)
    && Count(t, DelayMs(20)) == (if ran then Charging(o.chargeSamples) else 0)
    && lit == (if ran then LitAfter(o.chargeSamples, Charging(o.chargeSamples)) else {})
    && (forall i :: FsLedOn(i) in t <==> i in lit)
    && Preceded(t, DelaysInit, DelayMs(20)) && Preceded(t, AdcInit, DelayMs(20))
  }

  /** The delay service and interrupts before the ADC and the display, with
      interrupts before every ADC start when the charge loop did not run. */
  ghost predicate DriverOrderKept(f: FeatureSet, o: BootOracle, t: seq<Event>) {
    && Before(t, DelaysInit, AdcInit) && Follows(t, EnableIrq, AdcInit)
    && (!ChargeLoopEntered(f, o) ==> Before(t, EnableIrq, AdcInit))
    && Before(t, DelaysInit, LcdInit) && Before(t, EnableIrq, LcdInit)
  }

  /** The ordering of phase 3 in the whole boot. The charge block's own ADC
      start runs before interrupts are enabled, so every ADC start depends on
      interrupts exactly when the charge loop did not run. */
  ghost predicate DriverOrderObserved(f: FeatureSet, o: BootOracle, t: seq<Event>) {
    && DriverOrderKept(f, o, t)
    && (ChargeLoopEntered(f, o) ==> !Preceded(t, EnableIrq, AdcInit))
  }

  /** A failed ADC start is only traced; the power latch is switched on for the
      charge loop and after a watchdog or software reset of a radio with a power
      button. */
  ghost predicate AdcAndLatchObserved(f: FeatureSet, o: BootOracle, t: seq<Event>) {
    && (AdcInitFailed in t <==> !o.adcOk)
    && Preceded(t, AdcInit, AdcInitFailed)
    && (PwrOn in t <==> ChargeLoopEntered(f, o) || (f.pwrButtonPress && WasResetByWatchdogOrSoftware(o.reset)))
  }

  /** The boot ends with the tail: the clock comes after every driver except
      the backlight and the contrast that follow it. */
  ghost predicate TailObserved(f: FeatureSet, t: seq<Event>) {
    && |t| >= |BootTail(f)| && t[|t| - |BootTail(f)|..] == BootTail(f)
    && RtcInit !in t[..|t| - |BootTail(f)|]
  }

  ghost predicate DriverObserved(f: FeatureSet, o: BootOracle, t: seq<Event>) {
    AdcAndLatchObserved(f, o, t) && TailObserved(f, t)
  }

  // ---------------------------------------------------------------------------
  // Putting the phases together: facts about `e + c + d` from facts about each

  lemma EarlyAndChargeInBoot(e: seq<Event>, c: seq<Event>, d: seq<Event>)
    requires Before(e, PwrInit, ModulePortsInit)
    requires forall x :: x in e ==> IsEarlyEvent(x)
    requires forall x :: x in c ==> IsChargeEvent(x)
    requires forall x :: x in d ==> !ChargeOnly(x)
    requires |d| > 0 && d[0] == KeysInit
    ensures EarlyAndChargeOrder(e + c + d)
  {
    BeforeExtend(e, c, PwrInit, ModulePortsInit);
    BeforeExtend(e + c, d, PwrInit, ModulePortsInit);
    assert KeysInit !in e + c;
    forall x | ChargeOnly(x) ensures AllBefore(e + c + d, x, KeysInit) {
      AllBeforeConcat(e + c, d, x, KeysInit);
    }
    assert (e + c + d)[|e + c|] == KeysInit;
  }

  lemma ChargeInBoot(f: FeatureSet, o: BootOracle, e: seq<Event>, c: seq<Event>, d: seq<Event>, lit: set<nat>)
    requires ChargePhase(f, o, c, lit)
    requires forall x :: x in e ==> IsEarlyEvent(x)
    requires forall x :: x in d ==> !ChargeOnly(x)
    ensures ChargeObserved(f, o, e + c + d, lit)
  {
    assert DelayMs(20) !in e && DelayMs(20) !in d;
    PrecededVacuous(e, DelaysInit, DelayMs(20));
    PrecededConcat(e, c, DelaysInit, DelayMs(20));
    PrecededVacuous(d, DelaysInit, DelayMs(20));
    PrecededConcat(e + c, d, DelaysInit, DelayMs(20));
    PrecededVacuous(e, AdcInit, DelayMs(20));
    PrecededConcat(e, c, AdcInit, DelayMs(20));
    PrecededVacuous(d, AdcInit, DelayMs(20));
    PrecededConcat(e + c, d, AdcInit, DelayMs(20));
    CountMiddle(e, c, d, DelayMs(20));
  }

  lemma DriverOrderInBoot(f: FeatureSet, o: BootOracle, e: seq<Event>, c: seq<Event>, d: seq<Event>, lit: set<nat>)
    requires ChargePhase(f, o, c, lit)
    requires forall x :: x in e ==> IsEarlyEvent(x)
    requires Before(d, DelaysInit, AdcInit) && Before(d, EnableIrq, AdcInit)
    requires Before(d, DelaysInit, LcdInit) && Before(d, EnableIrq, LcdInit)
    ensures DriverOrderKept(f, o, e + c + d)
  {
    assert LcdInit !in e + c && AdcInit !in e;
    BeforeShift(e + c, d, DelaysInit, LcdInit);
    BeforeShift(e + c, d, EnableIrq, LcdInit);
    PrecededVacuous(e, DelaysInit, AdcInit);
    PrecededConcat(e, c, DelaysInit, AdcInit);
    PrecededConcat(e + c, d, DelaysInit, AdcInit);
    BeforeFollows(d, EnableIrq, AdcInit);
    FollowsShift(e + c, d, EnableIrq, AdcInit);
    if !ChargeLoopEntered(f, o) {
      BeforeShift(e + c, d, EnableIrq, AdcInit);
    }
  }

  lemma AdcAndLatchInBoot(f: FeatureSet, o: BootOracle, e: seq<Event>, c: seq<Event>, d: seq<Event>, lit: set<nat>)
    requires ChargePhase(f, o, c, lit)
    requires forall x :: x in e ==> IsEarlyEvent(x)
    requires AdcInitFailed in d <==> !o.adcOk
    requires Preceded(d, AdcInit, AdcInitFailed)
    requires PwrOn in d <==> f.pwrButtonPress && WasResetByWatchdogOrSoftware(o.reset)
    ensures AdcAndLatchObserved(f, o, e + c + d)
  {
    assert AdcInitFailed !in e + c && PwrOn !in e;
    PrecededVacuous(e + c, AdcInit, AdcInitFailed);
    PrecededConcat(e + c, d, AdcInit, AdcInitFailed);
  }

  lemma TailInBoot(f: FeatureSet, e: seq<Event>, c: seq<Event>, d: seq<Event>)
    requires forall x :: x in e ==> IsEarlyEvent(x)
    requires forall x :: x in c ==> IsChargeEvent(x)
    requires |d| >= |BootTail(f)| && d[|d| - |BootTail(f)|..] == BootTail(f)
    requires RtcInit !in d[..|d| - |BootTail(f)|]
    ensures TailObserved(f, e + c + d)
  {
    var t := e + c + d;
    var tail := BootTail(f);
    var k := |d| - |tail|;
    assert RtcInit !in e + c;
    assert t[|t| - |tail|..] == d[k..];
    assert t[..|t| - |tail|] == (e + c) + d[..k];
  }

  /** The boot trace has the properties of phase 1 and the charge block. */
  lemma BootEarlyAndCharge(f: FeatureSet, o: BootOracle)
    ensures EarlyAndChargeOrder(BootTrace(f, o))
    ensures ChargeObserved(f, o, BootTrace(f, o), ChargeLit(f, o))
  {
    var e := EarlyTrace(f, o.borAtLevel3);
    var c := ChargeTrace(f, o);
    var d := DriverTrace(f, o.adcOk, o.reset);
    ChargeTracePhase(f, o);
    EarlyOrder(f, o.borAtLevel3);
    EarlyEvents(f, o.borAtLevel3);
    DriverEvents(f, o.adcOk, o.reset);
    EarlyAndChargeInBoot(e, c, d);
    ChargeInBoot(f, o, e, c, d, ChargeLit(f, o));
  }

  /** The keys are initialised right after phase 1 and the whole charge-wait
      block, and not before. */
  lemma KeysAfterChargeBlock(f: FeatureSet, o: BootOracle)
    ensures var t := BootTrace(f, o);
      var k := |EarlyTrace(f, o.borAtLevel3) + ChargeTrace(f, o)|;
      && k < |t| && t[k] == KeysInit && KeysInit !in t[..k]
      && t[..k] == EarlyTrace(f, o.borAtLevel3) + ChargeTrace(f, o)
  {
    EarlyEvents(f, o.borAtLevel3);
    ChargeTraceSteps(f, o);
    DriverEvents(f, o.adcOk, o.reset);
    KeysAfterParts(EarlyTrace(f, o.borAtLevel3), ChargeTrace(f, o), DriverTrace(f, o.adcOk, o.reset));
  }

  lemma KeysAfterParts(e: seq<Event>, c: seq<Event>, d: seq<Event>)
    requires forall x :: x in e ==> IsEarlyEvent(x)
    requires forall x :: x in c ==> IsChargeEvent(x)
    requires |d| > 0 && d[0] == KeysInit
    ensures var t := e + c + d; var k := |e + c|;
      && k < |t| && t[k] == KeysInit && KeysInit !in t[..k] && t[..k] == e + c
  {
    InConcat(e, c, KeysInit);
    FirstAfter(e + c, d, KeysInit);
  }

  /** When the charge loop runs, the block's ADC start comes before interrupts
      are enabled. */
  lemma ChargeAdcBeforeIrq(f: FeatureSet, o: BootOracle)
    requires ChargeLoopEntered(f, o)
    ensures !Preceded(BootTrace(f, o), EnableIrq, AdcInit)
  {
    var c := ChargeTrace(f, o);
    EarlyEvents(f, o.borAtLevel3);
    ChargeBlockAdcStart(o.chargeSamples);
    NotPrecededMiddle(EarlyTrace(f, o.borAtLevel3), c, DriverTrace(f, o.adcOk, o.reset), EnableIrq, AdcInit, 2);
  }

  /** The boot trace has the properties of phase 3. */
  lemma BootDrivers(f: FeatureSet, o: BootOracle)
    ensures DriverOrderObserved(f, o, BootTrace(f, o))
    ensures DriverObserved(f, o, BootTrace(f, o))
  {
    var e := EarlyTrace(f, o.borAtLevel3);
    var c := ChargeTrace(f, o);
    var d := DriverTrace(f, o.adcOk, o.reset);
    var lit := ChargeLit(f, o);
    ChargeTracePhase(f, o);
    EarlyEvents(f, o.borAtLevel3);
    DriverOrderAdc(f, o.adcOk, o.reset);
    DriverOrderLcd(f, o.adcOk, o.reset);
    DriverOrderInBoot(f, o, e, c, d, lit);
    if ChargeLoopEntered(f, o) {
      ChargeAdcBeforeIrq(f, o);
    }
    DriverAdcFailureGating(f, o.adcOk, o.reset);
    DriverAdcFailure(f, o.adcOk, o.reset);
    DriverPowerLatch(f, o.adcOk, o.reset);
    DriverTail(f, o.adcOk, o.reset);
    AdcAndLatchInBoot(f, o, e, c, d, lit);
    TailInBoot(f, e, c, d);
  }

  // ---------------------------------------------------------------------------
  // The boot sequence

  /** `boardInit`: phase 1, the charge-wait block, phase 3, in that order. */
  method BoardInit(f: FeatureSet, o: BootOracle) returns (t: seq<Event>, lit: set<nat>)
    ensures t == BootTrace(f, o) && lit == ChargeLit(f, o)
    ensures EarlyAndChargeOrder(t)
    ensures ChargeObserved(f, o, t, lit)
    ensures DriverOrderObserved(f, o, t)
    ensures DriverObserved(f, o, t)
  {
    var early := EarlyInit(f, o.borAtLevel3);
    var charge;
    charge, lit := ChargePhaseRun(f, o);
    var drivers := DriverInit(f, o.adcOk, o.reset);
    t := early + charge + drivers;
    BootEarlyAndCharge(f, o);
    BootDrivers(f, o);
  }
}
