/** Build-time options of a Taranis-family target, the reset cause reported by
    the reset controller, and the unexpected-shutdown test made at start-up. */
module Features {

  /** One flag per `#if defined(...)` branch taken by `boardInit` and `boardOff`. */
  datatype FeatureSet = FeatureSet(
    bluetoothAtBoot: bool,     // BLUETOOTH and not PCBX9E
    radiomasterF407: bool,     // MANUFACTURER_RADIOMASTER and STM32F407xx
    pxx1FastBaudrate: bool,    // INTERNAL_MODULE_PXX1 and PXX_FREQUENCY_HIGH
    intmoduleHeartbeat: bool,  // INTMODULE_HEARTBEAT with an internal PXX1 or PXX2 module
    statusLeds: bool,          // STATUS_LEDS
    blueStatusLed: bool,       // MANUFACTURER_RADIOMASTER, MANUFACTURER_JUMPER or RADIO_COMMANDO8
    functionSwitches: bool,    // FUNCTION_SWITCHES
    rotaryEncoder: bool,       // ROTARY_ENCODER_NAVIGATION
    pwmSticks: bool,           // PWM_STICKS
    flyskyGimbal: bool,        // FLYSKY_GIMBAL
    debug: bool,               // DEBUG
    haptic: bool,              // HAPTIC
    pxx2Probe: bool,           // PXX2_PROBE
    pwrButtonPress: bool,      // PWR_BUTTON_PRESS
    topLcd: bool,              // TOPLCD_GPIO
    usbCharger: bool,          // USB_CHARGER
    jackDetect: bool,          // JACK_DETECT_GPIO
    rtc: bool,                 // RTCLOCK
    gui: bool                  // GUI
  )

  /** The reset-cause flags latched by the reset controller for the last reset. */
  datatype ResetFlags = ResetFlags(watchdog: bool, software: bool)

  predicate WasResetByWatchdog(r: ResetFlags) {
    r.watchdog
  }

  predicate WasResetByWatchdogOrSoftware(r: ResetFlags) {
    r.watchdog || r.software
  }

  /** The previous run ended without the orderly power-down: the watchdog fired,
      or the persisted unexpected-shutdown flag was left set. */
  function UnexpectedShutdown(r: ResetFlags, unexpectedShutdownFlag: bool): (b: bool)
    ensures r.watchdog ==> b
    ensures unexpectedShutdownFlag ==> b
    ensures !r.watchdog && !unexpectedShutdownFlag ==> !b
  {
    WasResetByWatchdog(r) || unexpectedShutdownFlag
  }

  /** The four input combinations, one by one; the software-reset flag plays no part. */
  lemma UnexpectedShutdownTable(software: bool)
    ensures UnexpectedShutdown(ResetFlags(false, software), false) == false
    ensures UnexpectedShutdown(ResetFlags(false, software), true) == true
    ensures UnexpectedShutdown(ResetFlags(true, software), false) == true
    ensures UnexpectedShutdown(ResetFlags(true, software), true) == true
  {
  }
}
