/** The shared application state and the user's settings that the services read and update. */
module AppStates {
  import opened Wrappers
  import opened ChargingModes
  import opened CalibrationStates

  /** The persisted settings. Temperatures are degrees Celsius, as in the source's `Double`. */
  datatype Settings = Settings(
    chargeLimit: int,
    sailingLow: int,
    sailingHigh: int,
    heatProtectionEnabled: bool,
    heatProtectionThreshold: real,
    stopChargingOnQuit: bool,
    launchAtLogin: bool,
    calibrationIntervalDays: int,
    lastCalibrationDate: Option<Date>,
    showBatteryPercentInMenuBar: bool,
    preventSleepWhileCharging: bool)

  /** The values a fresh install starts from. */
  const DefaultSettings: Settings := Settings(
    chargeLimit := 80,
    sailingLow := 65,
    sailingHigh := 80,
    heatProtectionEnabled := true,
    heatProtectionThreshold := 40.0,
    stopChargingOnQuit := true,
    launchAtLogin := false,
    calibrationIntervalDays := 90,
    lastCalibrationDate := None,
    showBatteryPercentInMenuBar := true,
    preventSleepWhileCharging := false)

  class AppState {
    // Battery readings, refreshed by the battery-reading collaborator.
    var hasInitialReading: bool
    var batteryLevel: int
    var isCharging: bool
    var isPluggedIn: bool
    var fullyCharged: bool
    var timeToEmpty: Option<int>
    var timeToFull: Option<int>

    // Charging control.
    var chargeLimit: int
    var isChargingEnabled: bool
    var currentMode: ChargingMode

    var settings: Settings

    constructor ()
      ensures !hasInitialReading && batteryLevel == 0 && !isCharging && !isPluggedIn && !fullyCharged
      ensures timeToEmpty == None && timeToFull == None
      ensures chargeLimit == 80 && isChargingEnabled && currentMode == Normal
      ensures settings == DefaultSettings
    {
      hasInitialReading := false;
      batteryLevel := 0;
      isCharging := false;
      isPluggedIn := false;
      fullyCharged := false;
      timeToEmpty := None;
      timeToFull := None;
      chargeLimit := 80;
      isChargingEnabled := true;
      currentMode := Normal;
      settings := DefaultSettings;
    }
  }
}
