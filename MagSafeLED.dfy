/** The colour decision for the MagSafe charging LED. */
module MagSafe {
  import opened AppStates
  import opened SmcServices

  datatype LedState = Off | Green | Orange

  /** Green once full or at the limit (even while charging), orange while charging, otherwise off. */
  function LedFor(fullyCharged: bool, batteryLevel: int, chargeLimit: int, isCharging: bool): (led: LedState)
    ensures led == Green <==> fullyCharged || batteryLevel >= chargeLimit
    ensures led == Orange <==> !fullyCharged && batteryLevel < chargeLimit && isCharging
    ensures led == Off <==> !fullyCharged && batteryLevel < chargeLimit && !isCharging
  {
    if fullyCharged || batteryLevel >= chargeLimit then Green
    else if isCharging then Orange
    else Off
  }

  /** Reaching the limit turns the LED green whatever the charging flag says. */
  lemma AtLimitIsGreenWhileCharging(batteryLevel: int, chargeLimit: int, fullyCharged: bool)
    requires batteryLevel >= chargeLimit
    ensures LedFor(fullyCharged, batteryLevel, chargeLimit, true) == LedFor(fullyCharged, batteryLevel, chargeLimit, false) == Green
  {
  }

  class MagSafeLEDService {
    const smc: SmcService

    constructor (smc: SmcService)
      ensures this.smc == smc
    {
      this.smc := smc;
    }

    /** Best effort: no LED state has a reliable register, so nothing is written. */
    method SetLED(state: LedState)
      ensures smc.writes == old(smc.writes)
    {
      match state
      case Off =>
      case Green =>
      case Orange =>
    }

    /** Chooses the colour from the shared state and sets it; the choice is returned for inspection. */
    method UpdateLED(appState: AppState) returns (chosen: LedState)
      ensures chosen == LedFor(appState.fullyCharged, appState.batteryLevel, appState.chargeLimit, appState.isCharging)
      ensures smc.writes == old(smc.writes)
    {
      chosen := LedFor(appState.fullyCharged, appState.batteryLevel, appState.chargeLimit, appState.isCharging);
      SetLED(chosen);
    }
  }
}
