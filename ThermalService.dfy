/** The overheat test the heat-protection override relies on. */
module Thermal {
  import opened Wrappers
  import opened SmcServices

  /** Overheating: some valid reading exists and the hottest one is at least the threshold. */
  predicate Overheats(maxTemp: Option<real>, threshold: real) {
    maxTemp.Some? && maxTemp.value >= threshold
  }

  /** With no valid reading nothing overheats, whatever the threshold. */
  lemma NoReadingNeverOverheats(threshold: real)
    ensures !Overheats(None, threshold)
  {
  }

  /** Overheating at one threshold means overheating at every lower one. */
  lemma OverheatsAntitone(maxTemp: Option<real>, t: real, lower: real)
    requires lower <= t
    requires Overheats(maxTemp, t)
    ensures Overheats(maxTemp, lower)
  {
  }

  class ThermalService {
    const smc: SmcService

    constructor (smc: SmcService)
      ensures this.smc == smc
    {
      this.smc := smc;
    }

    method ReadMaxTemperature() returns (maxTemp: Option<real>)
      ensures maxTemp == smc.BatteryTemperature()
    {
      maxTemp := smc.ReadBatteryTemperature();
    }

    /** True exactly when a valid reading exists and the maximum reaches the threshold (inclusive). */
    method IsOverheating(threshold: real) returns (hot: bool)
      ensures hot <==> smc.BatteryTemperature().Some? && smc.BatteryTemperature().value >= threshold
      ensures hot == Overheats(smc.BatteryTemperature(), threshold)
    {
      var temp := ReadMaxTemperature();
      if temp.None? {
        return false;
      }
      hot := temp.value >= threshold;
    }
  }
}
