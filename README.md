# Battery manager charging policy — a Dafny model

This project models the decision core of a macOS menu-bar battery manager and
of its privileged helper, and proves properties of that model.

The app keeps the battery below a charge limit by writing System Management
Controller (SMC) registers:

- CH0B turns charging on (0x00) or off (0x02).
- CH0I inhibits the adapter (1) or releases it (0).
- BCLM is the charge-level ceiling byte.
- BFCL forces charging.

Every tick the charging controller takes a snapshot of the shared app state.
If heat protection is on and the battery is hot, a heat override disables
charging and stores the heat-protection mode. Otherwise the controller
dispatches on the current mode:

- normal: hold at the limit;
- top-up: charge to 100% once;
- sailing: charge below a band, discharge above it;
- discharge;
- calibration: delegated to a small state machine;
- heat protection.

Around that loop the model covers:

- a schedule service that overrides the limit while a time window is active;
- the helper's defensive register policy, which writes every present key and
  reports success if any write succeeded;
- the sp78 temperature decoding and the maximum-temperature fold;
- the sleep-assertion guard, the bounded log buffer and the MagSafe LED decision;
- the enums and formatters of the model layer.

The SMC is an oracle:

- whether the connection opened (`isConnected` / `smcConnected`);
- which keys can be read and their first two bytes (`readable`);
- which keys accept a write (`writable`).

Every write the code issues is appended to a `writes` log, so the contracts
say exactly which register writes happen, in which order. A policy decision
is a pure function that returns an ordered list of `Action`s
(`SetCharging`, `SetInhibit`, `SetCeiling`, `SetForceCharging`, `AllowSleep`,
`PreventSleep`). The imperative handlers are proved to perform exactly that
list:

- `smc.writes` grows by the list's register writes;
- `isChargingEnabled` follows only the charging writes that succeeded;
- the power assertion follows the list's sleep requests.

Files (one module each, `Registers.dfy` has two):

| file | models |
|---|---|
| `Wrappers.dfy`, `Text.dfy` | `Option`, decimal digits, padding, join/split helpers |
| `Registers.dfy` | big-endian Int16 and sp78 decoding, valid readings, maximum |
| `SmcKey.dfy`, `ChargingMode.dfy`, `CalibrationState.dfy` | the model enums |
| `Actions.dfy` | the action log and the 80/100 ceiling mapping |
| `SmcService.dfy` | the in-app SMC wrapper and its byte encodings |
| `ThermalService.dfy`, `PowerAssertionService.dfy`, `AppLogger.dfy`, `MagSafeLED.dfy` | the guards |
| `AppState.dfy` | the shared app state and the default settings |
| `CalibrationService.dfy` | the calibration state machine |
| `ChargingController.dfy` | the mode dispatcher |
| `Schedule.dfy`, `ScheduleService.dfy` | schedule windows and the override |
| `Helper.dfy` | the privileged helper's register policy |
| `BatteryViewModel.dfy` | the time-remaining formatter |

Three behaviours of the code that a reader might not expect:

- **Schedule revert.** The schedule revert applies `settings.chargeLimit` when
  the last active schedule ends. But `applyChargeLimit` has already stored the
  schedule's own target into `settings.chargeLimit` when the override began. So
  the "revert" re-applies the clamped schedule target, not the user's earlier
  limit (`ScheduleServices.RevertReappliesTarget`).
- **Cancelling calibration.** `cancelCalibration` is accepted from any state,
  not only from a running one. It always writes charging on and inhibit off and
  sets the mode to normal.
- **CH0C writes.** The helper writes CH0C whenever CH0B is present. A missing
  CH0C only shows in the log.

## Model

| member | source | states |
|---|---|---|
| Registers.Int16BigEndian | BatteryManager/Services/SMCService.swift:96-97 | the two bytes read as a big-endian two's-complement 16-bit value: in range, congruent to the unsigned value, negative exactly when the top bit is set |
| Registers.DecodeEncodeInt16 | BatteryManager/Services/SMCService.swift:96-97 | every 16-bit value survives encoding to two bytes and decoding back |
| Registers.EncodeDecodeInt16 | BatteryManager/Services/SMCService.swift:96-97 | every byte pair survives decoding and re-encoding, so the decoding is a bijection |
| Registers.Sp78 | BatteryManager/Services/SMCService.swift:96-97 | the sp78 temperature is the signed raw value divided by 256, in [-128, 128) |
| Registers.Sp78Positive | BatteryManagerHelper/main.swift:254-258 | a reading is valid (> 0) iff the raw value is positive, i.e. the top bit is clear and some bit is set |
| Registers.Sp78AtLeast | BatteryManager/Services/ThermalService.swift:14-17 | a temperature reaches a whole-degree threshold iff the raw value is at least 256 times it |
| Registers.Sp78Forty | BatteryManager/Services/SMCService.swift:96-97 | bytes [0x28, 0x00] decode to 40.0 °C |
| Registers.Sp78Injective | BatteryManager/Services/SMCService.swift:96-97 | distinct byte pairs decode to distinct temperatures |
| Temperatures.ValidTemperatures | BatteryManagerHelper/main.swift:246-263 | every kept reading is positive and comes from a successful read, and every successful positive reading is kept; order and multiplicity are `ValidTemperaturesOne` and `ValidTemperaturesAppend` |
| Temperatures.ValidTemperaturesOne | BatteryManagerHelper/main.swift:250-257 | one sensor contributes its decoded reading iff the read succeeded and the reading is positive, and nothing otherwise |
| Temperatures.ValidTemperaturesAppend | BatteryManagerHelper/main.swift:249-258 | the readings of consecutive sensors are those of the first ones followed by those of the rest, so the result keeps sensor order and one entry per valid sensor |
| Temperatures.MaxTemperature | BatteryManager/Services/SMCService.swift:88-108 | nil iff there is no valid reading; otherwise a member that bounds every reading |
| SmcKeys.RawValue | BatteryManager/Models/SMCKey.swift:3-13 | every register key name is four characters |
| SmcKeys.FourCharCode | BatteryManager/Models/SMCKey.swift:15 | the four-character code equals the raw value |
| SmcKeys.FromRawValue | BatteryManager/Models/SMCKey.swift:3-13 | parsing a name yields only a key with that name |
| SmcKeys.FromRawValueRoundTrip | BatteryManager/Models/SMCKey.swift:3-13 | parsing a key's name gives back the key |
| SmcKeys.RawValueInjective | BatteryManager/Models/SMCKey.swift:3-13 | raw key names are pairwise distinct |
| SmcKeys.AllKeysComplete | BatteryManager/Models/SMCKey.swift:3-13 | the key list holds every key exactly once |
| ChargingModes.FromRawValue | BatteryManager/Models/ChargingMode.swift:3-9 | parsing a persisted name yields only the mode with that name |
| ChargingModes.SystemImage | BatteryManager/Models/ChargingMode.swift:33-42 | top-up shows "battery.100percent.bolt" and heat protection "thermometer.sun.fill" |
| ChargingModes.SystemImageInjective | BatteryManager/Models/ChargingMode.swift:33-42 | no two modes share a symbol |
| ChargingModes.AllModesEnumerates | BatteryManager/Models/ChargingMode.swift:3-9 | there are exactly six modes, each listed once |
| ChargingModes.RawValueRoundTrip | BatteryManager/Models/ChargingMode.swift:3-9 | a mode's persisted name parses back to the mode |
| ChargingModes.RawValueInjective | BatteryManager/Models/ChargingMode.swift:3-9 | persisted names are distinct |
| ChargingModes.DisplayNameInjective | BatteryManager/Models/ChargingMode.swift:11-20 | display names are distinct per mode |
| CalibrationStates.DisplayName | BatteryManager/Models/CalibrationState.swift:9-16 | "Ready", "Discharging to p%", "Charging to 100%" and "Complete" per state |
| CalibrationStates.IsRunning | BatteryManager/Models/CalibrationState.swift:18-23 | running exactly while discharging or charging to 100% |
| CalibrationStates.DisplayNameDistinguishesTargets | BatteryManager/Models/CalibrationState.swift:12 | two discharge targets with the same label are the same target |
| Actions.CeilingFor | BatteryManager/Services/ChargingController.swift:68-69 | the ceiling byte is 80 exactly when the limit is at most 80, and 100 otherwise |
| Actions.CeilingForMonotone | BatteryManager/Services/ChargingController.swift:68-69 | a higher limit never maps to a lower ceiling |
| SmcServices.Encode | BatteryManager/Services/SMCService.swift:70-84 | exactly the register actions become writes, each one `ui8` byte |
| SmcServices.DecodeEncode | BatteryManager/Services/SMCService.swift:70-84 | each register write decodes back to the action that produced it |
| SmcServices.Decode | BatteryManager/Services/SMCService.swift:70-84 | reads a logged write back as the setter call that produced it: CH0B 0/2, CH0I 1/0, BCLM any byte, BFCL 1/0, and nothing for any other key, type, size or value; `SmcServices.DecodeEncode` proves it inverts the setters |
| SmcServices.ChargingUsesCH0BOnly | BatteryManager/Services/SMCService.swift:74-76 | charging on/off writes CH0B only, never CH0C, with 0 to enable and 2 to disable |
| SmcServices.EncodeAll | BatteryManager/Services/SMCService.swift:70-84 | an action list yields at most one write per action |
| SmcServices.EncodeAllAppend | BatteryManager/Services/SMCService.swift:70-84 | the writes of consecutive lists are the concatenation of their writes |
| SmcServices.DecodeEncodeAll | BatteryManager/Services/SMCService.swift:70-84 | the writes of a list decode back to its register actions, in order |
| SmcServices.RegisterActions | BatteryManager/Services/SMCService.swift:70-84 | keeps exactly the actions that touch a register |
| SmcServices.SmcService.constructor | BatteryManager/Services/SMCService.swift:9-15 | connected iff the SMC opened; nothing written yet |
| SmcServices.SmcService.Read | BatteryManager/Services/SMCService.swift:25-36 | a read succeeds iff connected and the key is readable; disconnected reads are nil |
| SmcServices.SmcService.Issued | BatteryManager/Services/SMCService.swift:38-61 | a disconnected wrapper issues no write; a connected one issues the encoding of every action |
| SmcServices.SmcService.IssuedAppend | BatteryManager/Services/SMCService.swift:38-61 | writes issued by consecutive lists concatenate |
| SmcServices.SmcService.ReadKey | BatteryManager/Services/SMCService.swift:25-36 | returns nil without touching hardware when disconnected, else the oracle's answer |
| SmcServices.SmcService.WriteKey | BatteryManager/Services/SMCService.swift:38-61 | when disconnected, writes nothing and returns false; otherwise logs exactly one write and returns whether the key accepted it |
| SmcServices.SmcService.ReadBatteryChargeLevel | BatteryManager/Services/SMCService.swift:65-68 | byte 0 of BCLM, or nil iff the read failed |
| SmcServices.SmcService.SetBatteryChargeLimit | BatteryManager/Services/SMCService.swift:70-72 | writes BCLM as one `ui8` byte, verbatim |
| SmcServices.SmcService.SetChargingEnabled | BatteryManager/Services/SMCService.swift:74-76 | writes CH0B = 0 to enable, 2 to disable |
| SmcServices.SmcService.SetChargeInhibit | BatteryManager/Services/SMCService.swift:78-80 | writes CH0I = 1 to inhibit, 0 to clear |
| SmcServices.SmcService.SetForceCharging | BatteryManager/Services/SMCService.swift:82-84 | writes BFCL = 1/0 |
| SmcServices.SmcService.TemperatureReads | BatteryManager/Services/SMCService.swift:88-95 | reads TB0T, TB1T, TB2T in that order |
| SmcServices.SmcService.ReadBatteryTemperature | BatteryManager/Services/SMCService.swift:88-108 | the loop returns the maximum of the valid readings, nil if none is valid |
| SmcServices.BatteryTemperatureIsMax | BatteryManager/Services/SMCService.swift:88-108 | the result is nil iff no reading is valid, and otherwise a valid reading that is at least every decoded reading above zero |
| SmcServices.DisconnectedHasNoTemperature | BatteryManager/Services/SMCService.swift:27 | a disconnected wrapper reports no temperature |
| Thermal.NoReadingNeverOverheats | BatteryManager/Services/ThermalService.swift:15 | with no valid reading, no threshold counts as overheating |
| Thermal.OverheatsAntitone | BatteryManager/Services/ThermalService.swift:14-17 | overheating at a threshold implies overheating at every lower threshold |
| Thermal.ThermalService.constructor | BatteryManager/Services/ThermalService.swift:3-8 | the service reads through the given SMC wrapper |
| Thermal.ThermalService.ReadMaxTemperature | BatteryManager/Services/ThermalService.swift:10-12 | exactly the wrapper's maximum temperature |
| Thermal.ThermalService.IsOverheating | BatteryManager/Services/ThermalService.swift:14-17 | true iff there is a valid maximum and it is at least the threshold (inclusive) |
| PowerAssertions.PreventSleepNext | BatteryManager/Services/PowerAssertionService.swift:8-17 | a no-op when already asserted; otherwise one OS call is made and the new asserted state is whether it succeeded |
| PowerAssertions.AllowSleepNext | BatteryManager/Services/PowerAssertionService.swift:19-24 | a no-op when not asserted; otherwise the held ID is released once and the state is reset to (false, 0) |
| PowerAssertions.PreventSleepIdempotent | BatteryManager/Services/PowerAssertionService.swift:9 | after a granted assertion, a second request changes nothing and makes no OS call |
| PowerAssertions.AllowSleepIdempotent | BatteryManager/Services/PowerAssertionService.swift:20 | releasing twice is releasing once, and sleep is then allowed |
| PowerAssertions.PreventThenAllowReleasesGrantedID | BatteryManager/Services/PowerAssertionService.swift:8-24 | assert-then-release releases exactly the ID the OS granted |
| PowerAssertions.SleepEffectAppend | BatteryManager/Services/PowerAssertionService.swift:8-24 | the sleep effect of consecutive action lists composes |
| PowerAssertions.SleepEffect | BatteryManager/Services/PowerAssertionService.swift:8-24 | the assertion state after the sleep requests of an action log, applied in order (allow-sleep as `allowSleep`, prevent-sleep as `preventSleep`, register actions ignored); `SleepEffectAppend` and `SleepEffectNoSleepActions` prove how it composes |
| PowerAssertions.SleepEffectNoSleepActions | BatteryManager/Services/PowerAssertionService.swift:8-24 | register-only action lists leave the assertion untouched |
| PowerAssertions.PowerAssertionService.constructor | BatteryManager/Services/PowerAssertionService.swift:4-6 | starts unasserted with ID 0 and no OS calls |
| PowerAssertions.PowerAssertionService.PreventSleep | BatteryManager/Services/PowerAssertionService.swift:8-17 | the state moves as the prevent-sleep rule says |
| PowerAssertions.PowerAssertionService.AllowSleep | BatteryManager/Services/PowerAssertionService.swift:19-24 | the state moves as the allow-sleep rule says |
| PowerAssertions.PowerAssertionService.Deinit | BatteryManager/Services/PowerAssertionService.swift:26-28 | any held assertion is released exactly once |
| Logging.Trim | BatteryManager/Services/AppLogger.swift:9-21 | keeps the newest min(n, 200) entries, in order |
| Logging.TrimAppend | BatteryManager/Services/AppLogger.swift:18-21 | trimming after every append gives the same buffer as trimming the whole history once |
| Logging.TimestampFields | BatteryManager/Services/AppLogger.swift:39-43 | the timestamp is "HH:mm:ss" with zero-padded fields that read back as the clock values |
| Logging.Timestamp | BatteryManager/Services/AppLogger.swift:39-43 | the `HH:mm:ss` rendering of a time of day, whose layout and read-back `Logging.TimestampFields` proves |
| Logging.Entry | BatteryManager/Services/AppLogger.swift:14-15 | an entry is "[" + timestamp + "] " + message |
| Logging.AppLogger.constructor | BatteryManager/Services/AppLogger.swift:7-11 | starts with an empty buffer |
| Logging.AppLogger.Log | BatteryManager/Services/AppLogger.swift:13-23 | appends the new entry at the end and drops the oldest entries beyond 200, so the buffer is the last 200 entries of the history |
| Logging.AppLogger.Append | BatteryManager/Services/AppLogger.swift:16-22 | the queued block of `log`: the history gains the entry at its end and the buffer becomes the trimmed old buffer plus the entry, at most 200 long and ending with it |
| Logging.AppLogger.GetEntries | BatteryManager/Services/AppLogger.swift:25-27 | returns the buffer unchanged |
| Logging.AppLogger.AllText | BatteryManager/Services/AppLogger.swift:29-31 | the entries joined with newlines; for entries without newlines the text splits back into the entries |
| Logging.AppLogger.Clear | BatteryManager/Services/AppLogger.swift:33-37 | the buffer is emptied |
| Logging.LogSequenceKeepsNewest | BatteryManager/Services/AppLogger.swift:13-23 | any run of `log` calls leaves the newest 200 entries of the whole history |
| MagSafe.LedFor | BatteryManager/Services/MagSafeLEDService.swift:30-38 | green iff fully charged or at or above the limit; orange iff below it and charging; off otherwise |
| MagSafe.AtLimitIsGreenWhileCharging | BatteryManager/Services/MagSafeLEDService.swift:31-32 | at or above the limit the LED is green whether or not the battery is charging |
| MagSafe.MagSafeLEDService.constructor | BatteryManager/Services/MagSafeLEDService.swift:9-14 | the service uses the given SMC wrapper |
| MagSafe.MagSafeLEDService.SetLED | BatteryManager/Services/MagSafeLEDService.swift:16-28 | no register is written for any LED state |
| MagSafe.MagSafeLEDService.UpdateLED | BatteryManager/Services/MagSafeLEDService.swift:30-38 | chooses the LED from the app state as above and writes nothing |
| AppStates.AppState.constructor | BatteryManager/App/AppState.swift:7-30 | the declared initial values, with the default settings |
| Calibration.TickAtRest | BatteryManager/Services/CalibrationService.swift:32-33 | in idle or complete a tick changes nothing and writes nothing |
| Calibration.TickStep | BatteryManager/Services/CalibrationService.swift:30-69 | one tick of the calibration state machine as next state and ordered writes: at rest nothing; draining writes charging off and inhibit on and, at or below the target, also inhibit off, ceiling 100 and charging on and moves to charging to 100%; charging to 100% writes ceiling 100 and charging on and, when full, completes and writes the mapped ceiling of the stored limit; its promises are `TickAtRest`, `TickMovesForward`, `DrainingTickActions` and `TickCeilingsValid` |
| Calibration.TickMovesForward | BatteryManager/Services/CalibrationService.swift:30-69 | a tick never moves back a phase, and from discharging its only successors are itself and charging to 100% |
| Calibration.DrainingTickActions | BatteryManager/Services/CalibrationService.swift:35-46 | while draining, every tick writes charging off and inhibit on; at or below the target it also writes inhibit off, ceiling 100 and charging on, and moves to charging to 100% |
| Calibration.TickCeilingsValid | BatteryManager/Services/CalibrationService.swift:48-67 | every ceiling a tick writes is 80 or 100, and completion restores the mapped ceiling of the stored limit |
| Calibration.Run | BatteryManager/Services/CalibrationService.swift:30-69 | a run of ticks yields one state per tick |
| Calibration.RunNeverGoesBack | BatteryManager/Services/CalibrationService.swift:30-69 | along any run the phase never decreases, and an idle machine stays idle |
| Calibration.RunNeverSkipsCharging | BatteryManager/Services/CalibrationService.swift:40-42 | a run from discharging reaches complete only after passing through charging to 100% |
| Calibration.CalibrationService.constructor | BatteryManager/Services/CalibrationService.swift:3-11 | starts idle |
| Calibration.CalibrationService.StartCalibration | BatteryManager/Services/CalibrationService.swift:13-18 | from any state: discharging to the target (default 15) and calibration mode |
| Calibration.CalibrationService.CancelCalibration | BatteryManager/Services/CalibrationService.swift:20-28 | from any state: idle, writes charging on then inhibit off, and normal mode |
| Calibration.CalibrationService.Tick | BatteryManager/Services/CalibrationService.swift:30-69 | state, register writes, mode, stored date and settings move exactly as one tick of the state machine says |
| Calibration.CalibrationService.Ticked | BatteryManager/Services/CalibrationService.swift:30-69 | the new state is `TickStep`'s next state; exactly its writes are issued; a completing tick sets normal mode and stores the date in the settings, any other tick leaves mode and settings as they were |
| Calibration.CalibrationService.TickDraining | BatteryManager/Services/CalibrationService.swift:35-46 | the draining branch performs the tick's writes and next state |
| Calibration.CalibrationService.TickCharging | BatteryManager/Services/CalibrationService.swift:48-67 | the charging branch performs the tick's writes and next state, and on completion stores the date and sets normal mode |
| Controller.Clamp | BatteryManager/Services/ChargingController.swift:66 | the limit is clamped into [20, 100] and values inside are kept |
| Controller.EnabledAfter | BatteryManager/Services/ChargingController.swift:37-56 | the charging flag after an action log: each accepted charging write sets it to the requested value, a refused one leaves it; `EnabledAfterAppend` and `EnabledAfterFailedWrites` prove its composition and the refused case |
| Controller.NormalActions | BatteryManager/Services/ChargingController.swift:151-165 | the normal-mode actions: at or above the limit charging off, inhibit on, allow sleep; below it inhibit off, charging on and a sleep assertion iff asked; proved in `NormalAtOrAboveLimit` and `NormalBelowLimit` |
| Controller.TopUpActions | BatteryManager/Services/ChargingController.swift:167-178 | ceiling 100 and charging on every tick, then the mapped ceiling of the configured limit once the level is 100 or the battery is full; proved in `TopUpEveryTick` |
| Controller.SailingActions | BatteryManager/Services/ChargingController.swift:180-193 | charging on below the band, forced discharge above it, charging off without inhibit inside it; proved in `SailingBands` |
| Controller.ModeActions | BatteryManager/Services/ChargingController.swift:132-146 | the actions of the handler the snapshot mode selects, heat protection writing only charging off and calibration delegated (no actions here); `OnlyTwoCeilings` bounds every ceiling they write |
| Controller.ModeAfter | BatteryManager/Services/ChargingController.swift:167-178 | the mode a handler leaves: normal after a finished top-up, the snapshot mode otherwise |
| Controller.HandlerMode | BatteryManager/Services/ChargingController.swift:132-146 | the stored mode after a non-calibration handler: normal after a finished top-up, heat protection after the heat handler, the stored mode otherwise |
| Controller.NextMode | BatteryManager/Services/ChargingController.swift:116-149 | the mode after one evaluation outside calibration: heat protection when the override fires, otherwise what the handler leaves; `HeatProtectionIsSticky` proves heat protection is never left |
| Controller.ChargingController.Wrote | BatteryManager/Services/ChargingController.swift:37-56 | the new register log is the old one plus exactly the writes of the actions, and the charging flag follows `EnabledAfter` on whether CH0B accepts writes |
| Controller.ChargingController.Performed | BatteryManager/Services/ChargingController.swift:151-224 | `Wrote` of the actions, and the power assertion ends where `SleepEffect` of the same actions puts it |
| Controller.ChargingController.Evaluated | BatteryManager/Services/ChargingController.swift:116-149 | when the heat override fires: only the heat actions, heat-protection mode, settings and calibration untouched; otherwise `Dispatched` |
| Controller.ChargingController.Dispatched | BatteryManager/Services/ChargingController.swift:132-149 | outside calibration the handler's `ModeActions`, its `HandlerMode` and untouched settings and calibration; in calibration either nothing (no service) or one `Ticked` step with the flag and assertion kept |
| Controller.ClampIdempotent | BatteryManager/Services/ChargingController.swift:66 | clamping twice is clamping once |
| Controller.ClampMonotone | BatteryManager/Services/ChargingController.swift:66 | clamping preserves order |
| Controller.EnabledAfterAppend | BatteryManager/Services/ChargingController.swift:37-56 | the charging flag after consecutive action lists composes |
| Controller.EnabledAfterFailedWrites | BatteryManager/Services/ChargingController.swift:37-56 | when charging writes fail, the flag never moves |
| Controller.FoldExtend | BatteryManager/Services/ChargingController.swift:151-224 | appending one action extends the writes, the charging flag and the sleep state by that action's effect |
| Controller.NormalAtOrAboveLimit | BatteryManager/Services/ChargingController.swift:151-157 | at or above the limit: charging off, inhibit on, sleep allowed, and nothing turns charging on |
| Controller.NormalBelowLimit | BatteryManager/Services/ChargingController.swift:158-164 | below the limit: inhibit off then charging on, plus a sleep assertion iff the flag is set, and never an allow-sleep |
| Controller.SailingBands | BatteryManager/Services/ChargingController.swift:180-193 | below the band: only charging on, with no inhibit write; above it: discharge forced; inside it: off and not inhibited; charging is enabled iff below the band |
| Controller.TopUpEveryTick | BatteryManager/Services/ChargingController.swift:167-178 | every top-up tick writes ceiling 100 then charging on; it finishes iff the level is at least 100 or the battery is fully charged, and then it writes the mapped ceiling and returns to normal |
| Controller.DischargeAlwaysForces | BatteryManager/Services/ChargingController.swift:195-197 | discharge mode always writes charging off and inhibit on and stays in discharge |
| Controller.OnlyTwoCeilings | BatteryManager/Services/ChargingController.swift:68-69 | every ceiling written by a handler, by heat protection, by restore or by a calibration tick is 80 or 100 |
| Controller.HeatProtectionIsSticky | BatteryManager/Services/ChargingController.swift:143-144 | from heat protection, an evaluation stays in heat protection and only disables charging, hot or not |
| Controller.ModeRun | BatteryManager/Services/ChargingController.swift:116-149 | a run of evaluations that starts outside calibration yields one mode per evaluation, none of them calibration (the calibration tick that leaves calibration is `Calibration.CalibrationService.Ticked`, not part of this fold) |
| Controller.HeatProtectionNeverReverts | BatteryManager/Services/ChargingController.swift:125-130 | once in heat protection, every later evaluation leaves the app in heat protection |
| Controller.ChargingController.constructor | BatteryManager/Services/ChargingController.swift:3-17 | the controller shares the app state and SMC wrapper with its collaborators |
| Controller.ChargingController.EnableCharging | BatteryManager/Services/ChargingController.swift:37-44 | writes charging on; the flag becomes true only if the write succeeded |
| Controller.ChargingController.DisableCharging | BatteryManager/Services/ChargingController.swift:46-56 | writes charging off; the flag becomes false only if the write succeeded |
| Controller.ChargingController.SetMode | BatteryManager/Services/ChargingController.swift:58-63 | stores the mode and nothing else |
| Controller.ChargingController.ApplyChargeLimit | BatteryManager/Services/ChargingController.swift:65-79 | clamps the limit, writes its 80/100 ceiling, and stores the clamped value in both the app state and the settings |
| Controller.ChargingController.HandleNormalMode | BatteryManager/Services/ChargingController.swift:151-165 | performs the normal-mode actions: writes, charging flag and sleep assertion |
| Controller.ChargingController.HoldAtLimit | BatteryManager/Services/ChargingController.swift:152-156 | performs charging off, inhibit on, allow sleep |
| Controller.ChargingController.ChargeTowardLimit | BatteryManager/Services/ChargingController.swift:158-164 | performs inhibit off, charging on and, if asked, prevent sleep |
| Controller.ChargingController.HandleTopUp | BatteryManager/Services/ChargingController.swift:167-178 | performs the top-up writes and switches to normal exactly when finished |
| Controller.ChargingController.HandleSailingMode | BatteryManager/Services/ChargingController.swift:180-193 | performs the sailing-band writes |
| Controller.ChargingController.HandleDischarge | BatteryManager/Services/ChargingController.swift:195-197 | performs the forced discharge |
| Controller.ChargingController.HandleCalibration | BatteryManager/Services/ChargingController.swift:199-201 | one calibration tick with the snapshot level, or nothing without a calibration service |
| Controller.ChargingController.HandleHeatProtection | BatteryManager/Services/ChargingController.swift:203-210 | writes charging off only, and stores heat-protection mode |
| Controller.ChargingController.ForceDischarge | BatteryManager/Services/ChargingController.swift:212-215 | writes charging off, then inhibit on |
| Controller.ChargingController.EvaluateAndAct | BatteryManager/Services/ChargingController.swift:116-149 | if the override fires, only the heat actions and heat-protection mode; otherwise the mode handler's full effect, settings untouched outside calibration |
| Controller.ChargingController.EvaluatedMode | BatteryManager/Services/ChargingController.swift:116-149 | after an evaluation outside calibration whose snapshot holds the stored mode, the stored mode is `NextMode` of the snapshot and the override, so `ModeRun` and `HeatProtectionNeverReverts` describe runs of `EvaluateAndAct` |
| Controller.ChargingController.DispatchMode | BatteryManager/Services/ChargingController.swift:132-146 | dispatches on the snapshot mode and performs that handler's effect |
| Controller.ChargingController.SafeEvaluate | BatteryManager/Services/ChargingController.swift:85-114 | nothing happens before the first reading; afterwards one evaluation on a snapshot of the state |
| Controller.ChargingController.RestoreDefaults | BatteryManager/Services/ChargingController.swift:219-224 | writes charging on (the flag following its success), inhibit off, ceiling 100, then releases any sleep assertion |
| Schedules.Minutes | BatteryManager/Models/Schedule.swift:35-37 | a valid time maps to a minute of the day |
| Schedules.IsActiveNow | BatteryManager/Models/Schedule.swift:28-45 | whether a schedule is active at a given hour, minute and weekday, following the guard order of the source; `ActiveIffInCircularWindow`, `DisabledNeverActive`, `WeekdayRule` and `EmptyWindowNeverActive` prove what it means |
| Schedules.TimeString | BatteryManager/Models/Schedule.swift:13-19 | the `%02d:%02d` rendering of an hour and minute; `TimeStringRoundTrip` and `TimeStringInjective` prove its layout and injectivity |
| Schedules.StartTimeString | BatteryManager/Models/Schedule.swift:13-15 | the start time rendered by `TimeString` |
| Schedules.EndTimeString | BatteryManager/Models/Schedule.swift:17-19 | the end time rendered by `TimeString` |
| Schedules.RepeatDaysString | BatteryManager/Models/Schedule.swift:21-26 | "Every day", "Once", or the ascending short names of the selected days joined with ", "; `RepeatDaysListsDays` proves each case |
| Schedules.Elapsed | BatteryManager/Models/Schedule.swift:39-44 | the clockwise distance between two minutes of the day |
| Schedules.DisabledNeverActive | BatteryManager/Models/Schedule.swift:29 | a disabled schedule is never active |
| Schedules.WeekdayRule | BatteryManager/Models/Schedule.swift:31-34 | a non-empty day set that excludes today makes the schedule inactive; an empty one ignores the weekday |
| Schedules.ActiveIffInCircularWindow | BatteryManager/Models/Schedule.swift:28-45 | active iff enabled, running today, and the current minute lies in the circular window from start (inclusive) to end (exclusive), same-day and overnight alike |
| Schedules.EmptyWindowNeverActive | BatteryManager/Models/Schedule.swift:39-40 | a window whose start equals its end is never active |
| Schedules.OvernightExample | BatteryManager/Models/Schedule.swift:41-44 | 23:00–07:00 is active at 23:00, 00:30 and 06:59 and inactive at 07:00 and 08:00 |
| Schedules.TimeStringRoundTrip | BatteryManager/Models/Schedule.swift:13-19 | the time string is "HH:MM", zero-padded, and reads back as the hour and minute |
| Schedules.TimeStringInjective | BatteryManager/Models/Schedule.swift:13-19 | distinct valid times give distinct strings |
| Schedules.NamedDaysFrom | BatteryManager/Models/Schedule.swift:24 | the selected days, in strictly ascending order, each exactly once |
| Schedules.NamesOf | BatteryManager/Models/Schedule.swift:24 | each day mapped to its short name |
| Schedules.RepeatDaysListsDays | BatteryManager/Models/Schedule.swift:21-26 | seven days give "Every day", none give "Once", otherwise the ascending day names joined with ", " |
| ScheduleServices.RemoveId | BatteryManager/Services/ScheduleService.swift:37 | removes every entry with the id and keeps every other entry |
| ScheduleServices.RemoveIdAppend | BatteryManager/Services/ScheduleService.swift:37 | removal distributes over concatenation, so the order of the rest is preserved |
| ScheduleServices.RemoveIdAbsent | BatteryManager/Services/ScheduleService.swift:37 | removing an absent id changes nothing |
| ScheduleServices.RemoveIdIdempotent | BatteryManager/Services/ScheduleService.swift:37 | removing twice is removing once |
| ScheduleServices.FirstIndex | BatteryManager/Services/ScheduleService.swift:42 | the first index with the id, or none iff the id is absent |
| ScheduleServices.FirstActive | BatteryManager/Services/ScheduleService.swift:51 | the first active schedule in list order, or none iff none is active |
| ScheduleServices.OverrideEdges | BatteryManager/Services/ScheduleService.swift:53-61 | the flag becomes "some schedule is active"; a limit is applied iff that flips; the rising edge applies the schedule's target and the falling edge the stored limit |
| ScheduleServices.OverrideStep | BatteryManager/Services/ScheduleService.swift:53-61 | one evaluation of the override: the new flag and the limit to apply, if any (the target on the rising edge, the stored limit on the falling edge); `OverrideEdges` proves the edge behaviour |
| ScheduleServices.OverrideRun | BatteryManager/Services/ScheduleService.swift:50-62 | a run of evaluations yields one outcome per evaluation |
| ScheduleServices.AppliedOnceWhileActive | BatteryManager/Services/ScheduleService.swift:53-57 | while schedules stay active, the target is applied once at the rising edge and never again |
| ScheduleServices.RevertReappliesTarget | BatteryManager/Services/ScheduleService.swift:53-61 | a schedule that starts and then ends applies its target and then its own clamped target again |
| ScheduleServices.ScheduleService.constructor | BatteryManager/Services/ScheduleService.swift:11-15 | starts from the saved list, not overriding |
| ScheduleServices.ScheduleService.AddSchedule | BatteryManager/Services/ScheduleService.swift:31-34 | appends at the end |
| ScheduleServices.ScheduleService.RemoveSchedule | BatteryManager/Services/ScheduleService.swift:36-39 | the list without the id's entries, order kept |
| ScheduleServices.ScheduleService.ToggleSchedule | BatteryManager/Services/ScheduleService.swift:41-46 | sets the flag on the first entry with the id only; a no-op when it is absent |
| ScheduleServices.ScheduleService.Evaluate | BatteryManager/Services/ScheduleService.swift:50-62 | one edge-triggered override step with the first active schedule, and the charge-limit effects of what it applies |
| Helper.Detect | BatteryManagerHelper/main.swift:69-95 | each capability flag holds iff its key is readable |
| Helper.DetectIgnoresCH0C | BatteryManagerHelper/main.swift:69-95 | whether CH0C is present does not affect the capabilities |
| Helper.ChargingWritesAgree | BatteryManagerHelper/main.swift:188-215 | every charging write asks for the same on/off; CHTE is written iff present; CH0B and CH0C are both written iff CH0B is present |
| Helper.ChargingWrites | BatteryManagerHelper/main.swift:194-211 | the writes `setChargingEnabled` makes: CHTE as four bytes if present, then CH0B and CH0C if CH0B is present; `ChargingWritesAgree` proves they all ask for the same state |
| Helper.InhibitWrites | BatteryManagerHelper/main.swift:223-232 | the writes `setChargeInhibit` makes: CHIE 0x08/0x00 if present, then CH0I 0x01/0x00 if present; `InhibitWritesAgree` proves they agree |
| Helper.AnySucceeded | BatteryManagerHelper/main.swift:192-213 | the `anySuccess` reply: true iff one of the writes made was accepted; `ChargingReply` proves it for the charging keys |
| Helper.InhibitWritesAgree | BatteryManagerHelper/main.swift:217-236 | every inhibit write asks for the same state; CHIE is written iff present, CH0I iff present |
| Helper.NoAdapterKeysFails | BatteryManagerHelper/main.swift:217-236 | without CHIE and CH0I nothing is written and the reply is false |
| Helper.ChargingReply | BatteryManagerHelper/main.swift:188-215 | the reply is true iff some present charging key accepted the write |
| Helper.SmcHelperDelegate.constructor | BatteryManagerHelper/main.swift:48-60 | capabilities are probed only if the SMC opened, and are all false otherwise |
| Helper.SmcHelperDelegate.DetectCapabilities | BatteryManagerHelper/main.swift:69-95 | sets the flags from the readable keys |
| Helper.SmcHelperDelegate.CanReadKey | BatteryManagerHelper/main.swift:97-103 | true iff the key can be read |
| Helper.SmcHelperDelegate.WriteKey1Byte | BatteryManagerHelper/main.swift:107-121 | logs one 1-byte write; true iff the key accepts it |
| Helper.SmcHelperDelegate.WriteKey4Bytes | BatteryManagerHelper/main.swift:123-140 | logs one 4-byte `ui32` write; true iff the key accepts it |
| Helper.SmcHelperDelegate.Ping | BatteryManagerHelper/main.swift:153-155 | replies the connection flag |
| Helper.SmcHelperDelegate.GetVersion | BatteryManagerHelper/main.swift:157-159 | replies the helper version |
| Helper.SmcHelperDelegate.ChargeLevelReading | BatteryManagerHelper/main.swift:161-175 | byte 0 of BUIC if readable, else of BCLM, else 0; always 0 when disconnected |
| Helper.SmcHelperDelegate.ReadBatteryChargeLevel | BatteryManagerHelper/main.swift:161-175 | the loop with early return replies that reading |
| Helper.SmcHelperDelegate.Requested | BatteryManagerHelper/main.swift:163-248 | a setter makes its whole write list with a connection and no write without one, and then no reply can be true (the `guard smcConnected` of every request) |
| Helper.SmcHelperDelegate.SetBatteryChargeLimit | BatteryManagerHelper/main.swift:177-186 | writes BCLM verbatim when connected; true iff it was accepted |
| Helper.SmcHelperDelegate.SetChargingEnabled | BatteryManagerHelper/main.swift:188-215 | writes every present charging key when connected; true iff any write succeeded |
| Helper.SmcHelperDelegate.SetChargeInhibit | BatteryManagerHelper/main.swift:217-236 | writes every present inhibit key when connected; true iff any write succeeded |
| Helper.SmcHelperDelegate.SetForceCharging | BatteryManagerHelper/main.swift:238-244 | writes BFCL = 1/0 when connected; true iff it was accepted |
| Helper.SmcHelperDelegate.Temperatures | BatteryManagerHelper/main.swift:246-263 | positive readings only, none when disconnected |
| Helper.SmcHelperDelegate.ReadTemperatures | BatteryManagerHelper/main.swift:246-263 | the loop collects exactly the valid decoded TB0T, TB1T, TB2T readings, in order |
| Helper.DisconnectedHelper | BatteryManagerHelper/main.swift:163-248 | without a connection the level reads 0 and there are no temperatures; the charging, inhibit, BCLM and BFCL setters write nothing and the charging and inhibit setters reply false |
| BatteryViewModels.FormatMinutes | BatteryManager/ViewModels/BatteryViewModel.swift:49-57 | "Calculating..." for m ≤ 0, "<m/60>h <m%60>m" from an hour up, "<m>m" below |
| BatteryViewModels.ParseFormatMinutes | BatteryManager/ViewModels/BatteryViewModel.swift:49-57 | every positive duration reads back from its text |
| BatteryViewModels.FormatMinutesInjective | BatteryManager/ViewModels/BatteryViewModel.swift:49-57 | distinct positive durations give distinct texts |
| BatteryViewModels.PlaceholderIsNotAnEstimate | BatteryManager/ViewModels/BatteryViewModel.swift:50 | no positive duration is shown as the placeholder |
| BatteryViewModels.TimeRemainingString | BatteryManager/ViewModels/BatteryViewModel.swift:19-27 | time to full while charging and known, else time to empty if known, else "N/A" |

## Left out

- SMC access (IOKit open, read and write calls) is abstracted to the connection flag, the readable map and the writable set. Only the first two bytes of a read are modelled, since that is all the core uses.
- Timers and dispatch queues are not modelled: the control loop, the schedule timer, the SMC queue and the logger's queue. Main-thread hops are immediate. The re-evaluation that `setMode` and `applyChargeLimit` schedule on the main queue is a separate `SafeEvaluate` call.
- Clocks are parameters: `Date()` becomes an integer `now`, and `Calendar` becomes hour, minute and weekday. Timestamps take their clock fields as arguments.
- The logger is modelled as its in-memory buffer only: `log` takes the clock fields, and the global `appLog` forwarder is not modelled.
- XPC listener wiring, helper installation and the helper's file logging (`helperLog`, `trimLogFile`) are not modelled.
- The XPC-versus-direct connection fallback and `reconnect` are not modelled. The shown SMC wrapper has no such members.
- Persistence is not modelled:
  - loading and saving settings;
  - `loadSchedules` and `saveSchedules`.

  The schedule service's constructor takes the saved list as an argument, and the app state starts with the default settings.
- Schedule and settings identifiers (`UUID`) are integers.
- Floating-point metrics are not modelled: health, wattage, voltage and amperage strings, and the health description.
- The UI, Shortcuts intents and the two pass-through view models are not modelled. This includes the mode toggle in the app delegate (same mode → normal).
- The superseded prototype app files are not part of this model.
- Battery and clamshell registry reads are not modelled. Their values enter through the app state.
- `ChargingModes.DisplayName`, `ChargingModes.Description` and `ChargingModes.RawValue` are stated by lemmas about their results (injectivity and round trip), not by per-case contracts.
- Temperatures are `real` (the source's `Double`). Decoding a 16-bit raw value and dividing by 256 is exact in binary floating point, so nothing is lost. The heat threshold is likewise a `real`, and `Registers.Sp78AtLeast` relates it to whole degrees on the raw value.
- Controller.ChargingController.SetMode: the re-evaluation it schedules is not part of its contract (see the timers line above).
- Schedules.RepeatDaysString: requires every day to be non-negative. The field holds 1 to 7; in the source a negative day passes the bound check and traps on the name lookup, which the model does not represent.
