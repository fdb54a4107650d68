/**
 * The charging policy: one evaluation takes a snapshot of the shared state,
 * lets the heat override pre-empt everything, and otherwise dispatches on the
 * current mode, issuing register writes and sleep requests.
 */
module Controller {
  import opened Wrappers
  import opened Actions
  import opened ChargingModes
  import opened CalibrationStates
  import opened AppStates
  import opened SmcKeys
  import opened SmcServices
  import opened Thermal
  import opened PowerAssertions
  import opened Calibration
  import opened MagSafe

  /** `max(20, min(100, limit))`. */
  function Clamp(limit: int): (clamped: int)
    ensures 20 <= clamped <= 100
    ensures 20 <= limit <= 100 ==> clamped == limit
    ensures limit < 20 ==> clamped == 20
    ensures limit > 100 ==> clamped == 100
  {
    if limit < 20 then 20 else if limit > 100 then 100 else limit
  }

  lemma ClampIdempotent(limit: int)
    ensures Clamp(Clamp(limit)) == Clamp(limit)
  {
  }

  lemma ClampMonotone(a: int, b: int)
    requires a <= b
    ensures Clamp(a) <= Clamp(b)
  {
  }

  /** The values one evaluation reads from the shared state, all at once. */
  datatype Snapshot = Snapshot(
    level: int,
    limit: int,
    mode: ChargingMode,
    heatEnabled: bool,
    heatThreshold: real,
    sailingLow: int,
    sailingHigh: int,
    preventSleep: bool,
    fullyCharged: bool,
    chargeLimit: int)

  const SleepReason: string := "Charging to limit"

  /** Normal mode: at or above the limit stop and inhibit; below it resume, holding the machine awake if asked. */
  function NormalActions(level: int, limit: int, preventSleep: bool): seq<Action> {
    if level >= limit then [SetCharging(false), SetInhibit(true), AllowSleep]
    else [SetInhibit(false), SetCharging(true)] + (if preventSleep then [PreventSleep(SleepReason)] else [])
  }

  /** Top-up is finished once the battery is at 100% or reports fully charged. */
  predicate TopUpDone(level: int, fullyCharged: bool) {
    level >= 100 || fullyCharged
  }

  /** Top-up: ceiling to 100 and charge, every tick; once done, restore the ceiling for the configured limit. */
  function TopUpActions(level: int, fullyCharged: bool, chargeLimit: int): seq<Action> {
    [SetCeiling(100), SetCharging(true)] + (if TopUpDone(level, fullyCharged) then [SetCeiling(CeilingFor(chargeLimit))] else [])
  }

  /** Charging off and discharge forced. */
  const ForceDischargeActions: seq<Action> := [SetCharging(false), SetInhibit(true)]

  /** Sailing: charge below the band, force discharge above it, hold (off, not inhibited) inside it. */
  function SailingActions(level: int, low: int, high: int): seq<Action> {
    if level < low then [SetCharging(true)]
    else if level > high then ForceDischargeActions
    else [SetCharging(false), SetInhibit(false)]
  }

  /** The heat handler: charging off, nothing else. */
  const HeatActions: seq<Action> := [SetCharging(false)]

  /** What shutting down restores. */
  const RestoreDefaultsActions: seq<Action> := [SetCharging(true), SetInhibit(false), SetCeiling(100), AllowSleep]

  /** The actions of the mode handler for every mode except calibration, which is delegated. */
  function ModeActions(snap: Snapshot): seq<Action> {
    match snap.mode
    case Normal => NormalActions(snap.level, snap.limit, snap.preventSleep)
    case TopUp => TopUpActions(snap.level, snap.fullyCharged, snap.chargeLimit)
    case Sailing => SailingActions(snap.level, snap.sailingLow, snap.sailingHigh)
    case Discharge => ForceDischargeActions
    case Calibration => []
    case HeatProtection => HeatActions
  }

  /** The mode after a handler other than calibration: only a finished top-up changes it (to normal). */
  function ModeAfter(snap: Snapshot): ChargingMode {
    if snap.mode == TopUp && TopUpDone(snap.level, snap.fullyCharged) then Normal else snap.mode
  }

  /** The stored mode after a handler other than calibration, `current` being the mode before it. */
  function HandlerMode(snap: Snapshot, current: ChargingMode): ChargingMode {
    if snap.mode == TopUp && TopUpDone(snap.level, snap.fullyCharged) then Normal
    else if snap.mode == HeatProtection then HeatProtection
    else current
  }

  /** The mode after one evaluation that did not go through calibration. */
  function NextMode(snap: Snapshot, overheating: bool): ChargingMode {
    if overheating then HeatProtection else ModeAfter(snap)
  }

  /** `isChargingEnabled` after the log: each charging write that succeeded sets it, a failed one leaves it. */
  function EnabledAfter(enabled: bool, acts: seq<Action>, ok: bool): bool
    decreases |acts|
  {
    if acts == [] then enabled
    else EnabledAfter(if acts[0].SetCharging? && ok then acts[0].enabled else enabled, acts[1..], ok)
  }

  lemma {:induction false} EnabledAfterAppend(enabled: bool, a: seq<Action>, b: seq<Action>, ok: bool)
    ensures EnabledAfter(enabled, a + b, ok) == EnabledAfter(EnabledAfter(enabled, a, ok), b, ok)
    decreases |a|
  {
    if a == [] {
      assert a + b == b;
    } else {
      assert (a + b)[0] == a[0];
      assert (a + b)[1..] == a[1..] + b;
      EnabledAfterAppend(if a[0].SetCharging? && ok then a[0].enabled else enabled, a[1..], b, ok);
    }
  }

  /** The flag follows the last charging write when writes succeed, and never moves when they fail. */
  lemma {:induction false} EnabledAfterFailedWrites(enabled: bool, acts: seq<Action>)
    ensures EnabledAfter(enabled, acts, false) == enabled
    decreases |acts|
  {
    if acts != [] {
      EnabledAfterFailedWrites(enabled, acts[1..]);
    }
  }

  /** Only charging writes move the flag: a log without one leaves it where it was. */
  lemma {:induction false} EnabledAfterOnlyCharging(enabled: bool, acts: seq<Action>, ok: bool)
    requires forall i :: 0 <= i < |acts| ==> !acts[i].SetCharging?
    ensures EnabledAfter(enabled, acts, ok) == enabled
    decreases |acts|
  {
    if acts != [] {
      EnabledAfterOnlyCharging(enabled, acts[1..], ok);
    }
  }

  /** One sleep request's effect on the assertion. */
  function SleepStep(v: PowerView, a: Action, os: AssertionOutcome): PowerView {
    match a
    case AllowSleep => AllowSleepNext(v)
    case PreventSleep(reason) => PreventSleepNext(v, reason, os)
    case _ => v
  }

  /** Extending a log by one action extends each of its effects by that action's effect. */
  lemma FoldExtend(smc: SmcService, enabled: bool, v: PowerView, done: seq<Action>, a: Action, ok: bool, os: AssertionOutcome)
    ensures smc.Issued(done + [a]) == smc.Issued(done) + smc.Issued([a])
    ensures !IsRegisterAction(a) ==> smc.Issued([a]) == []
    ensures EnabledAfter(enabled, done + [a], ok) == (if a.SetCharging? && ok then a.enabled else EnabledAfter(enabled, done, ok))
    ensures SleepEffect(v, done + [a], os) == SleepStep(SleepEffect(v, done, os), a, os)
  {
    smc.IssuedAppend(done, [a]);
    assert [a][1..] == [];
    EnabledAfterAppend(enabled, done, [a], ok);
    assert [a][1..] == [];
    SleepEffectAppend(v, done, [a], os);
  }

  /** `FoldExtend` for the register writes and the charging flag alone. */
  lemma WriteExtend(smc: SmcService, enabled: bool, done: seq<Action>, a: Action, ok: bool)
    ensures smc.Issued(done + [a]) == smc.Issued(done) + smc.Issued([a])
    ensures EnabledAfter(enabled, done + [a], ok) == (if a.SetCharging? && ok then a.enabled else EnabledAfter(enabled, done, ok))
  {
    smc.IssuedAppend(done, [a]);
    assert [a][1..] == [];
    EnabledAfterAppend(enabled, done, [a], ok);
  }

  // ---- Properties of the policy ----

  /** Normal mode at or above the limit: off, inhibited, sleep allowed — and nothing that turns charging on. */
  lemma NormalAtOrAboveLimit(level: int, limit: int, preventSleep: bool)
    requires level >= limit
    ensures NormalActions(level, limit, preventSleep) == [SetCharging(false), SetInhibit(true), AllowSleep]
    ensures !EnablesCharging(NormalActions(level, limit, preventSleep))
  {
  }

  /** Normal mode below the limit: inhibit cleared before charging is enabled; a sleep assertion only when configured. */
  lemma NormalBelowLimit(level: int, limit: int, preventSleep: bool)
    requires level < limit
    ensures NormalActions(level, limit, preventSleep)[..2] == [SetInhibit(false), SetCharging(true)]
    ensures PreventSleep(SleepReason) in NormalActions(level, limit, preventSleep) <==> preventSleep
    ensures AllowSleep !in NormalActions(level, limit, preventSleep)
  {
  }

  /** The sailing bands; below the band charging is enabled and inhibit is not touched at all. */
  lemma SailingBands(level: int, low: int, high: int)
    ensures level < low ==> SailingActions(level, low, high) == [SetCharging(true)]
    ensures level < low ==> forall a :: a in SailingActions(level, low, high) ==> !a.SetInhibit?
    ensures low <= level <= high ==> SailingActions(level, low, high) == [SetCharging(false), SetInhibit(false)]
    ensures level >= low && level > high ==> SailingActions(level, low, high) == [SetCharging(false), SetInhibit(true)]
    ensures EnablesCharging(SailingActions(level, low, high)) <==> level < low
  {
  }

  /** Top-up writes ceiling 100 and enables charging every tick; finishing restores the mapped ceiling and returns to normal. */
  lemma TopUpEveryTick(snap: Snapshot)
    requires snap.mode == TopUp
    ensures ModeActions(snap)[..2] == [SetCeiling(100), SetCharging(true)]
    ensures TopUpDone(snap.level, snap.fullyCharged) <==> ModeAfter(snap) == Normal
    ensures TopUpDone(snap.level, snap.fullyCharged) ==> ModeActions(snap)[2..] == [SetCeiling(CeilingFor(snap.chargeLimit))]
    ensures !TopUpDone(snap.level, snap.fullyCharged) ==> |ModeActions(snap)| == 2 && ModeAfter(snap) == TopUp
  {
  }

  /** Discharge always forces discharge, whatever the level. */
  lemma DischargeAlwaysForces(snap: Snapshot)
    requires snap.mode == Discharge
    ensures ModeActions(snap) == [SetCharging(false), SetInhibit(true)] && ModeAfter(snap) == Discharge
  {
  }

  /** Every ceiling written by any handler, by calibration or by restore is 80 or 100. */
  lemma OnlyTwoCeilings(snap: Snapshot, s: CalibrationState, now: Date)
    ensures CeilingsValid(ModeActions(snap))
    ensures CeilingsValid(HeatActions)
    ensures CeilingsValid(RestoreDefaultsActions)
    ensures CeilingsValid(TickStep(s, snap.level, snap.fullyCharged, snap.chargeLimit, now).actions)
  {
    TickCeilingsValid(s, snap.level, snap.fullyCharged, snap.chargeLimit, now);
  }

  /** Heat protection is sticky: from that mode no evaluation leads anywhere else, hot or not. */
  lemma HeatProtectionIsSticky(snap: Snapshot, overheating: bool)
    requires snap.mode == HeatProtection
    ensures NextMode(snap, overheating) == HeatProtection
    ensures ModeActions(snap) == HeatActions
  {
  }

  /**
   * The modes a run of evaluations passes through, starting outside calibration (a calibration tick's
   * mode change belongs to the calibration service, not to this fold).
   */
  function ModeRun(mode: ChargingMode, steps: seq<(Snapshot, bool)>): (modes: seq<ChargingMode>)
    requires mode != Calibration
    ensures |modes| == |steps|
    ensures forall k :: 0 <= k < |modes| ==> modes[k] != Calibration
    decreases |steps|
  {
    if steps == [] then []
    else
      var next := NextMode(steps[0].0.(mode := mode), steps[0].1);
      [next] + ModeRun(next, steps[1..])
  }

  /** Once an override has put the app in heat protection, no later evaluation takes it out. */
  lemma {:induction false} HeatProtectionNeverReverts(steps: seq<(Snapshot, bool)>)
    ensures forall k :: 0 <= k < |steps| ==> ModeRun(HeatProtection, steps)[k] == HeatProtection
    decreases |steps|
  {
    if steps != [] {
      HeatProtectionIsSticky(steps[0].0.(mode := HeatProtection), steps[0].1);
      HeatProtectionNeverReverts(steps[1..]);
    }
  }

  class ChargingController {
    const appState: AppState
    const smc: SmcService
    const thermal: ThermalService?
    const calibration: CalibrationService?
    const power: PowerAssertionService?
    const led: MagSafeLEDService?

    /** The collaborators share the controller's state and SMC. */
    predicate Valid() {
      && (calibration != null ==> calibration.appState == appState && calibration.smc == smc)
      && (thermal != null ==> thermal.smc == smc)
      && (led != null ==> led.smc == smc)
    }

    constructor (appState: AppState, smc: SmcService, thermal: ThermalService?, calibration: CalibrationService?,
                 power: PowerAssertionService?, led: MagSafeLEDService?)
      requires calibration != null ==> calibration.appState == appState && calibration.smc == smc
      requires thermal != null ==> thermal.smc == smc
      requires led != null ==> led.smc == smc
      ensures Valid()
      ensures this.appState == appState && this.smc == smc && this.thermal == thermal
      ensures this.calibration == calibration && this.power == power && this.led == led
    {
      this.appState := appState;
      this.smc := smc;
      this.thermal := thermal;
      this.calibration := calibration;
      this.power := power;
      this.led := led;
    }

    /** The state of the power assertion (all clear when there is no power service). */
    function PowerState(): PowerView
      reads power
    {
      if power != null then power.View() else PowerView(false, 0, [])
    }

    /** The register writes of `acts` were issued and the charging flag followed them. */
    twostate predicate Wrote(acts: seq<Action>)
      reads smc, appState
    {
      && smc.writes == old(smc.writes) + smc.Issued(acts)
      && appState.isChargingEnabled == EnabledAfter(old(appState.isChargingEnabled), acts, smc.Accepts(ChargingControl))
    }

    /** `Wrote(acts)`, and the sleep requests of `acts` reached the power assertion, the OS answering `os`. */
    twostate predicate Performed(acts: seq<Action>, os: AssertionOutcome)
      reads smc, appState, power
    {
      && Wrote(acts)
      && (power != null ==> power.View() == SleepEffect(old(PowerState()), acts, os))
    }

    /**
     * An evaluation outside calibration, whose snapshot carries the stored mode, leaves the mode the pure
     * fold `NextMode` gives, so `ModeRun` and its lemmas describe a run of `EvaluateAndAct` calls.
     */
    twostate lemma EvaluatedMode(snap: Snapshot, now: Date, os: AssertionOutcome)
      requires snap.mode == old(appState.currentMode) && snap.mode != Calibration
      requires Evaluated(snap, now, os)
      ensures appState.currentMode == NextMode(snap, HeatOverride(snap))
    {
    }

    /** Whether the heat override fires for this snapshot. */
    predicate HeatOverride(snap: Snapshot) {
      snap.heatEnabled && thermal != null && Overheats(smc.BatteryTemperature(), snap.heatThreshold)
    }

    /** The calibration state is left as it was. */
    twostate predicate CalibrationKept()
      reads this, calibration
    {
      calibration != null ==> calibration.state == old(calibration.state)
    }

    /**
     * What one evaluation of `snap` did (`now` is the clock, `os` the answer to a
     * sleep-assertion request): the heat override pre-empts the mode handlers.
     */
    twostate predicate Evaluated(snap: Snapshot, now: Date, os: AssertionOutcome)
      reads this, smc, appState, power, calibration, CalibrationFrame()
    {
      if HeatOverride(snap) then
        && Performed(HeatActions, os)
        && appState.currentMode == HeatProtection
        && appState.settings == old(appState.settings)
        && CalibrationKept()
      else
        Dispatched(snap, now, os)
    }

    /** The objects the calibration tick reads. */
    function CalibrationFrame(): set<object>
      reads this, calibration
    {
      if calibration != null then {calibration.appState, calibration.smc} else {}
    }

    /**
     * What the mode handler for `snap` did. Calibration is delegated to the
     * calibration tick; every other mode performs its handler's actions and keeps
     * the stored mode, except that a finished top-up returns to normal and the
     * heat handler keeps heat protection.
     */
    twostate predicate Dispatched(snap: Snapshot, now: Date, os: AssertionOutcome)
      reads this, smc, appState, power, calibration, CalibrationFrame()
    {
      if snap.mode != Calibration then
        && Performed(ModeActions(snap), os)
        && appState.currentMode == HandlerMode(snap, old(appState.currentMode))
        && appState.settings == old(appState.settings)
        && CalibrationKept()
      else if calibration == null then
        && Performed([], os)
        && appState.currentMode == old(appState.currentMode)
        && appState.settings == old(appState.settings)
      else
        && calibration.Ticked(snap.level, now, old(appState.currentMode))
        && appState.isChargingEnabled == old(appState.isChargingEnabled)
        && (power != null ==> power.View() == old(power.View()))
    }

    function TakeSnapshot(): Snapshot
      reads appState
    {
      Snapshot(
        appState.batteryLevel, appState.chargeLimit, appState.currentMode,
        appState.settings.heatProtectionEnabled, appState.settings.heatProtectionThreshold,
        appState.settings.sailingLow, appState.settings.sailingHigh,
        appState.settings.preventSleepWhileCharging, appState.fullyCharged, appState.settings.chargeLimit)
    }

    method EnableCharging()
      modifies smc`writes, appState`isChargingEnabled
      ensures smc.writes == old(smc.writes) + smc.Issued([SetCharging(true)])
      ensures appState.isChargingEnabled == if smc.Accepts(ChargingControl) then true else old(appState.isChargingEnabled)
    {
      var success := smc.SetChargingEnabled(true);
      if success {
        appState.isChargingEnabled := true;
      }
    }

    method DisableCharging()
      modifies smc`writes, appState`isChargingEnabled
      ensures smc.writes == old(smc.writes) + smc.Issued([SetCharging(false)])
      ensures appState.isChargingEnabled == if smc.Accepts(ChargingControl) then false else old(appState.isChargingEnabled)
    {
      var success := smc.SetChargingEnabled(false);
      if success {
        appState.isChargingEnabled := false;
      }
    }

    /** Switch mode; the evaluation the source schedules right after is the next `SafeEvaluate`. */
    method SetMode(mode: ChargingMode)
      modifies appState`currentMode
      ensures appState.currentMode == mode
    {
      appState.currentMode := mode;
    }

    /**
     * Clamp the limit to [20, 100], write the 80/100 ceiling for it, and store the
     * clamped value as both the live and the saved limit. The evaluation the
     * source schedules afterwards is the next `SafeEvaluate`.
     */
    method ApplyChargeLimit(limit: int)
      modifies smc`writes, appState`chargeLimit, appState`settings
      ensures smc.writes == old(smc.writes) + smc.Issued([SetCeiling(CeilingFor(Clamp(limit)))])
      ensures appState.chargeLimit == Clamp(limit)
      ensures appState.settings == old(appState.settings).(chargeLimit := Clamp(limit))
    {
      var clamped := if 20 > (if 100 < limit then 100 else limit) then 20 else (if 100 < limit then 100 else limit);
      var bclmValue := if clamped <= 80 then 80 else 100;
      var _ := smc.SetBatteryChargeLimit(bclmValue);
      appState.chargeLimit := clamped;
      appState.settings := appState.settings.(chargeLimit := clamped);
    }

    method HandleNormalMode(level: int, limit: int, preventSleep: bool, os: AssertionOutcome)
      modifies smc`writes, appState`isChargingEnabled, power
      ensures Performed(NormalActions(level, limit, preventSleep), os)
    {
      if level >= limit {
        HoldAtLimit(os);
      } else {
        ChargeTowardLimit(preventSleep, os);
      }
    }

    /** The at-or-above-limit branch of the normal handler: charging off, inhibit on, then sleep allowed. */
    method HoldAtLimit(os: AssertionOutcome)
      modifies smc`writes, appState`isChargingEnabled, power
      ensures Performed([SetCharging(false), SetInhibit(true), AllowSleep], os)
    {
      ghost var e0, v0 := appState.isChargingEnabled, PowerState();
      ForceDischarge();
      if power != null {
        power.AllowSleep();
      }
      FoldExtend(smc, e0, v0, ForceDischargeActions, AllowSleep, smc.Accepts(ChargingControl), os);
      SleepEffectNoSleepActions(v0, ForceDischargeActions, os);
      assert ForceDischargeActions + [AllowSleep] == [SetCharging(false), SetInhibit(true), AllowSleep];
    }

    /** The below-limit branch of the normal handler: inhibit off, charging on, then sleep held off if asked. */
    method ChargeTowardLimit(preventSleep: bool, os: AssertionOutcome)
      modifies smc`writes, appState`isChargingEnabled, power
      ensures Performed([SetInhibit(false), SetCharging(true)] + (if preventSleep then [PreventSleep(SleepReason)] else []), os)
    {
      ghost var e0, v0 := appState.isChargingEnabled, PowerState();
      ghost var resume := [SetInhibit(false), SetCharging(true)];
      ReleaseAndCharge();
      SleepEffectNoSleepActions(v0, resume, os);
      if preventSleep {
        if power != null {
          power.PreventSleep(SleepReason, os);
        }
        FoldExtend(smc, e0, v0, resume, PreventSleep(SleepReason), smc.Accepts(ChargingControl), os);
      } else {
        assert resume + [] == resume;
      }
    }

    /** Inhibit off, then charging on. */
    method ReleaseAndCharge()
      modifies smc`writes, appState`isChargingEnabled
      ensures Wrote([SetInhibit(false), SetCharging(true)])
    {
      ghost var e0 := appState.isChargingEnabled;
      var _ := smc.SetChargeInhibit(false);
      EnableCharging();
      FoldExtend(smc, e0, PowerView(false, 0, []), [SetInhibit(false)], SetCharging(true), smc.Accepts(ChargingControl), Refused);
      assert [SetInhibit(false)] + [SetCharging(true)] == [SetInhibit(false), SetCharging(true)];
    }

    method HandleTopUp(level: int, fullyCharged: bool, chargeLimit: int)
      modifies smc`writes, appState`isChargingEnabled, appState`currentMode
      ensures Wrote(TopUpActions(level, fullyCharged, chargeLimit))
      ensures appState.currentMode == if TopUpDone(level, fullyCharged) then Normal else old(appState.currentMode)
    {
      ghost var w0, e0 := smc.writes, appState.isChargingEnabled;
      ChargeToFull();
      if level >= 100 || fullyCharged {
        var normalLimit := if chargeLimit <= 80 then 80 else 100;
        var _ := smc.SetBatteryChargeLimit(normalLimit);
        FoldExtend(smc, e0, PowerView(false, 0, []), [SetCeiling(100), SetCharging(true)], SetCeiling(CeilingFor(chargeLimit)), smc.Accepts(ChargingControl), Refused);
        assert TopUpActions(level, fullyCharged, chargeLimit) == [SetCeiling(100), SetCharging(true)] + [SetCeiling(CeilingFor(chargeLimit))];
        SetMode(Normal);
      } else {
        assert TopUpActions(level, fullyCharged, chargeLimit) == [SetCeiling(100), SetCharging(true)];
      }
    }

    /** Ceiling 100, then charging on. */
    method ChargeToFull()
      modifies smc`writes, appState`isChargingEnabled
      ensures Wrote([SetCeiling(100), SetCharging(true)])
    {
      ghost var e0 := appState.isChargingEnabled;
      var _ := smc.SetBatteryChargeLimit(100);
      EnableCharging();
      FoldExtend(smc, e0, PowerView(false, 0, []), [SetCeiling(100)], SetCharging(true), smc.Accepts(ChargingControl), Refused);
      EnabledAfterFailedWrites(e0, [SetCeiling(100)]);
      assert [SetCeiling(100)] + [SetCharging(true)] == [SetCeiling(100), SetCharging(true)];
    }

    method HandleSailingMode(level: int, sailingLow: int, sailingHigh: int)
      modifies smc`writes, appState`isChargingEnabled
      ensures Wrote(SailingActions(level, sailingLow, sailingHigh))
    {
      if level < sailingLow {
        EnableCharging();
        assert [SetCharging(true)][1..] == [];
      } else if level > sailingHigh {
        ForceDischarge();
      } else {
        ghost var e0 := appState.isChargingEnabled;
        DisableCharging();
        var _ := smc.SetChargeInhibit(false);
        WriteExtend(smc, e0, [SetCharging(false)], SetInhibit(false), smc.Accepts(ChargingControl));
        assert [SetCharging(false)][1..] == [];
        assert [SetCharging(false)] + [SetInhibit(false)] == [SetCharging(false), SetInhibit(false)];
      }
    }

    method HandleDischarge()
      modifies smc`writes, appState`isChargingEnabled
      ensures Wrote(ForceDischargeActions)
    {
      ForceDischarge();
    }

    method HandleCalibration(level: int, now: Date)
      requires Valid()
      modifies calibration, appState`currentMode, appState`settings, smc`writes
      ensures calibration == null ==> smc.writes == old(smc.writes) && appState.currentMode == old(appState.currentMode)
      ensures calibration == null ==> appState.settings == old(appState.settings)
      ensures calibration != null ==> calibration.Ticked(level, now, old(appState.currentMode))
    {
      if calibration != null {
        calibration.Tick(level, now);
      }
    }

    method HandleHeatProtection()
      modifies smc`writes, appState`isChargingEnabled, appState`currentMode
      ensures Wrote(HeatActions)
      ensures appState.currentMode == HeatProtection
    {
      DisableCharging();
      assert [SetCharging(false)][1..] == [];
      if appState.currentMode != HeatProtection {
        appState.currentMode := HeatProtection;
      }
    }

    method ForceDischarge()
      modifies smc`writes, appState`isChargingEnabled
      ensures Wrote(ForceDischargeActions)
    {
      ghost var e0 := appState.isChargingEnabled;
      DisableCharging();
      var _ := smc.SetChargeInhibit(true);
      WriteExtend(smc, e0, [SetCharging(false)], SetInhibit(true), smc.Accepts(ChargingControl));
      assert [SetCharging(false)][1..] == [];
      assert [SetCharging(false)] + [SetInhibit(true)] == ForceDischargeActions;
    }

    /** One evaluation on a snapshot: heat override first, then the mode handler, then the LED. */
    method EvaluateAndAct(snap: Snapshot, now: Date, os: AssertionOutcome)
      requires Valid()
      modifies smc`writes, appState`isChargingEnabled, appState`currentMode, appState`settings, power, calibration
      ensures Evaluated(snap, now, os)
    {
      if snap.heatEnabled && thermal != null {
        var hot := thermal.IsOverheating(snap.heatThreshold);
        if hot {
          OverrideForHeat(os);
          return;
        }
      }
      DispatchAndShow(snap, now, os);
    }

    /** The mode handler, then the LED update, which writes nothing. */
    method DispatchAndShow(snap: Snapshot, now: Date, os: AssertionOutcome)
      requires Valid()
      modifies smc`writes, appState`isChargingEnabled, appState`currentMode, appState`settings, power, calibration
      ensures Dispatched(snap, now, os)
    {
      DispatchMode(snap, now, os);
      if led != null {
        var _ := led.UpdateLED(appState);
      }
    }

    /** The heat override: the heat handler, which leaves the sleep assertion alone. */
    method OverrideForHeat(os: AssertionOutcome)
      modifies smc`writes, appState`isChargingEnabled, appState`currentMode
      ensures Performed(HeatActions, os)
      ensures appState.currentMode == HeatProtection
    {
      ghost var v0 := PowerState();
      HandleHeatProtection();
      SleepEffectNoSleepActions(v0, HeatActions, os);
    }

    /** The `switch` over the snapshot's mode. */
    method DispatchMode(snap: Snapshot, now: Date, os: AssertionOutcome)
      requires Valid()
      modifies smc`writes, appState`isChargingEnabled, appState`currentMode, appState`settings, power, calibration
      ensures Dispatched(snap, now, os)
    {
      if snap.mode == Calibration {
        HandleCalibration(snap.level, now);
      } else {
        DispatchPolicy(snap, os);
      }
    }

    /** The cases of the `switch` other than calibration: each performs its handler's actions. */
    method DispatchPolicy(snap: Snapshot, os: AssertionOutcome)
      requires snap.mode != Calibration
      modifies smc`writes, appState`isChargingEnabled, appState`currentMode, power
      ensures Performed(ModeActions(snap), os)
      ensures appState.currentMode == HandlerMode(snap, old(appState.currentMode))
    {
      ghost var v0 := PowerState();
      match snap.mode {
        case Normal =>
          HandleNormalMode(snap.level, snap.limit, snap.preventSleep, os);
        case TopUp =>
          HandleTopUp(snap.level, snap.fullyCharged, snap.chargeLimit);
          SleepEffectNoSleepActions(v0, ModeActions(snap), os);
        case Sailing =>
          HandleSailingMode(snap.level, snap.sailingLow, snap.sailingHigh);
          SleepEffectNoSleepActions(v0, ModeActions(snap), os);
        case Discharge =>
          HandleDischarge();
          SleepEffectNoSleepActions(v0, ModeActions(snap), os);
        case HeatProtection =>
          HandleHeatProtection();
          SleepEffectNoSleepActions(v0, ModeActions(snap), os);
      }
    }

    /**
     * Evaluate on a snapshot of the current state, but only once the first
     * battery reading has arrived; before that nothing at all happens.
     */
    method SafeEvaluate(now: Date, os: AssertionOutcome)
      requires Valid()
      modifies smc`writes, appState`isChargingEnabled, appState`currentMode, appState`settings, power, calibration
      ensures old(appState.hasInitialReading) ==> Evaluated(old(TakeSnapshot()), now, os)
      ensures !old(appState.hasInitialReading) ==>
        && smc.writes == old(smc.writes)
        && appState.isChargingEnabled == old(appState.isChargingEnabled)
        && appState.currentMode == old(appState.currentMode)
        && appState.settings == old(appState.settings)
        && PowerState() == old(PowerState())
        && CalibrationKept()
    {
      if !appState.hasInitialReading {
        return;
      }
      var snap := TakeSnapshot();
      EvaluateAndAct(snap, now, os);
    }

    /** Charging on, inhibit off, ceiling 100 and the sleep assertion released. */
    method RestoreDefaults()
      modifies smc`writes, appState`isChargingEnabled, power
      ensures Wrote(RestoreDefaultsActions)
      ensures power != null ==> power.View() == AllowSleepNext(old(power.View()))
    {
      ghost var e0, v0 := appState.isChargingEnabled, PowerState();
      ghost var registers := [SetCharging(true), SetInhibit(false), SetCeiling(100)];
      RestoreRegisters();
      if power != null {
        power.AllowSleep();
      }
      FoldExtend(smc, e0, v0, registers, AllowSleep, smc.Accepts(ChargingControl), Refused);
      assert registers + [AllowSleep] == RestoreDefaultsActions;
    }

    /** The register part of the restore: charging on, inhibit off, ceiling 100. */
    method RestoreRegisters()
      modifies smc`writes, appState`isChargingEnabled
      ensures Wrote([SetCharging(true), SetInhibit(false), SetCeiling(100)])
    {
      ghost var e0 := appState.isChargingEnabled;
      ghost var ok := smc.Accepts(ChargingControl);
      ghost var rest := [SetInhibit(false), SetCeiling(100)];
      EnableCharging();
      ClearInhibitFullCeiling();
      smc.IssuedAppend([SetCharging(true)], rest);
      assert [SetCharging(true)][1..] == [];
      EnabledAfterAppend(e0, [SetCharging(true)], rest, ok);
      EnabledAfterOnlyCharging(EnabledAfter(e0, [SetCharging(true)], ok), rest, ok);
      assert [SetCharging(true)] + rest == [SetCharging(true), SetInhibit(false), SetCeiling(100)];
    }

    /** Inhibit off, then ceiling 100. */
    method ClearInhibitFullCeiling()
      modifies smc`writes
      ensures smc.writes == old(smc.writes) + smc.Issued([SetInhibit(false), SetCeiling(100)])
    {
      var _ := smc.SetChargeInhibit(false);
      var _ := smc.SetBatteryChargeLimit(100);
      smc.IssuedAppend([SetInhibit(false)], [SetCeiling(100)]);
      assert [SetInhibit(false)] + [SetCeiling(100)] == [SetInhibit(false), SetCeiling(100)];
    }
  }
}
