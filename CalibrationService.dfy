/**
 * The calibration cycle: drain to a target, charge to 100%, then complete.
 * Each tick also issues the register writes for the current phase.
 */
module Calibration {
  import opened Wrappers
  import opened Actions
  import opened ChargingModes
  import opened CalibrationStates
  import opened AppStates
  import opened SmcServices

  /** The drain target when none is given. */
  const DefaultDrainTarget: int := 15

  /** The phase a tick ends in and the register actions it issues, in order. */
  datatype TickOutcome = TickOutcome(next: CalibrationState, actions: seq<Action>)

  /** Whether the battery counts as full for the final phase. */
  predicate ReachedFull(level: int, fullyCharged: bool) {
    level >= 100 || fullyCharged
  }

  /** Whether this tick finishes the cycle. */
  predicate Completes(s: CalibrationState, level: int, fullyCharged: bool) {
    s.ChargingTo100? && ReachedFull(level, fullyCharged)
  }

  /** Every draining tick: charging off, adapter inhibited. */
  const DrainActions: seq<Action> := [SetCharging(false), SetInhibit(true)]
  /** Leaving the drain: inhibit off, ceiling 100, charging on. */
  const ResumeActions: seq<Action> := [SetInhibit(false), SetCeiling(100), SetCharging(true)]
  /** Every tick of the final phase: ceiling 100, charging on. */
  const ChargeActions: seq<Action> := [SetCeiling(100), SetCharging(true)]

  /** One `tick(currentLevel:)` on the phase alone. */
  function TickStep(s: CalibrationState, level: int, fullyCharged: bool, settingsLimit: int, now: Date): TickOutcome {
    match s
    case Idle => TickOutcome(s, [])
    case Complete(_) => TickOutcome(s, [])
    case DischargingTo(target) =>
      if level <= target then TickOutcome(ChargingTo100, DrainActions + ResumeActions)
      else TickOutcome(s, DrainActions)
    case ChargingTo100 =>
      if ReachedFull(level, fullyCharged) then
        TickOutcome(Complete(now), ChargeActions + [SetCeiling(CeilingFor(settingsLimit))])
      else
        TickOutcome(s, ChargeActions)
  }

  /** The order of the phases: a cycle only moves forward through them. */
  function Phase(s: CalibrationState): nat {
    match s
    case Idle => 0
    case DischargingTo(_) => 1
    case ChargingTo100 => 2
    case Complete(_) => 3
  }

  /** Idle and complete are at rest: a tick there changes nothing and writes nothing. */
  lemma TickAtRest(s: CalibrationState, level: int, fullyCharged: bool, settingsLimit: int, now: Date)
    requires s.Idle? || s.Complete?
    ensures TickStep(s, level, fullyCharged, settingsLimit, now) == TickOutcome(s, [])
  {
  }

  /**
   * A tick moves at most one phase forward and never leaves the rest states;
   * from draining the only successor is charging to 100%.
   */
  lemma TickMovesForward(s: CalibrationState, level: int, fullyCharged: bool, settingsLimit: int, now: Date)
    ensures var next := TickStep(s, level, fullyCharged, settingsLimit, now).next;
      (next == s || Phase(next) == Phase(s) + 1) &&
      (s.DischargingTo? ==> next == s || next == ChargingTo100) &&
      (s.DischargingTo? ==> !next.Complete?) &&
      (next.Complete? && !s.Complete? ==> s.ChargingTo100? && next == Complete(now))
  {
  }

  /** While draining, each tick turns charging off and inhibits; reaching the target re-enables in the stated order. */
  lemma DrainingTickActions(target: int, level: int, fullyCharged: bool, settingsLimit: int, now: Date)
    ensures var out := TickStep(DischargingTo(target), level, fullyCharged, settingsLimit, now);
      out.actions[..2] == [SetCharging(false), SetInhibit(true)] &&
      (level <= target <==> out.next == ChargingTo100) &&
      (level <= target ==> out.actions[2..] == [SetInhibit(false), SetCeiling(100), SetCharging(true)]) &&
      (level > target ==> |out.actions| == 2)
  {
  }

  /** Every ceiling a tick writes is 80 or 100; on completion the last one follows the configured limit. */
  lemma TickCeilingsValid(s: CalibrationState, level: int, fullyCharged: bool, settingsLimit: int, now: Date)
    ensures CeilingsValid(TickStep(s, level, fullyCharged, settingsLimit, now).actions)
    ensures Completes(s, level, fullyCharged) ==>
      var acts := TickStep(s, level, fullyCharged, settingsLimit, now).actions;
      acts[|acts| - 1] == SetCeiling(if settingsLimit <= 80 then 80 else 100)
  {
  }

  /** One tick's input: the level read, the full flag, the configured limit and the time. */
  datatype TickInput = TickInput(level: int, fullyCharged: bool, settingsLimit: int, now: Date)

  /** The phases a run of ticks passes through, starting after the first tick. */
  function Run(s: CalibrationState, inputs: seq<TickInput>): (trace: seq<CalibrationState>)
    ensures |trace| == |inputs|
    decreases |inputs|
  {
    if inputs == [] then []
    else
      var i := inputs[0];
      var next := TickStep(s, i.level, i.fullyCharged, i.settingsLimit, i.now).next;
      [next] + Run(next, inputs[1..])
  }

  /** Every phase of a run is at or after where it started, and idle stays idle. */
  lemma {:induction false} RunNeverGoesBack(s: CalibrationState, inputs: seq<TickInput>)
    ensures forall k :: 0 <= k < |inputs| ==> Phase(Run(s, inputs)[k]) >= Phase(s)
    ensures s.Idle? ==> forall k :: 0 <= k < |inputs| ==> Run(s, inputs)[k] == Idle
    decreases |inputs|
  {
    if inputs != [] {
      var i := inputs[0];
      var next := TickStep(s, i.level, i.fullyCharged, i.settingsLimit, i.now).next;
      TickMovesForward(s, i.level, i.fullyCharged, i.settingsLimit, i.now);
      RunNeverGoesBack(next, inputs[1..]);
    }
  }

  /** A cycle that starts by draining reaches completion only after a tick that left it charging to 100%. */
  lemma {:induction false} RunNeverSkipsCharging(s: CalibrationState, inputs: seq<TickInput>, k: nat)
    requires s.DischargingTo?
    requires k < |inputs| && Run(s, inputs)[k].Complete?
    ensures exists j :: 0 <= j < k && Run(s, inputs)[j] == ChargingTo100
    decreases |inputs|
  {
    var i := inputs[0];
    var next := TickStep(s, i.level, i.fullyCharged, i.settingsLimit, i.now).next;
    var trace := Run(s, inputs);
    assert trace == [next] + Run(next, inputs[1..]);
    TickMovesForward(s, i.level, i.fullyCharged, i.settingsLimit, i.now);
    if next == ChargingTo100 {
      assert k > 0;
      assert trace[0] == ChargingTo100;
    } else {
      assert next == s && k > 0;
      RunNeverSkipsCharging(next, inputs[1..], k - 1);
      var j :| 0 <= j < k - 1 && Run(next, inputs[1..])[j] == ChargingTo100;
      assert trace[j + 1] == ChargingTo100;
    }
  }

  class CalibrationService {
    const appState: AppState
    const smc: SmcService
    var state: CalibrationState

    constructor (appState: AppState, smc: SmcService)
      ensures this.appState == appState && this.smc == smc && state == Idle
    {
      this.appState := appState;
      this.smc := smc;
      state := Idle;
    }

    /** Start a cycle from any phase: drain to `drainTo` and switch the app to calibration mode. */
    method StartCalibration(drainTo: int := DefaultDrainTarget)
      modifies this`state, appState`currentMode
      ensures state == DischargingTo(drainTo) && appState.currentMode == Calibration
    {
      state := DischargingTo(drainTo);
      appState.currentMode := Calibration;
    }

    /** Abandon the cycle from any phase: back to idle, charging on, inhibit off, mode normal. */
    method CancelCalibration()
      modifies this`state, appState`currentMode, smc`writes
      ensures state == Idle && appState.currentMode == Normal
      ensures smc.writes == old(smc.writes) + smc.Issued([SetCharging(true), SetInhibit(false)])
    {
      state := Idle;
      var _ := smc.SetChargingEnabled(true);
      var _ := smc.SetChargeInhibit(false);
      smc.IssuedAppend([SetCharging(true)], [SetInhibit(false)]);
      appState.currentMode := Normal;
    }

    /** The effect of one tick, with the app in `modeBefore` when it started. */
    twostate predicate Ticked(level: int, now: Date, modeBefore: ChargingMode)
      reads this, appState, smc
    {
      var out := TickStep(old(state), level, old(appState.fullyCharged), old(appState.settings.chargeLimit), now);
      && state == out.next
      && smc.writes == old(smc.writes) + smc.Issued(out.actions)
      && (if Completes(old(state), level, old(appState.fullyCharged)) then
            appState.currentMode == Normal
            && appState.settings == old(appState.settings).(lastCalibrationDate := Some(now))
          else
            appState.currentMode == modeBefore && appState.settings == old(appState.settings))
    }

    method Tick(currentLevel: int, now: Date)
      modifies this`state, appState`currentMode, appState`settings, smc`writes
      ensures Ticked(currentLevel, now, old(appState.currentMode))
    {
      match state
      case Idle =>
        return;
      case Complete(_) =>
        return;
      case DischargingTo(target) =>
        TickDraining(target, currentLevel);
      case ChargingTo100 =>
        TickCharging(currentLevel, now);
    }

    method TickDraining(target: int, currentLevel: int)
      requires state == DischargingTo(target)
      modifies this`state, smc`writes
      ensures smc.writes == old(smc.writes) + smc.Issued(TickStep(old(state), currentLevel, false, 0, 0).actions)
      ensures state == TickStep(old(state), currentLevel, false, 0, 0).next
    {
      Drain();
      if currentLevel <= target {
        state := ChargingTo100;
        Resume();
        smc.IssuedAppend(DrainActions, ResumeActions);
      }
    }

    method TickCharging(currentLevel: int, now: Date)
      requires state == ChargingTo100
      modifies this`state, appState`currentMode, appState`settings, smc`writes
      ensures Ticked(currentLevel, now, old(appState.currentMode))
    {
      ChargeToFull();
      if currentLevel >= 100 || appState.fullyCharged {
        state := Complete(now);
        appState.settings := appState.settings.(lastCalibrationDate := Some(now));
        appState.currentMode := Normal;
        var normalLimit: int := if appState.settings.chargeLimit <= 80 then 80 else 100;
        var _ := smc.SetBatteryChargeLimit(normalLimit);
        smc.IssuedAppend(ChargeActions, [SetCeiling(CeilingFor(old(appState.settings.chargeLimit)))]);
      }
    }

    /** Charging off, then the adapter inhibited. */
    method Drain()
      modifies smc`writes
      ensures smc.writes == old(smc.writes) + smc.Issued(DrainActions)
    {
      var _ := smc.SetChargingEnabled(false);
      var _ := smc.SetChargeInhibit(true);
      smc.IssuedAppend([SetCharging(false)], [SetInhibit(true)]);
      assert [SetCharging(false)] + [SetInhibit(true)] == DrainActions;
    }

    /** Inhibit off, ceiling 100, then charging on. */
    method Resume()
      modifies smc`writes
      ensures smc.writes == old(smc.writes) + smc.Issued(ResumeActions)
    {
      var _ := smc.SetChargeInhibit(false);
      var _ := smc.SetBatteryChargeLimit(100);
      smc.IssuedAppend([SetInhibit(false)], [SetCeiling(100)]);
      var _ := smc.SetChargingEnabled(true);
      smc.IssuedAppend([SetInhibit(false), SetCeiling(100)], [SetCharging(true)]);
      assert [SetInhibit(false), SetCeiling(100)] + [SetCharging(true)] == ResumeActions;
    }

    /** Ceiling 100, then charging on. */
    method ChargeToFull()
      modifies smc`writes
      ensures smc.writes == old(smc.writes) + smc.Issued(ChargeActions)
    {
      var _ := smc.SetBatteryChargeLimit(100);
      var _ := smc.SetChargingEnabled(true);
      smc.IssuedAppend([SetCeiling(100)], [SetCharging(true)]);
      assert [SetCeiling(100)] + [SetCharging(true)] == ChargeActions;
    }
  }
}
