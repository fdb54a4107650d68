/**
 * The schedule list, edited in place, and the edge-triggered override: when a
 * schedule becomes active its target is applied once, and when none is active
 * any more the saved limit is applied once.
 */
module ScheduleServices {
  import opened Wrappers
  import opened Actions
  import opened Schedules
  import opened AppStates
  import opened SmcServices
  import opened Controller

  /** The list without the entries carrying `id`, the rest in their order. */
  function RemoveId(list: seq<Schedule>, id: int): (rest: seq<Schedule>)
    ensures |rest| <= |list|
    ensures forall k :: 0 <= k < |rest| ==> rest[k].id != id && rest[k] in list
    ensures forall s :: s in list && s.id != id ==> s in rest
  {
    if list == [] then []
    else if list[0].id == id then RemoveId(list[1..], id)
    else [list[0]] + RemoveId(list[1..], id)
  }

  /** Removal works piecewise, so the survivors keep their relative order. */
  lemma {:induction false} RemoveIdAppend(a: seq<Schedule>, b: seq<Schedule>, id: int)
    ensures RemoveId(a + b, id) == RemoveId(a, id) + RemoveId(b, id)
    decreases |a|
  {
    if a == [] {
      assert a + b == b;
    } else {
      assert (a + b)[0] == a[0];
      assert (a + b)[1..] == a[1..] + b;
      RemoveIdAppend(a[1..], b, id);
    }
  }

  /** A list without the id is left as it is; in particular removing twice is removing once. */
  lemma {:induction false} RemoveIdAbsent(list: seq<Schedule>, id: int)
    requires forall k :: 0 <= k < |list| ==> list[k].id != id
    ensures RemoveId(list, id) == list
    decreases |list|
  {
    if list != [] {
      RemoveIdAbsent(list[1..], id);
    }
  }

  lemma RemoveIdIdempotent(list: seq<Schedule>, id: int)
    ensures RemoveId(RemoveId(list, id), id) == RemoveId(list, id)
  {
    RemoveIdAbsent(RemoveId(list, id), id);
  }

  /** The index of the first entry carrying `id`. */
  function FirstIndex(list: seq<Schedule>, id: int): (r: Option<nat>)
    ensures r.None? <==> forall k :: 0 <= k < |list| ==> list[k].id != id
    ensures r.Some? ==> r.value < |list| && list[r.value].id == id
    ensures r.Some? ==> forall j :: 0 <= j < r.value ==> list[j].id != id
  {
    if list == [] then None
    else if list[0].id == id then Some(0)
    else match FirstIndex(list[1..], id)
      case None => None
      case Some(k) => Some(k + 1)
  }

  /** The first schedule active at that time, in list order. */
  function FirstActive(list: seq<Schedule>, hour: int, minute: int, weekday: int): (r: Option<Schedule>)
    ensures r.None? <==> forall k :: 0 <= k < |list| ==> !IsActiveNow(list[k], hour, minute, weekday)
    ensures r.Some? ==>
      exists k :: (0 <= k < |list| && list[k] == r.value && IsActiveNow(list[k], hour, minute, weekday)
                   && forall j :: 0 <= j < k ==> !IsActiveNow(list[j], hour, minute, weekday))
  {
    if list == [] then None
    else if IsActiveNow(list[0], hour, minute, weekday) then Some(list[0])
    else
      var r := FirstActive(list[1..], hour, minute, weekday);
      if r.Some? then
        ghost var k :| 0 <= k < |list[1..]| && list[1..][k] == r.value && IsActiveNow(list[1..][k], hour, minute, weekday)
          && forall j :: 0 <= j < k ==> !IsActiveNow(list[1..][j], hour, minute, weekday);
        assert list[k + 1] == r.value;
        r
      else r
  }

  /** The override flag after an evaluation, and the limit it applies, if any. */
  datatype OverrideOutcome = OverrideOutcome(overriding: bool, apply: Option<int>)

  /** One evaluation: `active` is the first active schedule, `savedLimit` the limit in the settings. */
  function OverrideStep(overriding: bool, active: Option<Schedule>, savedLimit: int): OverrideOutcome {
    if active.Some? then
      if !overriding then OverrideOutcome(true, Some(active.value.targetPercent))
      else OverrideOutcome(true, None)
    else if overriding then OverrideOutcome(false, Some(savedLimit))
    else OverrideOutcome(false, None)
  }

  /** The edges: a limit is applied exactly when activity changes; the flag always records activity. */
  lemma OverrideEdges(overriding: bool, active: Option<Schedule>, savedLimit: int)
    ensures OverrideStep(overriding, active, savedLimit).overriding == active.Some?
    ensures OverrideStep(overriding, active, savedLimit).apply.Some? <==> overriding != active.Some?
    ensures active.Some? && !overriding ==> OverrideStep(overriding, active, savedLimit).apply == Some(active.value.targetPercent)
    ensures active.None? && overriding ==> OverrideStep(overriding, active, savedLimit).apply == Some(savedLimit)
  {
  }

  /**
   * The limits applied over a run of evaluations; an applied limit is also
   * saved (clamped) in the settings, as applying a limit does.
   */
  function OverrideRun(overriding: bool, savedLimit: int, actives: seq<Option<Schedule>>): (applied: seq<Option<int>>)
    ensures |applied| == |actives|
    decreases |actives|
  {
    if actives == [] then []
    else
      var out := OverrideStep(overriding, actives[0], savedLimit);
      var saved := if out.apply.Some? then Clamp(out.apply.value) else savedLimit;
      [out.apply] + OverrideRun(out.overriding, saved, actives[1..])
  }

  /** While some schedule stays active, the run applies its first schedule's target once and then nothing. */
  lemma {:induction false} AppliedOnceWhileActive(overriding: bool, savedLimit: int, actives: seq<Option<Schedule>>)
    requires forall k :: 0 <= k < |actives| ==> actives[k].Some?
    ensures var applied := OverrideRun(overriding, savedLimit, actives);
      && (forall k :: 1 <= k < |applied| ==> applied[k].None?)
      && (|applied| > 0 ==> applied[0] == if overriding then None else Some(actives[0].value.targetPercent))
    decreases |actives|
  {
    if actives != [] {
      var out := OverrideStep(overriding, actives[0], savedLimit);
      var saved := if out.apply.Some? then Clamp(out.apply.value) else savedLimit;
      AppliedOnceWhileActive(out.overriding, saved, actives[1..]);
    }
  }

  /**
   * As written, the falling edge does not restore the limit in force before the
   * schedule began: the rising edge saved the schedule's target, so the revert
   * applies the (clamped) target again.
   */
  lemma RevertReappliesTarget(savedLimit: int, s: Schedule)
    ensures OverrideRun(false, savedLimit, [Some(s), None]) == [Some(s.targetPercent), Some(Clamp(s.targetPercent))]
  {
    assert [Some(s), None][1..] == [None];
  }

  class ScheduleService {
    const appState: AppState
    const controller: ChargingController
    var schedules: seq<Schedule>
    var isOverriding: bool

    predicate Valid()
      reads this, controller
    {
      controller.appState == appState
    }

    /** `saved` is the list read back from storage (empty when there is none). */
    constructor (appState: AppState, controller: ChargingController, saved: seq<Schedule>)
      requires controller.appState == appState
      ensures Valid()
      ensures this.appState == appState && this.controller == controller
      ensures schedules == saved && !isOverriding
    {
      this.appState := appState;
      this.controller := controller;
      schedules := saved;
      isOverriding := false;
    }

    method AddSchedule(schedule: Schedule)
      modifies this`schedules
      ensures schedules == old(schedules) + [schedule]
    {
      schedules := schedules + [schedule];
    }

    method RemoveSchedule(id: int)
      modifies this`schedules
      ensures schedules == RemoveId(old(schedules), id)
    {
      schedules := RemoveId(schedules, id);
    }

    /** Sets `isEnabled` on the first entry with that id; nothing happens when there is none. */
    method ToggleSchedule(id: int, enabled: bool)
      modifies this`schedules
      ensures FirstIndex(old(schedules), id).None? ==> schedules == old(schedules)
      ensures FirstIndex(old(schedules), id).Some? ==>
        var k := FirstIndex(old(schedules), id).value;
        schedules == old(schedules)[k := old(schedules)[k].(isEnabled := enabled)]
    {
      var index := FirstIndex(schedules, id);
      if index.Some? {
        var k := index.value;
        schedules := schedules[k := schedules[k].(isEnabled := enabled)];
      }
    }

    /** One evaluation at `hour:minute` on `weekday`. */
    method Evaluate(hour: int, minute: int, weekday: int)
      requires Valid()
      modifies this`isOverriding, controller.smc`writes, appState`chargeLimit, appState`settings
      ensures var out := OverrideStep(old(isOverriding), FirstActive(schedules, hour, minute, weekday), old(appState.settings.chargeLimit));
        && isOverriding == out.overriding
        && (out.apply.None? ==>
              && controller.smc.writes == old(controller.smc.writes)
              && appState.chargeLimit == old(appState.chargeLimit)
              && appState.settings == old(appState.settings))
        && (out.apply.Some? ==>
              && controller.smc.writes == old(controller.smc.writes) + controller.smc.Issued([SetCeiling(CeilingFor(Clamp(out.apply.value)))])
              && appState.chargeLimit == Clamp(out.apply.value)
              && appState.settings == old(appState.settings).(chargeLimit := Clamp(out.apply.value)))
    {
      var activeSchedule := FirstActive(schedules, hour, minute, weekday);
      if activeSchedule.Some? {
        if !isOverriding {
          isOverriding := true;
          controller.ApplyChargeLimit(activeSchedule.value.targetPercent);
        }
      } else if isOverriding {
        isOverriding := false;
        controller.ApplyChargeLimit(appState.settings.chargeLimit);
      }
    }
  }
}
