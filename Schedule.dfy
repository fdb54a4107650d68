/** A time window, on chosen weekdays, during which a different charge limit applies. */
module Schedules {
  import opened Text

  /** Minutes in a day. */
  const MinutesPerDay: int := 1440

  /** A schedule; weekdays are numbered 1 (Sunday) to 7 (Saturday), and the id stands for the UUID. */
  datatype Schedule = Schedule(
    id: int,
    startHour: int,
    startMinute: int,
    endHour: int,
    endMinute: int,
    targetPercent: int,
    repeatDays: set<int>,
    isEnabled: bool)

  /** A clock reading within one day. */
  predicate ValidTime(hour: int, minute: int) {
    0 <= hour < 24 && 0 <= minute < 60
  }

  function Minutes(hour: int, minute: int): (m: int)
    ensures ValidTime(hour, minute) ==> 0 <= m < MinutesPerDay
  {
    hour * 60 + minute
  }

  /** An empty day set means any day. */
  predicate RunsOn(s: Schedule, weekday: int) {
    s.repeatDays == {} || weekday in s.repeatDays
  }

  /** Whether `s` is active at `hour:minute` on `weekday`; a window whose start is after its end runs overnight. */
  predicate IsActiveNow(s: Schedule, hour: int, minute: int, weekday: int) {
    if !s.isEnabled then false
    else if s.repeatDays != {} && weekday !in s.repeatDays then false
    else
      var current := Minutes(hour, minute);
      var start := Minutes(s.startHour, s.startMinute);
      var end := Minutes(s.endHour, s.endMinute);
      if start <= end then start <= current < end
      else current >= start || current < end
  }

  /** Minutes from `from` forward around the clock to `to`. */
  function Elapsed(from: int, to: int): (d: int)
    ensures 0 <= d < MinutesPerDay
  {
    (to - from) % MinutesPerDay
  }

  lemma DisabledNeverActive(s: Schedule, hour: int, minute: int, weekday: int)
    requires !s.isEnabled
    ensures !IsActiveNow(s, hour, minute, weekday)
  {
  }

  /** A non-empty day set that leaves out today makes the schedule inactive; an empty one ignores the day. */
  lemma WeekdayRule(s: Schedule, hour: int, minute: int, weekday: int, otherDay: int)
    ensures s.repeatDays != {} && weekday !in s.repeatDays ==> !IsActiveNow(s, hour, minute, weekday)
    ensures s.repeatDays == {} ==> IsActiveNow(s, hour, minute, weekday) == IsActiveNow(s, hour, minute, otherDay)
  {
  }

  /** Within one day, the minutes elapsed going forward from `from` to `to`. */
  lemma ElapsedWithinDay(from: int, to: int)
    requires 0 <= from < MinutesPerDay && 0 <= to < MinutesPerDay
    ensures Elapsed(from, to) == if from <= to then to - from else MinutesPerDay + to - from
  {
    if from <= to {
      assert 0 <= to - from < MinutesPerDay;
    } else {
      assert to - from == -1 * MinutesPerDay + (MinutesPerDay + to - from);
      assert 0 <= MinutesPerDay + to - from < MinutesPerDay;
    }
  }

  /** The circular-window test on minutes of the day agrees with the two-case window test. */
  lemma CircularWindow(start: int, current: int, end: int)
    requires 0 <= start < MinutesPerDay && 0 <= current < MinutesPerDay && 0 <= end < MinutesPerDay
    ensures Elapsed(start, current) < Elapsed(start, end) <==>
      if start <= end then start <= current < end else current >= start || current < end
  {
    ElapsedWithinDay(start, current);
    ElapsedWithinDay(start, end);
  }

  /**
   * For clock times within a day, a schedule is active exactly when it is
   * enabled, runs today, and the current minute lies in the half-open circular
   * window from start to end: fewer minutes have passed since the start than the
   * window lasts.
   */
  lemma ActiveIffInCircularWindow(s: Schedule, hour: int, minute: int, weekday: int)
    requires ValidTime(hour, minute) && ValidTime(s.startHour, s.startMinute) && ValidTime(s.endHour, s.endMinute)
    ensures IsActiveNow(s, hour, minute, weekday) <==>
      && s.isEnabled
      && RunsOn(s, weekday)
      && Elapsed(Minutes(s.startHour, s.startMinute), Minutes(hour, minute))
         < Elapsed(Minutes(s.startHour, s.startMinute), Minutes(s.endHour, s.endMinute))
  {
    CircularWindow(Minutes(s.startHour, s.startMinute), Minutes(hour, minute), Minutes(s.endHour, s.endMinute));
  }

  /** A window whose start equals its end is never active. */
  lemma EmptyWindowNeverActive(s: Schedule, hour: int, minute: int, weekday: int)
    requires Minutes(s.startHour, s.startMinute) == Minutes(s.endHour, s.endMinute)
    ensures !IsActiveNow(s, hour, minute, weekday)
  {
  }

  /** 23:00 to 07:00 every day: active at 00:30 and 06:59, inactive at 08:00. */
  lemma OvernightExample(id: int, target: int, weekday: int)
    ensures var s := Schedule(id, 23, 0, 7, 0, target, {}, true);
      && IsActiveNow(s, 0, 30, weekday)
      && IsActiveNow(s, 6, 59, weekday)
      && !IsActiveNow(s, 8, 0, weekday)
      && IsActiveNow(s, 23, 0, weekday)
      && !IsActiveNow(s, 7, 0, weekday)
  {
  }

  /** `"%02d:%02d"`. */
  function TimeString(hour: int, minute: int): string {
    Pad2(hour) + ":" + Pad2(minute)
  }

  function StartTimeString(s: Schedule): string {
    TimeString(s.startHour, s.startMinute)
  }

  function EndTimeString(s: Schedule): string {
    TimeString(s.endHour, s.endMinute)
  }

  /** A clock time prints as five characters "HH:MM" from which both fields read back. */
  lemma TimeStringRoundTrip(hour: int, minute: int)
    requires 0 <= hour < 100 && 0 <= minute < 100
    ensures var t := TimeString(hour, minute);
      && |t| == 5 && t[2] == ':'
      && AllDigits(t[..2]) && ParseDigits(t[..2]) == hour
      && AllDigits(t[3..]) && ParseDigits(t[3..]) == minute
  {
    var t := TimeString(hour, minute);
    assert t[..2] == Pad2(hour);
    assert t[3..] == Pad2(minute);
  }

  lemma TimeStringInjective(h1: int, m1: int, h2: int, m2: int)
    requires ValidTime(h1, m1) && ValidTime(h2, m2)
    requires TimeString(h1, m1) == TimeString(h2, m2)
    ensures h1 == h2 && m1 == m2
  {
    TimeStringRoundTrip(h1, m1);
    TimeStringRoundTrip(h2, m2);
  }

  /** Day names indexed by weekday; index 0 is the empty name. */
  const DayNames: seq<string> := ["", "Sun", "Mon", "Tue", "Wed", "Thu", "Fri", "Sat"]

  /** The days of `days` in `[from, 8)`, ascending: what survives sorting and dropping indices past the name table. */
  function NamedDaysFrom(days: set<int>, from: nat): (ds: seq<int>)
    requires from <= |DayNames|
    ensures forall i :: 0 <= i < |ds| ==> from <= ds[i] < |DayNames| && ds[i] in days
    ensures forall i, j :: 0 <= i < j < |ds| ==> ds[i] < ds[j]
    ensures forall d :: from <= d < |DayNames| && d in days ==> d in ds
    decreases |DayNames| - from
  {
    if from == |DayNames| then []
    else if from in days then [from] + NamedDaysFrom(days, from + 1)
    else NamedDaysFrom(days, from + 1)
  }

  function NamesOf(ds: seq<int>): (names: seq<string>)
    requires forall i :: 0 <= i < |ds| ==> 0 <= ds[i] < |DayNames|
    ensures |names| == |ds| && forall i :: 0 <= i < |ds| ==> names[i] == DayNames[ds[i]]
  {
    if ds == [] then [] else [DayNames[ds[0]]] + NamesOf(ds[1..])
  }

  /**
   * "Every day" for seven days, "Once" for none, otherwise the names of the days
   * in ascending order joined with ", " (days past 7 have no name and are dropped).
   * A negative day would index out of the name table, so none may be present.
   */
  function RepeatDaysString(days: set<int>): string
    requires forall d :: d in days ==> d >= 0
  {
    if |days| == 7 then "Every day"
    else if days == {} then "Once"
    else Join(NamesOf(NamedDaysFrom(days, 0)), ", ")
  }

  /**
   * All seven days read "Every day", none reads "Once"; any other set of real
   * weekdays reads as the names of exactly its days, in ascending order.
   */
  lemma RepeatDaysListsDays(days: set<int>)
    requires forall d :: d in days ==> 1 <= d <= 7
    ensures |days| == 7 ==> RepeatDaysString(days) == "Every day"
    ensures days == {} ==> RepeatDaysString(days) == "Once"
    ensures days != {} && |days| != 7 ==> var ds := NamedDaysFrom(days, 0);
      && RepeatDaysString(days) == Join(NamesOf(ds), ", ")
      && (forall d :: d in days <==> d in ds)
      && (forall i, j :: 0 <= i < j < |ds| ==> ds[i] < ds[j])
  {
  }
}
