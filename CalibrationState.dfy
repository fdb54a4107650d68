/** The phases of a calibration cycle. */
module CalibrationStates {
  import Text

  /** A wall-clock instant (Swift `Date`), as seconds. */
  type Date = int

  datatype CalibrationState =
    | Idle
    | DischargingTo(percent: int)
    | ChargingTo100
    | Complete(date: Date)

  function DisplayName(s: CalibrationState): (name: string)
    ensures s.Idle? ==> name == "Ready"
    ensures s.Complete? ==> name == "Complete"
    ensures s.ChargingTo100? ==> name == "Charging to 100%"
    ensures s.DischargingTo? ==> name == "Discharging to " + Text.IntToString(s.percent) + "%"
  {
    match s
    case Idle => "Ready"
    case DischargingTo(percent) => "Discharging to " + Text.IntToString(percent) + "%"
    case ChargingTo100 => "Charging to 100%"
    case Complete(_) => "Complete"
  }

  /** A cycle is under way in the two middle phases and in no other. */
  function IsRunning(s: CalibrationState): (running: bool)
    ensures running <==> s.DischargingTo? || s.ChargingTo100?
  {
    match s
    case Idle => false
    case Complete(_) => false
    case DischargingTo(_) => true
    case ChargingTo100 => true
  }

  /** Different drain targets are told apart by their display names. */
  lemma DisplayNameDistinguishesTargets(p: int, q: int)
    requires DisplayName(DischargingTo(p)) == DisplayName(DischargingTo(q))
    ensures p == q
  {
    var prefix := "Discharging to ";
    var a, b := Text.IntToString(p), Text.IntToString(q);
    assert (prefix + a + "%")[|prefix|..|prefix| + |a|] == a;
    assert (prefix + b + "%")[|prefix|..|prefix| + |b|] == b;
    assert |a| == |b|;
    if p >= 0 && q >= 0 {
      Text.NatToStringInjective(p, q);
    } else if p < 0 && q < 0 {
      assert a[1..] == Text.NatToString(-p);
      assert b[1..] == Text.NatToString(-q);
      Text.NatToStringInjective(-p, -q);
    }
  }
}
