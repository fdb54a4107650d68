/** The six charging policies the controller can be in. */
module ChargingModes {
  import opened Wrappers

  datatype ChargingMode = Normal | TopUp | Sailing | Discharge | Calibration | HeatProtection

  /** `ChargingMode.allCases`, in declaration order. */
  const AllModes: seq<ChargingMode> := [Normal, TopUp, Sailing, Discharge, Calibration, HeatProtection]

  /** The persisted raw value: the Swift case name. */
  function RawValue(m: ChargingMode): string {
    match m
    case Normal => "normal"
    case TopUp => "topUp"
    case Sailing => "sailing"
    case Discharge => "discharge"
    case Calibration => "calibration"
    case HeatProtection => "heatProtection"
  }

  /** Decoding a persisted raw value (`ChargingMode(rawValue:)`). */
  function FromRawValue(raw: string): (m: Option<ChargingMode>)
    ensures m.Some? ==> RawValue(m.value) == raw
  {
    if raw == "normal" then Some(Normal)
    else if raw == "topUp" then Some(TopUp)
    else if raw == "sailing" then Some(Sailing)
    else if raw == "discharge" then Some(Discharge)
    else if raw == "calibration" then Some(Calibration)
    else if raw == "heatProtection" then Some(HeatProtection)
    else None
  }

  function DisplayName(m: ChargingMode): string {
    match m
    case Normal => "Normal"
    case TopUp => "Top Up"
    case Sailing => "Sailing"
    case Discharge => "Discharge"
    case Calibration => "Calibration"
    case HeatProtection => "Heat Protection"
  }

  function Description(m: ChargingMode): string {
    match m
    case Normal => "Charge to limit and stop"
    case TopUp => "Temporarily charge to 100%"
    case Sailing => "Maintain charge within a range"
    case Discharge => "Drain battery on AC power"
    case Calibration => "Full charge cycle for calibration"
    case HeatProtection => "Reduced charging due to high temperature"
  }

  /** The SF Symbol name shown for the mode. */
  function SystemImage(m: ChargingMode): (name: string)
    ensures m == TopUp ==> name == "battery.100percent.bolt"
    ensures m == HeatProtection ==> name == "thermometer.sun.fill"
  {
    match m
    case Normal => "battery.75percent"
    case TopUp => "battery.100percent.bolt"
    case Sailing => "wind"
    case Discharge => "battery.25percent"
    case Calibration => "arrow.triangle.2.circlepath"
    case HeatProtection => "thermometer.sun.fill"
  }

  /** Six modes, each listed once, in the declared order. */
  lemma AllModesEnumerates(m: ChargingMode)
    ensures |AllModes| == 6 && m in AllModes
    ensures forall i, j :: 0 <= i < j < |AllModes| ==> AllModes[i] != AllModes[j]
  {
  }

  /** A persisted mode always reads back as itself, so raw values are distinct. */
  lemma RawValueRoundTrip(m: ChargingMode)
    ensures FromRawValue(RawValue(m)) == Some(m)
  {
  }

  lemma RawValueInjective(a: ChargingMode, b: ChargingMode)
    requires RawValue(a) == RawValue(b)
    ensures a == b
  {
    RawValueRoundTrip(a);
    RawValueRoundTrip(b);
  }

  /** No two modes share a symbol. */
  lemma SystemImageInjective(a: ChargingMode, b: ChargingMode)
    requires SystemImage(a) == SystemImage(b)
    ensures a == b
  {
  }

  /** No two modes share a display name. */
  lemma DisplayNameInjective(a: ChargingMode, b: ChargingMode)
    requires DisplayName(a) == DisplayName(b)
    ensures a == b
  {
  }
}
