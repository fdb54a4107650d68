/** The four-character SMC register keys the app addresses by name. */
module SmcKeys {
  import opened Wrappers

  datatype SmcKey =
    | BatteryChargeLevelMax   // charge ceiling
    | ChargingControl         // charging on/off
    | ChargingControl2        // secondary charging control
    | ChargeInhibit           // force discharge on AC
    | BatteryForceCharging
    | Temperature0
    | Temperature1
    | Temperature2
    | AdapterConnected
    | AdapterWattage

  /** Every key, in declaration order. */
  const AllKeys: seq<SmcKey> := [
    BatteryChargeLevelMax, ChargingControl, ChargingControl2, ChargeInhibit, BatteryForceCharging,
    Temperature0, Temperature1, Temperature2, AdapterConnected, AdapterWattage
  ]

  /** The enum's raw value: the register's name on the SMC. */
  function RawValue(k: SmcKey): (name: string)
    ensures |name| == 4
  {
    match k
    case BatteryChargeLevelMax => "BCLM"
    case ChargingControl => "CH0B"
    case ChargingControl2 => "CH0C"
    case ChargeInhibit => "CH0I"
    case BatteryForceCharging => "BFCL"
    case Temperature0 => "TB0T"
    case Temperature1 => "TB1T"
    case Temperature2 => "TB2T"
    case AdapterConnected => "BBIN"
    case AdapterWattage => "PDTR"
  }

  /** The code handed to the SMC: the raw value, always exactly four characters. */
  function FourCharCode(k: SmcKey): (code: string)
    ensures |code| == 4 && code == RawValue(k)
  {
    RawValue(k)
  }

  /** `SmcKey(rawValue:)`: the key with that name, if any. */
  function FromRawValue(name: string): (k: Option<SmcKey>)
    ensures k.Some? ==> RawValue(k.value) == name
  {
    if name == "BCLM" then Some(BatteryChargeLevelMax)
    else if name == "CH0B" then Some(ChargingControl)
    else if name == "CH0C" then Some(ChargingControl2)
    else if name == "CH0I" then Some(ChargeInhibit)
    else if name == "BFCL" then Some(BatteryForceCharging)
    else if name == "TB0T" then Some(Temperature0)
    else if name == "TB1T" then Some(Temperature1)
    else if name == "TB2T" then Some(Temperature2)
    else if name == "BBIN" then Some(AdapterConnected)
    else if name == "PDTR" then Some(AdapterWattage)
    else None
  }

  /** Every key's name reads back as that key, so no two keys share a name. */
  lemma FromRawValueRoundTrip(k: SmcKey)
    ensures FromRawValue(RawValue(k)) == Some(k)
  {
  }

  lemma RawValueInjective(a: SmcKey, b: SmcKey)
    requires RawValue(a) == RawValue(b)
    ensures a == b
  {
    FromRawValueRoundTrip(a);
    FromRawValueRoundTrip(b);
  }

  /** `AllKeys` lists each key exactly once. */
  lemma AllKeysComplete(k: SmcKey)
    ensures k in AllKeys
    ensures forall i, j :: 0 <= i < j < |AllKeys| ==> AllKeys[i] != AllKeys[j]
  {
  }
}
