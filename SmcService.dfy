/**
 * The app's own SMC wrapper. The hardware behind it is an oracle: whether the
 * connection opened, which keys can be read (and their bytes), and which keys
 * accept writes. Every write the wrapper actually hands to the SMC is logged.
 */
module SmcServices {
  import opened Wrappers
  import opened Registers
  import opened Temperatures
  import opened SmcKeys
  import opened Actions

  /** One `SMCWriteKey` call: the key, the data type, the size and `bytes.0`. */
  datatype RegisterWrite = RegisterWrite(key: SmcKey, dataType: string, size: nat, byte0: Byte)

  /** The single-byte write a register action becomes; sleep requests are not register writes. */
  function Encode(a: Action): (w: Option<RegisterWrite>)
    ensures w.Some? <==> IsRegisterAction(a)
    ensures w.Some? ==> w.value.dataType == "ui8" && w.value.size == 1
  {
    match a
    case SetCharging(enabled) => Some(RegisterWrite(ChargingControl, "ui8", 1, if enabled then 0 else 2))
    case SetInhibit(inhibit) => Some(RegisterWrite(ChargeInhibit, "ui8", 1, if inhibit then 1 else 0))
    case SetCeiling(ceiling) => Some(RegisterWrite(BatteryChargeLevelMax, "ui8", 1, ceiling))
    case SetForceCharging(force) => Some(RegisterWrite(BatteryForceCharging, "ui8", 1, if force then 1 else 0))
    case AllowSleep => None
    case PreventSleep(_) => None
  }

  /** Reading a logged write back as the action that produced it. */
  function Decode(w: RegisterWrite): Option<Action> {
    if w.dataType != "ui8" || w.size != 1 then None
    else match w.key
      case ChargingControl =>
        if w.byte0 == 0 then Some(SetCharging(true)) else if w.byte0 == 2 then Some(SetCharging(false)) else None
      case ChargeInhibit =>
        if w.byte0 == 1 then Some(SetInhibit(true)) else if w.byte0 == 0 then Some(SetInhibit(false)) else None
      case BatteryChargeLevelMax => Some(SetCeiling(w.byte0))
      case BatteryForceCharging =>
        if w.byte0 == 1 then Some(SetForceCharging(true)) else if w.byte0 == 0 then Some(SetForceCharging(false)) else None
      case _ => None
  }

  /** The encoding loses nothing: every register action is recovered from its write. */
  lemma DecodeEncode(a: Action)
    requires IsRegisterAction(a)
    ensures Decode(Encode(a).value) == Some(a)
  {
  }

  /** Charging is switched through CH0B alone (0 = on, 2 = off); CH0C is never written. */
  lemma ChargingUsesCH0BOnly(enabled: bool)
    ensures Encode(SetCharging(enabled)).value.key == ChargingControl
    ensures Encode(SetCharging(enabled)).value.key != ChargingControl2
    ensures Encode(SetCharging(enabled)).value.byte0 == (if enabled then 0 else 2)
  {
  }

  /** The writes a log of actions becomes, in order. */
  function EncodeAll(acts: seq<Action>): (ws: seq<RegisterWrite>)
    ensures |ws| <= |acts|
  {
    if acts == [] then []
    else
      match Encode(acts[0])
      case Some(w) => [w] + EncodeAll(acts[1..])
      case None => EncodeAll(acts[1..])
  }

  lemma {:induction false} EncodeAllAppend(a: seq<Action>, b: seq<Action>)
    ensures EncodeAll(a + b) == EncodeAll(a) + EncodeAll(b)
    decreases |a|
  {
    if a == [] {
      assert a + b == b;
    } else {
      assert (a + b)[0] == a[0];
      assert (a + b)[1..] == a[1..] + b;
      EncodeAllAppend(a[1..], b);
    }
  }

  /** Decoding the writes of a log gives back its register actions, in order. */
  lemma {:induction false} DecodeEncodeAll(acts: seq<Action>)
    ensures forall i :: 0 <= i < |EncodeAll(acts)| ==> Decode(EncodeAll(acts)[i]).Some?
    ensures DecodeAll(EncodeAll(acts)) == RegisterActions(acts)
    decreases |acts|
  {
    if acts != [] {
      DecodeEncodeAll(acts[1..]);
      if IsRegisterAction(acts[0]) {
        DecodeEncode(acts[0]);
        assert ([Encode(acts[0]).value] + EncodeAll(acts[1..]))[1..] == EncodeAll(acts[1..]);
      }
    }
  }

  function DecodeAll(ws: seq<RegisterWrite>): seq<Action> {
    if ws == [] then []
    else
      match Decode(ws[0])
      case Some(a) => [a] + DecodeAll(ws[1..])
      case None => DecodeAll(ws[1..])
  }

  /** The register actions of a log, in order (sleep requests dropped). */
  function RegisterActions(acts: seq<Action>): (rs: seq<Action>)
    ensures forall a :: a in rs <==> a in acts && IsRegisterAction(a)
  {
    if acts == [] then []
    else if IsRegisterAction(acts[0]) then [acts[0]] + RegisterActions(acts[1..])
    else RegisterActions(acts[1..])
  }

  class SmcService {
    /** Whether `SMCOpen` succeeded; fixed for the service's lifetime. */
    const isConnected: bool
    /** Keys whose `SMCReadKey` succeeds, with the bytes it returns. */
    const readable: map<SmcKey, SmcVal>
    /** Keys whose `SMCWriteKey` succeeds. */
    const writable: set<SmcKey>
    /** Every `SMCWriteKey` call made so far, in order. */
    var writes: seq<RegisterWrite>

    constructor (didOpen: bool, readable: map<SmcKey, SmcVal>, writable: set<SmcKey>)
      ensures isConnected == didOpen && this.readable == readable && this.writable == writable
      ensures writes == []
    {
      isConnected := didOpen;
      this.readable := readable;
      this.writable := writable;
      writes := [];
    }

    /** What `readKey` returns for a key: nothing at all without a connection. */
    function Read(k: SmcKey): (v: Option<SmcVal>)
      ensures !isConnected ==> v == None
      ensures v.Some? <==> isConnected && k in readable
    {
      if isConnected && k in readable then Some(readable[k]) else None
    }

    /** Whether a write to `k` reports success. */
    predicate Accepts(k: SmcKey) {
      isConnected && k in writable
    }

    /** The SMC writes a log of actions causes: none at all when disconnected. */
    function Issued(acts: seq<Action>): (ws: seq<RegisterWrite>)
      ensures !isConnected ==> ws == []
      ensures isConnected ==> ws == EncodeAll(acts)
    {
      if isConnected then EncodeAll(acts) else []
    }

    lemma IssuedAppend(a: seq<Action>, b: seq<Action>)
      ensures Issued(a + b) == Issued(a) + Issued(b)
    {
      EncodeAllAppend(a, b);
    }

    method ReadKey(k: SmcKey) returns (v: Option<SmcVal>)
      ensures v == Read(k)
      ensures !isConnected ==> v.None?
    {
      if !isConnected {
        return None;
      }
      if k in readable {
        v := Some(readable[k]);
      } else {
        v := None;
      }
    }

    method WriteKey(k: SmcKey, dataType: string, size: nat, byte0: Byte) returns (ok: bool)
      modifies this`writes
      ensures !isConnected ==> writes == old(writes) && !ok
      ensures isConnected ==> writes == old(writes) + [RegisterWrite(k, dataType, size, byte0)]
      ensures ok == Accepts(k)
    {
      if !isConnected {
        return false;
      }
      writes := writes + [RegisterWrite(k, dataType, size, byte0)];
      ok := k in writable;
    }

    /** `bytes.0` of BCLM, or nothing if that read fails. */
    method ReadBatteryChargeLevel() returns (level: Option<Byte>)
      ensures level.Some? <==> isConnected && BatteryChargeLevelMax in readable
      ensures level.Some? ==> level.value == readable[BatteryChargeLevelMax].byte0
    {
      var v := ReadKey(BatteryChargeLevelMax);
      match v
      case None => level := None;
      case Some(val) => level := Some(val.byte0);
    }

    method SetBatteryChargeLimit(limit: Byte) returns (ok: bool)
      modifies this`writes
      ensures writes == old(writes) + Issued([SetCeiling(limit)])
      ensures isConnected ==> writes == old(writes) + [RegisterWrite(BatteryChargeLevelMax, "ui8", 1, limit)]
      ensures ok == Accepts(BatteryChargeLevelMax)
    {
      ok := WriteKey(BatteryChargeLevelMax, "ui8", 1, limit);
    }

    method SetChargingEnabled(enabled: bool) returns (ok: bool)
      modifies this`writes
      ensures writes == old(writes) + Issued([SetCharging(enabled)])
      ensures isConnected ==> writes == old(writes) + [RegisterWrite(ChargingControl, "ui8", 1, if enabled then 0 else 2)]
      ensures ok == Accepts(ChargingControl)
    {
      ok := WriteKey(ChargingControl, "ui8", 1, if enabled then 0 else 2);
    }

    method SetChargeInhibit(inhibit: bool) returns (ok: bool)
      modifies this`writes
      ensures writes == old(writes) + Issued([SetInhibit(inhibit)])
      ensures isConnected ==> writes == old(writes) + [RegisterWrite(ChargeInhibit, "ui8", 1, if inhibit then 1 else 0)]
      ensures ok == Accepts(ChargeInhibit)
    {
      ok := WriteKey(ChargeInhibit, "ui8", 1, if inhibit then 1 else 0);
    }

    method SetForceCharging(force: bool) returns (ok: bool)
      modifies this`writes
      ensures writes == old(writes) + Issued([Action.SetForceCharging(force)])
      ensures isConnected ==> writes == old(writes) + [RegisterWrite(BatteryForceCharging, "ui8", 1, if force then 1 else 0)]
      ensures ok == Accepts(BatteryForceCharging)
    {
      ok := WriteKey(BatteryForceCharging, "ui8", 1, if force then 1 else 0);
    }

    /** The three battery sensors, in the order they are tried. */
    static const TemperatureKeys: seq<SmcKey> := [Temperature0, Temperature1, Temperature2]

    /** What reading each battery sensor gives, in order. */
    function TemperatureReads(): (samples: seq<Option<SmcVal>>)
      ensures |samples| == 3
      ensures forall i :: 0 <= i < 3 ==> samples[i] == Read(TemperatureKeys[i])
    {
      [Read(Temperature0), Read(Temperature1), Read(Temperature2)]
    }

    /** The highest valid battery temperature in degrees, or nothing if no sensor gives one. */
    function BatteryTemperature(): Option<real> {
      MaxTemperature(ValidTemperatures(TemperatureReads()))
    }

    method ReadBatteryTemperature() returns (maxTemp: Option<real>)
      ensures maxTemp == BatteryTemperature()
    {
      var keys := TemperatureKeys;
      ghost var samples := TemperatureReads();
      maxTemp := None;
      var i := 0;
      while i < |keys|
        invariant 0 <= i <= |keys|
        invariant maxTemp == MaxTemperature(ValidTemperatures(samples[..i]))
      {
        var v := ReadKey(keys[i]);
        assert samples[..i + 1][..i] == samples[..i];
        assert ValidTemperatures(samples[..i + 1][..i]) == ValidTemperatures(samples[..i]);
        if v.Some? {
          var temp := Sp78(v.value);
          if temp > 0.0 {
            assert ValidTemperatures(samples[..i + 1]) == ValidTemperatures(samples[..i]) + [temp];
            match maxTemp
            case Some(current) =>
              maxTemp := Some(if current >= temp then current else temp);
            case None =>
              maxTemp := Some(temp);
          }
        }
        i := i + 1;
      }
      assert samples[..3] == samples;
    }
  }

  /** With no valid reading there is no maximum; otherwise the maximum is one of the valid readings. */
  lemma BatteryTemperatureIsMax(smc: SmcService)
    ensures smc.BatteryTemperature().None? <==> ValidTemperatures(smc.TemperatureReads()) == []
    ensures smc.BatteryTemperature().Some? ==>
      var m := smc.BatteryTemperature().value;
      m > 0.0 &&
      (exists i :: 0 <= i < 3 && smc.Read(SmcService.TemperatureKeys[i]).Some? && Sp78(smc.Read(SmcService.TemperatureKeys[i]).value) == m) &&
      (forall i :: 0 <= i < 3 && smc.Read(SmcService.TemperatureKeys[i]).Some? && Sp78(smc.Read(SmcService.TemperatureKeys[i]).value) > 0.0 ==>
         Sp78(smc.Read(SmcService.TemperatureKeys[i]).value) <= m)
  {
    var samples := smc.TemperatureReads();
    var temps := ValidTemperatures(samples);
    if smc.BatteryTemperature().Some? {
      var m := smc.BatteryTemperature().value;
      assert m in temps;
      forall i | 0 <= i < 3 && samples[i].Some? && Sp78(samples[i].value) > 0.0
        ensures Sp78(samples[i].value) <= m
      {
        assert Sp78(samples[i].value) in temps;
      }
    }
  }

  /** Without a connection no sensor is read and there is no temperature. */
  lemma DisconnectedHasNoTemperature(smc: SmcService)
    requires !smc.isConnected
    ensures smc.BatteryTemperature() == None
  {
    assert smc.TemperatureReads() == [None, None, None];
    assert ValidTemperatures(smc.TemperatureReads()[..2]) == [];
  }
}
