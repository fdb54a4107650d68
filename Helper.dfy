/**
 * The privileged helper's register policy. It probes which keys exist once,
 * then on every request writes every key it found and reports success when any
 * write succeeded. Keys here are plain four-character strings, since the helper
 * also speaks to keys the app itself never names.
 */
module Helper {
  import opened Wrappers
  import opened Registers
  import opened Temperatures

  const HelperVersion: string := "2.3.0"

  /** One `SMCWriteKey` call: key, data type and the bytes written. */
  datatype HelperWrite = HelperWrite(key: string, dataType: string, bytes: seq<Byte>)

  /** The capability flags, as detected when the connection opened. */
  datatype Capabilities = Capabilities(useTahoeCharging: bool, useTahoeAdapter: bool, hasCH0B: bool, hasCH0I: bool)

  const NoCapabilities: Capabilities := Capabilities(false, false, false, false)

  /** The flags from the set of readable keys; CH0C's presence only affects the log. */
  function Detect(readable: set<string>): (caps: Capabilities)
    ensures caps.useTahoeCharging <==> "CHTE" in readable
    ensures caps.useTahoeAdapter <==> "CHIE" in readable
    ensures caps.hasCH0B <==> "CH0B" in readable
    ensures caps.hasCH0I <==> "CH0I" in readable
  {
    Capabilities("CHTE" in readable, "CHIE" in readable, "CH0B" in readable, "CH0I" in readable)
  }

  lemma DetectIgnoresCH0C(readable: set<string>)
    ensures Detect(readable + {"CH0C"}) == Detect(readable - {"CH0C"})
  {
  }

  function Write1(key: string, value: Byte): HelperWrite {
    HelperWrite(key, "ui8", [value])
  }

  /** The writes `setChargingEnabled` makes: CHTE (four bytes) if present, then CH0B and CH0C if CH0B is present. */
  function ChargingWrites(caps: Capabilities, enabled: bool): seq<HelperWrite> {
    (if caps.useTahoeCharging then [HelperWrite("CHTE", "ui32", if enabled then [0, 0, 0, 0] else [1, 0, 0, 0])] else [])
    + (if caps.hasCH0B then [Write1("CH0B", if enabled then 0x00 else 0x02), Write1("CH0C", if enabled then 0x00 else 0x02)] else [])
  }

  /** The writes `setChargeInhibit` makes: CHIE if present, then CH0I if present. */
  function InhibitWrites(caps: Capabilities, inhibit: bool): seq<HelperWrite> {
    (if caps.useTahoeAdapter then [Write1("CHIE", if inhibit then 0x08 else 0x00)] else [])
    + (if caps.hasCH0I then [Write1("CH0I", if inhibit then 0x01 else 0x00)] else [])
  }

  /** The reply of a request whose writes were `ws`: true iff at least one of them succeeded. */
  predicate AnySucceeded(ws: seq<HelperWrite>, writable: set<string>) {
    exists i :: 0 <= i < |ws| && ws[i].key in writable
  }

  /** What a charging-key write asks for: `Some(true)` for enable, `Some(false)` for disable. */
  function ChargingRequested(w: HelperWrite): Option<bool> {
    if w.key == "CHTE" && w.dataType == "ui32" && w.bytes == [0, 0, 0, 0] then Some(true)
    else if w.key == "CHTE" && w.dataType == "ui32" && w.bytes == [1, 0, 0, 0] then Some(false)
    else if (w.key == "CH0B" || w.key == "CH0C") && w.dataType == "ui8" && w.bytes == [0x00] then Some(true)
    else if (w.key == "CH0B" || w.key == "CH0C") && w.dataType == "ui8" && w.bytes == [0x02] then Some(false)
    else None
  }

  /** What an adapter-key write asks for: `Some(true)` to inhibit, `Some(false)` to clear. */
  function InhibitRequested(w: HelperWrite): Option<bool> {
    if w.key == "CHIE" && w.dataType == "ui8" && w.bytes == [0x08] then Some(true)
    else if w.key == "CHIE" && w.dataType == "ui8" && w.bytes == [0x00] then Some(false)
    else if w.key == "CH0I" && w.dataType == "ui8" && w.bytes == [0x01] then Some(true)
    else if w.key == "CH0I" && w.dataType == "ui8" && w.bytes == [0x00] then Some(false)
    else None
  }

  /** Every charging write requests exactly the state asked for, on exactly the keys detected. */
  lemma ChargingWritesAgree(caps: Capabilities, enabled: bool)
    ensures forall w :: w in ChargingWrites(caps, enabled) ==> ChargingRequested(w) == Some(enabled)
    ensures (exists w :: w in ChargingWrites(caps, enabled) && w.key == "CHTE") <==> caps.useTahoeCharging
    ensures (exists w :: w in ChargingWrites(caps, enabled) && w.key == "CH0B") <==> caps.hasCH0B
    ensures (exists w :: w in ChargingWrites(caps, enabled) && w.key == "CH0C") <==> caps.hasCH0B
    ensures |ChargingWrites(caps, enabled)| == (if caps.useTahoeCharging then 1 else 0) + (if caps.hasCH0B then 2 else 0)
  {
    var ws := ChargingWrites(caps, enabled);
    var chte := HelperWrite("CHTE", "ui32", if enabled then [0, 0, 0, 0] else [1, 0, 0, 0]);
    var ch0b := Write1("CH0B", if enabled then 0x00 else 0x02);
    var ch0c := Write1("CH0C", if enabled then 0x00 else 0x02);
    if caps.useTahoeCharging {
      assert chte in ws;
    }
    if caps.hasCH0B {
      assert ch0b in ws && ch0c in ws;
    }
  }

  /** Every adapter write requests exactly the state asked for, on exactly the keys detected. */
  lemma InhibitWritesAgree(caps: Capabilities, inhibit: bool)
    ensures forall w :: w in InhibitWrites(caps, inhibit) ==> InhibitRequested(w) == Some(inhibit)
    ensures (exists w :: w in InhibitWrites(caps, inhibit) && w.key == "CHIE") <==> caps.useTahoeAdapter
    ensures (exists w :: w in InhibitWrites(caps, inhibit) && w.key == "CH0I") <==> caps.hasCH0I
  {
    var ws := InhibitWrites(caps, inhibit);
    if caps.useTahoeAdapter {
      assert Write1("CHIE", if inhibit then 0x08 else 0x00) in ws;
    }
    if caps.hasCH0I {
      assert Write1("CH0I", if inhibit then 0x01 else 0x00) in ws;
    }
  }

  /** With neither adapter key present nothing is written and the reply is false. */
  lemma NoAdapterKeysFails(caps: Capabilities, inhibit: bool, writable: set<string>)
    requires !caps.useTahoeAdapter && !caps.hasCH0I
    ensures InhibitWrites(caps, inhibit) == [] && !AnySucceeded(InhibitWrites(caps, inhibit), writable)
  {
  }

  /** The charging reply succeeds iff one of the written keys accepts writes. */
  lemma ChargingReply(caps: Capabilities, enabled: bool, writable: set<string>)
    ensures AnySucceeded(ChargingWrites(caps, enabled), writable) <==>
      (caps.useTahoeCharging && "CHTE" in writable) || (caps.hasCH0B && ("CH0B" in writable || "CH0C" in writable))
  {
    ChargingWritesAgree(caps, enabled);
    var ws := ChargingWrites(caps, enabled);
    if caps.useTahoeCharging && "CHTE" in writable {
      assert ws[0].key == "CHTE";
    }
    if caps.hasCH0B && "CH0B" in writable {
      assert ws[|ws| - 2].key == "CH0B";
    }
    if caps.hasCH0B && "CH0C" in writable {
      assert ws[|ws| - 1].key == "CH0C";
    }
  }

  const TemperatureKeys: seq<string> := ["TB0T", "TB1T", "TB2T"]
  const ChargeLevelKeys: seq<string> := ["BUIC", "BCLM"]

  class SmcHelperDelegate {
    /** Whether `SMCOpen` succeeded. */
    const smcConnected: bool
    /** Keys whose `SMCReadKey` succeeds, with their first two bytes. */
    const readable: map<string, SmcVal>
    /** Keys whose `SMCWriteKey` succeeds. */
    const writable: set<string>
    var useTahoeCharging: bool
    var useTahoeAdapter: bool
    var hasCH0B: bool
    var hasCH0I: bool
    /** Every `SMCWriteKey` call made so far, in order. */
    var writes: seq<HelperWrite>

    function Caps(): Capabilities
      reads this
    {
      Capabilities(useTahoeCharging, useTahoeAdapter, hasCH0B, hasCH0I)
    }

    /** Capabilities are probed only when the connection opened; otherwise every flag stays false. */
    constructor (didOpen: bool, readable: map<string, SmcVal>, writable: set<string>)
      ensures smcConnected == didOpen && this.readable == readable && this.writable == writable
      ensures Caps() == if didOpen then Detect(readable.Keys) else NoCapabilities
      ensures writes == []
    {
      smcConnected := didOpen;
      this.readable := readable;
      this.writable := writable;
      useTahoeCharging := false;
      useTahoeAdapter := false;
      hasCH0B := false;
      hasCH0I := false;
      writes := [];
      new;
      if didOpen {
        DetectCapabilities();
      }
    }

    method DetectCapabilities()
      requires Caps() == NoCapabilities
      modifies this`useTahoeCharging, this`useTahoeAdapter, this`hasCH0B, this`hasCH0I
      ensures Caps() == Detect(readable.Keys)
    {
      hasCH0B := CanReadKey("CH0B");
      var hasCH0C := CanReadKey("CH0C");
      var hasCHTE := CanReadKey("CHTE");
      hasCH0I := CanReadKey("CH0I");
      var hasCHIE := CanReadKey("CHIE");
      if hasCHTE {
        useTahoeCharging := true;
      } else if hasCH0B && hasCH0C {
        useTahoeCharging := false;
      }
      if hasCHIE {
        useTahoeAdapter := true;
      } else if hasCH0I {
        useTahoeAdapter := false;
      }
    }

    method CanReadKey(key: string) returns (success: bool)
      ensures success <==> key in readable
    {
      success := key in readable;
    }

    method WriteKey1Byte(key: string, value: Byte) returns (success: bool)
      modifies this`writes
      ensures writes == old(writes) + [Write1(key, value)]
      ensures success <==> key in writable
    {
      writes := writes + [Write1(key, value)];
      success := key in writable;
    }

    method WriteKey4Bytes(key: string, b0: Byte, b1: Byte, b2: Byte, b3: Byte) returns (success: bool)
      modifies this`writes
      ensures writes == old(writes) + [HelperWrite(key, "ui32", [b0, b1, b2, b3])]
      ensures success <==> key in writable
    {
      writes := writes + [HelperWrite(key, "ui32", [b0, b1, b2, b3])];
      success := key in writable;
    }

    method Ping() returns (connected: bool)
      ensures connected == smcConnected
    {
      connected := smcConnected;
    }

    method GetVersion() returns (version: string)
      ensures version == HelperVersion
    {
      version := HelperVersion;
    }

    /** Byte 0 of BUIC, else of BCLM, else 0; always 0 without a connection. */
    function ChargeLevelReading(): (level: Byte)
      reads this
      ensures !smcConnected ==> level == 0
      ensures smcConnected && "BUIC" in readable ==> level == readable["BUIC"].byte0
      ensures smcConnected && "BUIC" !in readable && "BCLM" in readable ==> level == readable["BCLM"].byte0
      ensures "BUIC" !in readable && "BCLM" !in readable ==> level == 0
    {
      if !smcConnected then 0
      else if "BUIC" in readable then readable["BUIC"].byte0
      else if "BCLM" in readable then readable["BCLM"].byte0
      else 0
    }

    method ReadBatteryChargeLevel() returns (level: Byte)
      ensures level == ChargeLevelReading()
    {
      if !smcConnected {
        return 0;
      }
      var keys := ChargeLevelKeys;
      assert keys == ["BUIC", "BCLM"];
      var i := 0;
      while i < |keys|
        invariant 0 <= i <= |keys|
        invariant forall j :: 0 <= j < i ==> keys[j] !in readable
      {
        var key := keys[i];
        if key in readable {
          assert i == 1 ==> keys[0] !in readable;
          return readable[key].byte0;
        }
        i := i + 1;
      }
      assert keys[0] !in readable && keys[1] !in readable;
      return 0;
    }

    /** The writes a request for `ws` makes: all of them with a connection, none without one. */
    function Requested(ws: seq<HelperWrite>): (made: seq<HelperWrite>)
      reads this
      ensures smcConnected ==> made == ws
      ensures !smcConnected ==> made == [] && !AnySucceeded(made, writable)
    {
      if smcConnected then ws else []
    }

    method SetBatteryChargeLimit(limit: Byte) returns (success: bool)
      modifies this`writes
      ensures writes == old(writes) + Requested([Write1("BCLM", limit)])
      ensures success <==> AnySucceeded(Requested([Write1("BCLM", limit)]), writable)
      ensures success <==> smcConnected && "BCLM" in writable
    {
      if !smcConnected {
        return false;
      }
      success := WriteKey1Byte("BCLM", limit);
      assert [Write1("BCLM", limit)][0].key == "BCLM";
    }

    /** Writes every detected charging key; replies whether any write succeeded. */
    method SetChargingEnabled(enabled: bool) returns (anySuccess: bool)
      modifies this`writes
      ensures writes == old(writes) + Requested(ChargingWrites(Caps(), enabled))
      ensures anySuccess <==> AnySucceeded(Requested(ChargingWrites(Caps(), enabled)), writable)
    {
      if !smcConnected {
        return false;
      }
      ChargingReply(Caps(), enabled, writable);
      anySuccess := false;
      if useTahoeCharging {
        var s: bool;
        if enabled {
          s := WriteKey4Bytes("CHTE", 0x00, 0x00, 0x00, 0x00);
        } else {
          s := WriteKey4Bytes("CHTE", 0x01, 0x00, 0x00, 0x00);
        }
        if s {
          anySuccess := true;
        }
      }
      if hasCH0B {
        var value: Byte := if enabled then 0x00 else 0x02;
        var s1 := WriteKey1Byte("CH0B", value);
        var s2 := WriteKey1Byte("CH0C", value);
        if s1 || s2 {
          anySuccess := true;
        }
      }
    }

    /** Writes every detected adapter key; replies whether any write succeeded. */
    method SetChargeInhibit(inhibit: bool) returns (anySuccess: bool)
      modifies this`writes
      ensures writes == old(writes) + Requested(InhibitWrites(Caps(), inhibit))
      ensures anySuccess <==> AnySucceeded(Requested(InhibitWrites(Caps(), inhibit)), writable)
    {
      if !smcConnected {
        return false;
      }
      ghost var ws := InhibitWrites(Caps(), inhibit);
      anySuccess := false;
      if useTahoeAdapter {
        var value: Byte := if inhibit then 0x08 else 0x00;
        var s := WriteKey1Byte("CHIE", value);
        if s {
          anySuccess := true;
          assert ws[0].key == "CHIE";
        }
      }
      if hasCH0I {
        var value: Byte := if inhibit then 0x01 else 0x00;
        var s := WriteKey1Byte("CH0I", value);
        if s {
          anySuccess := true;
          assert ws[|ws| - 1].key == "CH0I";
        }
      }
    }

    method SetForceCharging(force: bool) returns (success: bool)
      modifies this`writes
      ensures writes == old(writes) + Requested([Write1("BFCL", if force then 1 else 0)])
      ensures success <==> AnySucceeded(Requested([Write1("BFCL", if force then 1 else 0)]), writable)
      ensures success <==> smcConnected && "BFCL" in writable
    {
      if !smcConnected {
        return false;
      }
      success := WriteKey1Byte("BFCL", if force then 1 else 0);
      assert [Write1("BFCL", if force then 1 else 0)][0].key == "BFCL";
    }

    /** What reading a key returns. */
    function Read(key: string): Option<SmcVal>
      reads this
    {
      if key in readable then Some(readable[key]) else None
    }

    /** The valid battery temperatures in sensor order; none without a connection. */
    function Temperatures(): (temps: seq<real>)
      reads this
      ensures !smcConnected ==> temps == []
      ensures forall t :: t in temps ==> t > 0.0
    {
      if !smcConnected then [] else ValidTemperatures([Read("TB0T"), Read("TB1T"), Read("TB2T")])
    }

    method ReadTemperatures() returns (temps: seq<real>)
      ensures temps == Temperatures()
    {
      if !smcConnected {
        return [];
      }
      var keys := TemperatureKeys;
      ghost var samples := [Read("TB0T"), Read("TB1T"), Read("TB2T")];
      temps := [];
      var i := 0;
      while i < |keys|
        invariant 0 <= i <= |keys|
        invariant temps == ValidTemperatures(samples[..i])
      {
        var key := keys[i];
        assert samples[..i + 1][..i] == samples[..i];
        if key in readable {
          var raw := Int16BigEndian(readable[key]);
          var temp := (raw as real) / 256.0;
          assert temp == Sp78(readable[key]);
          if temp > 0.0 {
            temps := temps + [temp];
          }
        }
        i := i + 1;
      }
      assert samples[..3] == samples;
    }
  }

  /**
   * Without a connection the level reads 0, there are no temperatures, and every setter (whose writes
   * are `Requested` of its write list and whose reply is whether one of those succeeded) writes nothing
   * and replies false.
   */
  lemma DisconnectedHelper(h: SmcHelperDelegate)
    requires !h.smcConnected
    ensures h.ChargeLevelReading() == 0 && h.Temperatures() == []
    ensures forall enabled: bool ::
      (h.Requested(ChargingWrites(h.Caps(), enabled)) == []
       && !AnySucceeded(h.Requested(ChargingWrites(h.Caps(), enabled)), h.writable))
    ensures forall inhibit: bool ::
      (h.Requested(InhibitWrites(h.Caps(), inhibit)) == []
       && !AnySucceeded(h.Requested(InhibitWrites(h.Caps(), inhibit)), h.writable))
    ensures forall limit: Byte :: h.Requested([Write1("BCLM", limit)]) == []
    ensures h.Requested([Write1("BFCL", 1)]) == [] && h.Requested([Write1("BFCL", 0)]) == []
  {
  }
}
