/**
 * Register values as the SMC hands them over: bytes, the first two bytes of a
 * read buffer, and the sp78 (signed 7.8 fixed point, big-endian) temperature
 * encoding used by the TB0T/TB1T/TB2T sensors.
 */
module Registers {

  /** Swift's `UInt8`. */
  type Byte = b: int | 0 <= b < 0x100

  /**
   * The bytes of an `SMCVal_t` that the core ever looks at: `bytes.0` and
   * `bytes.1` of the 32-byte buffer filled by a successful read.
   */
  datatype SmcVal = SmcVal(byte0: Byte, byte1: Byte)

  /**
   * `(Int16(b0) << 8) | Int16(b1)`: Swift's shift on `Int16` drops the bits that
   * overflow, so this is the two's-complement reading of the big-endian pair.
   */
  function Int16BigEndian(v: SmcVal): (r: int)
    ensures -0x8000 <= r < 0x8000
    ensures (r - (v.byte0 * 0x100 + v.byte1)) % 0x10000 == 0
    ensures r < 0 <==> v.byte0 >= 0x80
  {
    var unsigned := v.byte0 * 0x100 + v.byte1;
    if v.byte0 < 0x80 then unsigned else unsigned - 0x10000
  }

  /** The register bytes that hold a signed 16-bit value, high byte first. */
  function Int16Bytes(raw: int): (v: SmcVal)
    requires -0x8000 <= raw < 0x8000
  {
    var unsigned := if raw < 0 then raw + 0x10000 else raw;
    SmcVal(unsigned / 0x100, unsigned % 0x100)
  }

  lemma DecodeEncodeInt16(raw: int)
    requires -0x8000 <= raw < 0x8000
    ensures Int16BigEndian(Int16Bytes(raw)) == raw
  {
  }

  lemma EncodeDecodeInt16(v: SmcVal)
    ensures Int16Bytes(Int16BigEndian(v)) == v
  {
  }

  /** An sp78 reading in degrees Celsius: `Double(raw) / 256.0`, exact for every 16-bit raw value. */
  function Sp78(v: SmcVal): (celsius: real)
    ensures -128.0 <= celsius < 128.0
    ensures celsius * 256.0 == Int16BigEndian(v) as real
  {
    Int16BigEndian(v) as real / 256.0
  }

  /** A reading counts as valid (`temp > 0`) exactly when its raw value is positive. */
  lemma Sp78Positive(v: SmcVal)
    ensures Sp78(v) > 0.0 <==> Int16BigEndian(v) > 0
    ensures Sp78(v) > 0.0 <==> v.byte0 < 0x80 && (v.byte0 > 0 || v.byte1 > 0)
  {
  }

  /** Each raw step is 1/256 degree, so comparing against a whole-degree threshold is an integer test. */
  lemma Sp78AtLeast(v: SmcVal, degrees: int)
    ensures Sp78(v) >= degrees as real <==> Int16BigEndian(v) >= 256 * degrees
  {
  }

  /** `[0x28, 0x00]` is 40 degrees. */
  lemma Sp78Forty()
    ensures Sp78(SmcVal(0x28, 0x00)) == 40.0
  {
  }

  /** Decoding is injective: two different byte pairs never give the same temperature. */
  lemma Sp78Injective(v: SmcVal, w: SmcVal)
    requires Sp78(v) == Sp78(w)
    ensures v == w
  {
    EncodeDecodeInt16(v);
    EncodeDecodeInt16(w);
  }
}

/** Turning raw sensor reads into the temperatures the core acts on. */
module Temperatures {
  import opened Wrappers
  import opened Registers

  /**
   * The sensors' readings in order, decoded as sp78, keeping only those that are
   * positive: a failed read (`None`) or a reading of zero or below is dropped.
   */
  function ValidTemperatures(samples: seq<Option<SmcVal>>): (temps: seq<real>)
    ensures |temps| <= |samples|
    ensures forall t :: t in temps ==> t > 0.0
    ensures forall t :: t in temps <==> exists i :: 0 <= i < |samples| && samples[i].Some? && Sp78(samples[i].value) == t && t > 0.0
  {
    if samples == [] then []
    else
      var init := samples[..|samples| - 1];
      var last := samples[|samples| - 1];
      var earlier := ValidTemperatures(init);
      assert forall i :: 0 <= i < |init| ==> init[i] == samples[i];
      if last.Some? && Sp78(last.value) > 0.0 then earlier + [Sp78(last.value)] else earlier
  }

  /** One sensor contributes its decoded reading exactly when the read succeeded and is positive. */
  lemma ValidTemperaturesOne(sample: Option<SmcVal>)
    ensures ValidTemperatures([sample]) == if sample.Some? && Sp78(sample.value) > 0.0 then [Sp78(sample.value)] else []
  {
    assert [sample][..0] == [];
  }

  /**
   * Filtering distributes over concatenation: the valid readings of consecutive sensors are the readings
   * of the first ones followed by those of the rest, so sensor order and multiplicity are kept.
   */
  lemma {:induction false} ValidTemperaturesAppend(a: seq<Option<SmcVal>>, b: seq<Option<SmcVal>>)
    ensures ValidTemperatures(a + b) == ValidTemperatures(a) + ValidTemperatures(b)
    decreases |b|
  {
    if b == [] {
      assert a + b == a;
    } else {
      var init := b[..|b| - 1];
      var last := b[|b| - 1];
      assert (a + b)[..|a + b| - 1] == a + init;
      assert (a + b)[|a + b| - 1] == last;
      ValidTemperaturesAppend(a, init);
    }
  }

  /** The largest of the temperatures, or `None` for none at all. */
  function MaxTemperature(temps: seq<real>): (m: Option<real>)
    ensures m.None? <==> temps == []
    ensures m.Some? ==> m.value in temps && forall t :: t in temps ==> t <= m.value
  {
    if temps == [] then None
    else
      var init := temps[..|temps| - 1];
      var last := temps[|temps| - 1];
      assert temps == init + [last];
      match MaxTemperature(init)
      case None => Some(last)
      case Some(current) => Some(if current >= last then current else last)
  }
}
