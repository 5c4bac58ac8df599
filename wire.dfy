/**
 * The characteristic value the battery service publishes: five signed 16-bit
 * integers, little-endian, as built with `struct.pack("<h", ...)` in main.py.
 */
module Wire {
  newtype byte = x: int | 0 <= x < 256

  const INT16_MIN: int := -32768
  const INT16_MAX: int := 32767

  predicate InInt16(v: int) {
    INT16_MIN <= v <= INT16_MAX
  }

  /** Python's `int()` applied to a float: truncation toward zero. */
  function Trunc(x: real): (r: int)
    ensures x >= 0.0 ==> 0 <= r && r as real <= x < r as real + 1.0
    ensures x < 0.0 ==> r <= 0 && r as real - 1.0 < x <= r as real
  {
    if x >= 0.0 then x.Floor else -((-x).Floor)
  }

  /** Reads two bytes, low byte first, as a two's-complement 16-bit integer. */
  function UnpackInt16(lo: byte, hi: byte): (v: int)
    ensures InInt16(v)
  {
    var u := lo as int + 256 * hi as int;
    if u >= 0x8000 then u - 0x1_0000 else u
  }

  /** The int16 that a value's low 16 bits read as in two's complement. */
  function Wrap16(v: int): (r: int)
    ensures InInt16(r)
    ensures (r - v) % 0x1_0000 == 0
    ensures InInt16(v) ==> r == v
  {
    (v + 0x8000) % 0x1_0000 - 0x8000
  }

  /**
   * `struct.pack("<h", v)` as MicroPython implements it: the low 16 bits of `v`,
   * low byte first. There is no range check, so a value outside the int16
   * range is stored wrapped.
   */
  function PackInt16(v: int): (r: seq<byte>)
    ensures |r| == 2
    ensures UnpackInt16(r[0], r[1]) == Wrap16(v)
    ensures InInt16(v) ==> UnpackInt16(r[0], r[1]) == v
  {
    var u := v % 0x1_0000;
    assert (u % 256) + 256 * (u / 256) == u;
    assert Wrap16(v) == if u >= 0x8000 then u - 0x1_0000 else u;
    [(u % 256) as byte, (u / 256) as byte]
  }

  /** Every pair of bytes is the packing of the integer it reads as. */
  lemma PackUnpack(lo: byte, hi: byte)
    ensures PackInt16(UnpackInt16(lo, hi)) == [lo, hi]
  {
    var u := lo as int + 256 * hi as int;
    assert 0 <= u < 0x1_0000;
    assert UnpackInt16(lo, hi) % 0x1_0000 == u;
    assert u % 256 == lo as int && u / 256 == hi as int;
  }

  /** The concatenation of `struct.pack("<h", f)` over the fields, in order. */
  function PackFields(fields: seq<int>): (r: seq<byte>)
    ensures |r| == 2 * |fields|
    ensures forall i :: 0 <= i < |fields| ==> UnpackInt16(r[2 * i], r[2 * i + 1]) == Wrap16(fields[i])
  {
    if fields == [] then []
    else
      var head, tail := PackInt16(fields[0]), PackFields(fields[1..]);
      assert forall i :: 1 <= i < |fields| ==>
        (head + tail)[2 * i] == tail[2 * (i - 1)] && (head + tail)[2 * i + 1] == tail[2 * (i - 1) + 1];
      head + tail
  }

  /** The five field values, in wire order, each truncated toward zero. */
  function Fields(volt: real, curr: real, capacityAS: real, whLastH: real, whLastD: real): (r: seq<int>)
    ensures |r| == 5
    ensures volt >= 0.0 ==> 0 <= r[0] && r[0] as real <= volt * 100.0
    ensures curr >= 0.0 ==> 0 <= r[1] && r[1] as real <= curr * 100.0
    ensures curr < 0.0 ==> r[1] <= 0 && curr * 100.0 <= r[1] as real
  {
    [Trunc(volt * 100.0), Trunc(curr * 100.0), Trunc(capacityAS * 100.0 / 60.0 / 60.0),
     Trunc(whLastH * 10.0), Trunc(whLastD)]
  }

  /**
   * The characteristic value: ten bytes whose five little-endian int16 fields
   * are centivolts, centiamperes, hundredths of an ampere-hour, tenths of a
   * watt over the last hour and watt-hours over the last day. A field that
   * does not fit in an int16 is sent as its low 16 bits.
   */
  function CharacteristicValue(volt: real, curr: real, capacityAS: real, whLastH: real, whLastD: real)
    : (r: seq<byte>)
    ensures |r| == 10
    ensures forall i :: 0 <= i < 5 ==>
              UnpackInt16(r[2 * i], r[2 * i + 1]) == Wrap16(Fields(volt, curr, capacityAS, whLastH, whLastD)[i])
    ensures forall i :: 0 <= i < 5 && InInt16(Fields(volt, curr, capacityAS, whLastH, whLastD)[i]) ==>
              UnpackInt16(r[2 * i], r[2 * i + 1]) == Fields(volt, curr, capacityAS, whLastH, whLastD)[i]
  {
    PackFields(Fields(volt, curr, capacityAS, whLastH, whLastD))
  }

  /** A capacity within `[0, maxAS]` gives a third field within `[0, maxAS / 36]`. */
  lemma CapacityFieldRange(capacityAS: real, maxAS: real)
    requires 0.0 <= capacityAS <= maxAS
    ensures 0 <= Trunc(capacityAS * 100.0 / 60.0 / 60.0)
    ensures Trunc(capacityAS * 100.0 / 60.0 / 60.0) as real <= maxAS / 36.0
  {
  }

  /** The worked example: 12.34 V, -3.21 A, 10.5 Ah, 45.6 W, 120 Wh. */
  lemma WorkedExample()
    ensures CharacteristicValue(12.34, -3.21, 37800.0, 45.6, 120.0)
         == [0xD2, 0x04, 0xBF, 0xFE, 0x1A, 0x04, 0xC8, 0x01, 0x78, 0x00]
  {
    var fields := [1234, -321, 1050, 456, 120];
    assert Fields(12.34, -3.21, 37800.0, 45.6, 120.0) == fields;
    var none: seq<byte> := [];
    var b0: seq<byte>, b1: seq<byte>, b2: seq<byte>, b3: seq<byte>, b4: seq<byte> :=
      [0xD2, 0x04], [0xBF, 0xFE], [0x1A, 0x04], [0xC8, 0x01], [0x78, 0x00];
    assert PackInt16(1234) == b0 && PackInt16(-321) == b1 && PackInt16(1050) == b2;
    assert PackInt16(456) == b3 && PackInt16(120) == b4;
    assert fields[5..] == [] && PackFields(fields[5..]) == none;
    assert fields[4..][1..] == fields[5..] && PackFields(fields[4..]) == b4 + none;
    assert fields[3..][1..] == fields[4..] && PackFields(fields[3..]) == b3 + (b4 + none);
    assert fields[2..][1..] == fields[3..] && PackFields(fields[2..]) == b2 + (b3 + (b4 + none));
    assert fields[1..][1..] == fields[2..] && PackFields(fields[1..]) == b1 + (b2 + (b3 + (b4 + none)));
    assert PackFields(fields) == b0 + (b1 + (b2 + (b3 + (b4 + none))));
    assert b0 + (b1 + (b2 + (b3 + (b4 + none)))) == [0xD2, 0x04, 0xBF, 0xFE, 0x1A, 0x04, 0xC8, 0x01, 0x78, 0x00];
  }

  /**
   * An out-of-range field is published wrapped: 400 V gives 40000 centivolts,
   * which the central reads back as 40000 - 65536 = -25536.
   */
  lemma OverrangeVoltageWraps()
    ensures var r := CharacteristicValue(400.0, 0.0, 0.0, 0.0, 0.0);
            UnpackInt16(r[0], r[1]) == -25536
  {
    assert Fields(400.0, 0.0, 0.0, 0.0, 0.0)[0] == 40000;
  }
}
