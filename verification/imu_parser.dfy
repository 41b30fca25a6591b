/** The binary sample decoder of src/lib/imuParser.ts: fixed 16-byte little-endian records,
    each a 32-bit unsigned timestamp followed by six two's-complement 16-bit channels. */
module ImuParser {
  import opened BleTypes
  import opened Constants

  type Byte = b: int | 0 <= b < 256

  /** The record size in use: the contract constant when it is positive, otherwise 16. */
  const Bps: int := if BytesPerSample > 0 then BytesPerSample else 16

  /** One record before scaling: the timestamp and the six raw channel readings. */
  datatype RawSample = RawSample(tMs: int, ax: int, ay: int, az: int, gx: int, gy: int, gz: int)

  /** Little-endian unsigned 16-bit value at `off`. */
  function U16At(b: seq<Byte>, off: int): (r: int)
    requires 0 <= off && off + 2 <= |b|
    ensures 0 <= r < 0x1_0000
  {
    b[off] as int + 256 * (b[off + 1] as int)
  }

  /** Little-endian unsigned 32-bit value at `off` (`getUint32(off, true)`). */
  function U32At(b: seq<Byte>, off: int): (r: int)
    requires 0 <= off && off + 4 <= |b|
    ensures 0 <= r < 0x1_0000_0000
  {
    b[off] as int + 256 * (b[off + 1] as int + 256 * (b[off + 2] as int + 256 * (b[off + 3] as int)))
  }

  /** Little-endian two's-complement 16-bit value at `off` (`getInt16(off, true)`). */
  function I16At(b: seq<Byte>, off: int): (r: int)
    requires 0 <= off && off + 2 <= |b|
    ensures -0x8000 <= r < 0x8000
    ensures r >= 0 ==> r == U16At(b, off)
    ensures r < 0 ==> r + 0x1_0000 == U16At(b, off)
  {
    var u := U16At(b, off);
    if u < 0x8000 then u else u - 0x1_0000
  }

  /** The raw record whose first byte is at `off`: timestamp at +0, channels at +4 .. +14. */
  function RecordAt(b: seq<Byte>, off: int): RawSample
    requires 0 <= off && off + 16 <= |b|
  {
    RawSample(U32At(b, off),
              I16At(b, off + 4), I16At(b, off + 6), I16At(b, off + 8),
              I16At(b, off + 10), I16At(b, off + 12), I16At(b, off + 14))
  }

  /** Conversion of a raw record to physical units. */
  function Scale(r: RawSample): Sample
  {
    Sample(r.tMs,
           r.ax as real * AccMps2PerLsb, r.ay as real * AccMps2PerLsb, r.az as real * AccMps2PerLsb,
           r.gx as real * GyroRadPerLsb, r.gy as real * GyroRadPerLsb, r.gz as real * GyroRadPerLsb)
  }

  /** `parseImuNotification`: one sample per complete record; trailing partial bytes are dropped. */
  function ParseImuNotification(u8: seq<Byte>): (out: seq<Sample>)
    ensures |out| == |u8| / Bps
    ensures forall i :: 0 <= i < |out| ==> out[i] == Scale(RecordAt(u8, Bps * i))
    decreases |u8|
  {
    if |u8| < Bps then []
    else
      var rest := ParseImuNotification(u8[Bps..]);
      NextRecords(u8);
      [Scale(RecordAt(u8, 0))] + rest
  }

  /** Dropping the first record shifts every later record down by one place. */
  lemma NextRecords(u8: seq<Byte>)
    requires |u8| >= Bps
    ensures |u8[Bps..]| / Bps + 1 == |u8| / Bps
    ensures forall i :: 1 <= i < |u8| / Bps ==>
              && Bps * i + 16 <= |u8|
              && RecordAt(u8[Bps..], Bps * i - Bps) == RecordAt(u8, Bps * i)
  {
    assert Bps == 16;
    var m := |u8| - 16;
    assert (m + 16) / 16 == m / 16 + 1;
    forall i | 1 <= i < |u8| / Bps
      ensures Bps * i + 16 <= |u8|
      ensures RecordAt(u8[Bps..], Bps * i - Bps) == RecordAt(u8, Bps * i)
    {
      assert 16 * i <= 16 * (|u8| / 16 - 1);
      assert 16 * (|u8| / 16) <= |u8|;
    }
  }

  /** `parsePacket`: the alias kept for older callers. */
  function ParsePacket(u8: seq<Byte>): (out: seq<Sample>)
    ensures out == ParseImuNotification(u8)
    ensures |out| == |u8| / Bps
    ensures forall i :: 0 <= i < |out| ==> out[i] == Scale(RecordAt(u8, Bps * i))
  {
    ParseImuNotification(u8)
  }

  /** A buffer of 16k + r bytes decodes exactly like its first 16k bytes. */
  lemma ParseDropsPartialRecord(u8: seq<Byte>)
    ensures ParseImuNotification(u8) == ParseImuNotification(u8[..Bps * (|u8| / Bps)])
  {
    var k := Bps * (|u8| / Bps);
    WholeRecords(|u8|);
    assert u8[..k] + u8[k..] == u8;
    assert ParseImuNotification(u8[k..]) == [];
    ParseConcat(u8[..k], u8[k..]);
  }

  /** The whole records of a length `m`: a multiple of the record size, no larger than `m`,
      leaving fewer bytes than a record. */
  lemma WholeRecords(m: nat)
    ensures 0 <= Bps * (m / Bps) <= m
    ensures (Bps * (m / Bps)) % Bps == 0
    ensures m - Bps * (m / Bps) < Bps
  {
    assert Bps == 16;
    var n := m / 16;
    assert (16 * n) / 16 == n;
  }

  /** Decoding distributes over concatenation when the first buffer holds whole records. */
  lemma {:induction false} ParseConcat(a: seq<Byte>, b: seq<Byte>)
    requires |a| % Bps == 0
    ensures ParseImuNotification(a + b) == ParseImuNotification(a) + ParseImuNotification(b)
    decreases |a|
  {
    if |a| == 0 {
      assert a + b == b;
    } else {
      assert (a + b)[Bps..] == a[Bps..] + b;
      assert RecordAt(a + b, 0) == RecordAt(a, 0);
      ParseConcat(a[Bps..], b);
    }
  }

  /** The value ranges a record can carry on the wire. */
  predicate OnWire(r: RawSample)
  {
    && 0 <= r.tMs < 0x1_0000_0000
    && -0x8000 <= r.ax < 0x8000 && -0x8000 <= r.ay < 0x8000 && -0x8000 <= r.az < 0x8000
    && -0x8000 <= r.gx < 0x8000 && -0x8000 <= r.gy < 0x8000 && -0x8000 <= r.gz < 0x8000
  }

  /** `setUint32(off, t, true)`: four little-endian bytes. */
  function EncodeU32(t: int): (b: seq<Byte>)
    requires 0 <= t < 0x1_0000_0000
    ensures |b| == 4 && U32At(b, 0) == t
  {
    var t1 := t / 256;
    var t2 := t1 / 256;
    var t3 := t2 / 256;
    [t % 256, t1 % 256, t2 % 256, t3]
  }

  /** `setInt16(off, v, true)`: two little-endian bytes of the two's-complement value. */
  function EncodeI16(v: int): (b: seq<Byte>)
    requires -0x8000 <= v < 0x8000
    ensures |b| == 2 && I16At(b, 0) == v
  {
    var u := if v < 0 then v + 0x1_0000 else v;
    [u % 256, u / 256]
  }

  /** The 16-byte wire image of one record; decoding it gives the record back. */
  function EncodeRecord(r: RawSample): (b: seq<Byte>)
    requires OnWire(r)
    ensures |b| == Bps
    ensures RecordAt(b, 0) == r
  {
    var b := EncodeU32(r.tMs) + EncodeI16(r.ax) + EncodeI16(r.ay) + EncodeI16(r.az)
             + EncodeI16(r.gx) + EncodeI16(r.gy) + EncodeI16(r.gz);
    assert U32At(b, 0) == U32At(EncodeU32(r.tMs), 0);
    assert I16At(b, 4) == I16At(EncodeI16(r.ax), 0);
    assert I16At(b, 6) == I16At(EncodeI16(r.ay), 0);
    assert I16At(b, 8) == I16At(EncodeI16(r.az), 0);
    assert I16At(b, 10) == I16At(EncodeI16(r.gx), 0);
    assert I16At(b, 12) == I16At(EncodeI16(r.gy), 0);
    assert I16At(b, 14) == I16At(EncodeI16(r.gz), 0);
    b
  }

  /** The wire image of a run of records, back to back. */
  function EncodeAll(rs: seq<RawSample>): (b: seq<Byte>)
    requires forall i :: 0 <= i < |rs| ==> OnWire(rs[i])
    ensures |b| == Bps * |rs|
  {
    if |rs| == 0 then [] else EncodeRecord(rs[0]) + EncodeAll(rs[1..])
  }

  /** Round trip: decoding encoded records yields each record scaled to physical units,
      with the timestamp unchanged. */
  lemma {:induction false} RoundTrip(rs: seq<RawSample>)
    requires forall i :: 0 <= i < |rs| ==> OnWire(rs[i])
    ensures |ParseImuNotification(EncodeAll(rs))| == |rs|
    ensures forall i :: 0 <= i < |rs| ==> ParseImuNotification(EncodeAll(rs))[i] == Scale(rs[i])
  {
    if |rs| > 0 {
      var head := EncodeRecord(rs[0]);
      RoundTrip(rs[1..]);
      ParseConcat(head, EncodeAll(rs[1..]));
      var p := ParseImuNotification(EncodeAll(rs));
      assert p == ParseImuNotification(head) + ParseImuNotification(EncodeAll(rs[1..]));
      forall i | 0 < i < |rs|
        ensures p[i] == Scale(rs[i])
      {
        assert rs[1..][i - 1] == rs[i];
      }
    }
  }

  /** The sixteen bytes of one record with timestamp 1234 and channels 1000, -1000, 0, 500, 0,
      -500 decode to exactly one sample carrying those readings in physical units. */
  lemma SingleRecordDecodes()
    ensures ParseImuNotification([0xD2, 0x04, 0x00, 0x00, 0xE8, 0x03, 0x18, 0xFC,
                                  0x00, 0x00, 0xF4, 0x01, 0x00, 0x00, 0x0C, 0xFE])
            == [Scale(RawSample(1234, 1000, -1000, 0, 500, 0, -500))]
  {
    var b: seq<Byte> := [0xD2, 0x04, 0x00, 0x00, 0xE8, 0x03, 0x18, 0xFC,
                         0x00, 0x00, 0xF4, 0x01, 0x00, 0x00, 0x0C, 0xFE];
    assert RecordAt(b, 0) == RawSample(1234, 1000, -1000, 0, 500, 0, -500);
  }
}
