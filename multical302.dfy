/** The driver for the Kamstrup Multical 302 heat meter
    (src/meter_multical302.cc).

    A telegram's content starts with a two-byte payload CRC (recorded, never
    checked) and a frame-type byte. A 0x79 frame carries the total energy and
    the total volume as three-byte little-endian integers; a 0x78 frame
    carries the current power as a two-byte little-endian integer scaled by
    100; any other frame type only draws a warning. The meter keeps the last
    decoded value of each quantity across telegrams. */
module Multical302 {
  import opened Units
  import opened Telegrams

  // ---------------------------------------------------------------------
  // Byte formulas of the wire format

  /** A three-byte little-endian unsigned integer, least significant byte first. */
  function Le3(b0: byte, b1: byte, b2: byte): (v: nat)
    ensures v < 0x100_0000
  {
    b2 * 256 * 256 + b1 * 256 + b0
  }

  /** The three little-endian bytes of `v`. */
  function Le3Bytes(v: nat): (b: seq<byte>)
    requires v < 0x100_0000
    ensures |b| == 3
  {
    [v % 256, v / 256 % 256, v / 65536]
  }

  /** Encoding a value and decoding its bytes gives the value back. */
  lemma Le3OfBytes(v: nat)
    requires v < 0x100_0000
    ensures var b := Le3Bytes(v); Le3(b[0], b[1], b[2]) == v
  {
    var b := Le3Bytes(v);
    assert v == (v / 65536) * 65536 + (v / 256 % 256) * 256 + v % 256 by {
      assert v / 256 == (v / 65536) * 256 + v / 256 % 256;
      assert v == (v / 256) * 256 + v % 256;
    }
  }

  /** Decoding three bytes and encoding the value gives the bytes back, so
      `Le3` is a bijection between byte triples and `[0, 2^24)`. */
  lemma BytesOfLe3(b0: byte, b1: byte, b2: byte)
    ensures Le3Bytes(Le3(b0, b1, b2)) == [b0, b1, b2]
  {
    var v := Le3(b0, b1, b2);
    assert v == (b2 * 256 + b1) * 256 + b0;
    assert v % 256 == b0 && v / 256 == b2 * 256 + b1;
    assert v / 256 % 256 == b1;
    assert v / 65536 == (v / 256) / 256;
  }

  /** A two-byte little-endian unsigned integer, least significant byte first. */
  function Le2(b0: byte, b1: byte): (v: nat)
    ensures v < 0x1_0000
  {
    b1 * 256 + b0
  }

  /** The two little-endian bytes of `v`. */
  function Le2Bytes(v: nat): (b: seq<byte>)
    requires v < 0x1_0000
    ensures |b| == 2
  {
    [v % 256, v / 256]
  }

  /** Encoding a value and decoding its bytes gives the value back. */
  lemma Le2OfBytes(v: nat)
    requires v < 0x1_0000
    ensures var b := Le2Bytes(v); Le2(b[0], b[1]) == v
  {
  }

  /** Decoding two bytes and encoding the value gives the bytes back. */
  lemma BytesOfLe2(b0: byte, b1: byte)
    ensures Le2Bytes(Le2(b0, b1)) == [b0, b1]
  {
    var w := Le2(b0, b1);
    assert w % 256 == b0 && w / 256 == b1;
  }

  // ---------------------------------------------------------------------
  // Frames

  const EnergyVolumeFrame: byte := 0x79
  const PowerFrame: byte := 0x78

  /** The frame-type lengths the driver's commented-out length checks expect. */
  const EnergyVolumeFrameLength: nat := 17
  const PowerFrameLength: nat := 26

  /** The driver indexes the content without bounds checks: it reads bytes
      up to offset 2 of every frame, up to 15 of a 0x79 frame and up to 25
      of a 0x78 frame. */
  predicate Readable(c: seq<byte>) {
    |c| >= 3 &&
    (c[2] == EnergyVolumeFrame ==> |c| >= 16) &&
    (c[2] == PowerFrame ==> |c| >= 26)
  }

  /** Content `c` has frame type `ft`. */
  predicate HasFrameType(c: seq<byte>, ft: byte) {
    |c| >= 3 && c[2] == ft
  }

  /** What a frame carries, in the meter's canonical units. */
  datatype Frame =
    | EnergyVolume(energyKwh: int, volumeM3: int)
    | InstantPower(powerKw: int)
    | Unrecognised(frameType: byte)

  /** The values a frame carries: the raw three-byte integers are the kWh
      and m3 values themselves, the raw power is scaled by 100. */
  function DecodeFrame(c: seq<byte>): (f: Frame)
    requires Readable(c)
  {
    if c[2] == EnergyVolumeFrame then EnergyVolume(Le3(c[7], c[8], c[9]), Le3(c[13], c[14], c[15]))
    else if c[2] == PowerFrame then InstantPower(Le2(c[24], c[25]) * 100)
    else Unrecognised(c[2])
  }

  /** The decoded values are bounded by their byte widths: energy and volume
      lie in `[0, 2^24 - 1]`, power is a multiple of 100 of at most 6553500. */
  lemma DecodedRanges(c: seq<byte>)
    requires Readable(c)
    ensures match DecodeFrame(c)
      case EnergyVolume(e, v) => 0 <= e < 0x100_0000 && 0 <= v < 0x100_0000
      case InstantPower(p) => 0 <= p <= 6553500 && p % 100 == 0
      case Unrecognised(ft) => ft != EnergyVolumeFrame && ft != PowerFrame
  {
  }

  /** A 0x79 content built from a CRC, unknown bytes, an energy and a volume. */
  function EnergyVolumeContent(crc: seq<byte>, unknown1: seq<byte>, energy: nat, unknown2: seq<byte>, volume: nat): (c: seq<byte>)
    requires |crc| == 2 && |unknown1| == 4 && |unknown2| == 3
    requires energy < 0x100_0000 && volume < 0x100_0000
    ensures |c| == 16 && Readable(c) && c[2] == EnergyVolumeFrame
  {
    crc + [EnergyVolumeFrame] + unknown1 + Le3Bytes(energy) + unknown2 + Le3Bytes(volume)
  }

  /** Decoding a built 0x79 content gives back the energy and the volume. */
  lemma DecodeEnergyVolumeContent(crc: seq<byte>, unknown1: seq<byte>, energy: nat, unknown2: seq<byte>, volume: nat)
    requires |crc| == 2 && |unknown1| == 4 && |unknown2| == 3
    requires energy < 0x100_0000 && volume < 0x100_0000
    ensures DecodeFrame(EnergyVolumeContent(crc, unknown1, energy, unknown2, volume)) == EnergyVolume(energy, volume)
  {
    var c := EnergyVolumeContent(crc, unknown1, energy, unknown2, volume);
    var e, v := Le3Bytes(energy), Le3Bytes(volume);
    assert c[7] == e[0] && c[8] == e[1] && c[9] == e[2];
    assert c[13] == v[0] && c[14] == v[1] && c[15] == v[2];
    Le3OfBytes(energy);
    Le3OfBytes(volume);
  }

  /** Every 0x79 content is a built one: its first 16 bytes are determined by
      the CRC, the unknown bytes and the decoded energy and volume. */
  lemma EnergyVolumeContentComplete(c: seq<byte>)
    requires Readable(c) && c[2] == EnergyVolumeFrame
    ensures DecodeFrame(c).EnergyVolume?
    ensures c[..16] == EnergyVolumeContent(c[..2], c[3..7], DecodeFrame(c).energyKwh, c[10..13], DecodeFrame(c).volumeM3)
  {
    BytesOfLe3(c[7], c[8], c[9]);
    BytesOfLe3(c[13], c[14], c[15]);
    var b := EnergyVolumeContent(c[..2], c[3..7], DecodeFrame(c).energyKwh, c[10..13], DecodeFrame(c).volumeM3);
    assert forall k :: 0 <= k < 16 ==> c[..16][k] == b[k];
  }

  /** A 0x78 content built from a CRC, 21 unknown bytes and a raw power. */
  function PowerContent(crc: seq<byte>, unknowns: seq<byte>, raw: nat): (c: seq<byte>)
    requires |crc| == 2 && |unknowns| == 21 && raw < 0x1_0000
    ensures |c| == 26 && Readable(c) && c[2] == PowerFrame
  {
    crc + [PowerFrame] + unknowns + Le2Bytes(raw)
  }

  /** Decoding a built 0x78 content gives the raw power times 100. */
  lemma DecodePowerContent(crc: seq<byte>, unknowns: seq<byte>, raw: nat)
    requires |crc| == 2 && |unknowns| == 21 && raw < 0x1_0000
    ensures DecodeFrame(PowerContent(crc, unknowns, raw)) == InstantPower(raw * 100)
  {
    var c := PowerContent(crc, unknowns, raw);
    var b := Le2Bytes(raw);
    assert c[24] == b[0] && c[25] == b[1];
    Le2OfBytes(raw);
  }

  /** Every 0x78 content is a built one: its first 26 bytes are determined by
      the CRC, the unknown bytes and the raw power (`DecodeFrame` reports it
      times 100). */
  lemma PowerContentComplete(c: seq<byte>)
    requires Readable(c) && c[2] == PowerFrame
    ensures c[..26] == PowerContent(c[..2], c[3..24], Le2(c[24], c[25]))
  {
    assert Le2Bytes(Le2(c[24], c[25])) == [c[24], c[25]] by {
      BytesOfLe2(c[24], c[25]);
    }
    assert c[..3] == c[..2] + [PowerFrame];
    assert c[..24] == c[..3] + c[3..24];
    assert c[24..26] == [c[24], c[25]];
    assert c[..26] == c[..24] + c[24..26];
  }

  // ---------------------------------------------------------------------
  // Meter state

  /** The three values the meter keeps, in kWh, kW and m3. */
  datatype MeterState = MeterState(totalEnergyKwh: int, currentPowerKw: int, totalVolumeM3: int)

  /** A new meter has read nothing yet. */
  const Initial := MeterState(0, 0, 0)

  /** The state after decoding content `c`: each frame overwrites the fields
      it carries and leaves the others alone. */
  function Step(s: MeterState, c: seq<byte>): MeterState
    requires Readable(c)
  {
    match DecodeFrame(c)
    case EnergyVolume(e, v) => s.(totalEnergyKwh := e, totalVolumeM3 := v)
    case InstantPower(p) => s.(currentPowerKw := p)
    case Unrecognised(_) => s
  }

  /** A 0x79 frame sets the energy and the volume from bytes 7-9 and 13-15
      and leaves the power as it was. */
  lemma StepEnergyVolume(s: MeterState, c: seq<byte>)
    requires Readable(c) && c[2] == EnergyVolumeFrame
    ensures Step(s, c).totalEnergyKwh == (c[9] as int) * 65536 + (c[8] as int) * 256 + c[7]
    ensures Step(s, c).totalVolumeM3 == (c[15] as int) * 65536 + (c[14] as int) * 256 + c[13]
    ensures Step(s, c).currentPowerKw == s.currentPowerKw
  {
  }

  /** A 0x78 frame sets the power from bytes 24-25 and leaves the energy and
      the volume as they were. */
  lemma StepPower(s: MeterState, c: seq<byte>)
    requires Readable(c) && c[2] == PowerFrame
    ensures Step(s, c).currentPowerKw == ((c[25] as int) * 256 + c[24]) * 100
    ensures Step(s, c).totalEnergyKwh == s.totalEnergyKwh
    ensures Step(s, c).totalVolumeM3 == s.totalVolumeM3
  {
  }

  /** Any other frame type changes nothing. */
  lemma StepUnrecognised(s: MeterState, c: seq<byte>)
    requires Readable(c) && c[2] != EnergyVolumeFrame && c[2] != PowerFrame
    ensures Step(s, c) == s
  {
  }

  /** Decoding overwrites rather than accumulates: decoding the same content
      twice leaves the state decoding it once leaves. */
  lemma StepIdempotent(s: MeterState, c: seq<byte>)
    requires Readable(c)
    ensures Step(Step(s, c), c) == Step(s, c)
  {
  }

  /** Two frames of different types touch disjoint fields, so their order
      does not matter. */
  lemma StepsCommute(s: MeterState, a: seq<byte>, b: seq<byte>)
    requires Readable(a) && Readable(b) && a[2] != b[2]
    ensures Step(Step(s, a), b) == Step(Step(s, b), a)
  {
  }

  /** The state after decoding the contents `cs` in order. */
  function Run(s: MeterState, cs: seq<seq<byte>>): MeterState
    requires forall i :: 0 <= i < |cs| ==> Readable(cs[i])
  {
    if cs == [] then s else Step(Run(s, cs[..|cs| - 1]), cs[|cs| - 1])
  }

  /** After a run the energy and the volume are those of the last 0x79 frame. */
  lemma {:induction false} LatestEnergyVolumeFrameWins(s: MeterState, cs: seq<seq<byte>>, i: nat)
    requires forall j :: 0 <= j < |cs| ==> Readable(cs[j])
    requires i < |cs| && HasFrameType(cs[i], EnergyVolumeFrame)
    requires forall j :: i < j < |cs| ==> !HasFrameType(cs[j], EnergyVolumeFrame)
    ensures Run(s, cs).totalEnergyKwh == DecodeFrame(cs[i]).energyKwh
    ensures Run(s, cs).totalVolumeM3 == DecodeFrame(cs[i]).volumeM3
  {
    if i < |cs| - 1 {
      LatestEnergyVolumeFrameWins(s, cs[..|cs| - 1], i);
    }
  }

  /** A run without 0x79 frames keeps the energy and the volume it started with. */
  lemma {:induction false} EnergyVolumePersists(s: MeterState, cs: seq<seq<byte>>)
    requires forall j :: 0 <= j < |cs| ==> Readable(cs[j]) && !HasFrameType(cs[j], EnergyVolumeFrame)
    ensures Run(s, cs).totalEnergyKwh == s.totalEnergyKwh
    ensures Run(s, cs).totalVolumeM3 == s.totalVolumeM3
  {
    if cs != [] {
      EnergyVolumePersists(s, cs[..|cs| - 1]);
    }
  }

  /** After a run the power is that of the last 0x78 frame. */
  lemma {:induction false} LatestPowerFrameWins(s: MeterState, cs: seq<seq<byte>>, i: nat)
    requires forall j :: 0 <= j < |cs| ==> Readable(cs[j])
    requires i < |cs| && HasFrameType(cs[i], PowerFrame)
    requires forall j :: i < j < |cs| ==> !HasFrameType(cs[j], PowerFrame)
    ensures Run(s, cs).currentPowerKw == DecodeFrame(cs[i]).powerKw
  {
    if i < |cs| - 1 {
      LatestPowerFrameWins(s, cs[..|cs| - 1], i);
    }
  }

  /** A run without 0x78 frames keeps the power it started with. */
  lemma {:induction false} PowerPersists(s: MeterState, cs: seq<seq<byte>>)
    requires forall j :: 0 <= j < |cs| ==> Readable(cs[j]) && !HasFrameType(cs[j], PowerFrame)
    ensures Run(s, cs).currentPowerKw == s.currentPowerKw
  {
    if cs != [] {
      PowerPersists(s, cs[..|cs| - 1]);
    }
  }

  /** Content `[crc0, crc1, 0x79, u0..u3, 10, 0, 0, x0..x2, 20, 0, 0]` gives
      an energy of 10 kWh and a volume of 20 m3. */
  lemma EnergyVolumeExample(s: MeterState, crc: seq<byte>, u: seq<byte>, x: seq<byte>)
    requires |crc| == 2 && |u| == 4 && |x| == 3
    ensures var c := crc + [0x79] + u + [10, 0, 0] + x + [20, 0, 0];
      Readable(c) && Step(s, c) == s.(totalEnergyKwh := 10, totalVolumeM3 := 20)
  {
    var c := crc + [0x79] + u + [10, 0, 0] + x + [20, 0, 0];
    assert c[2] == 0x79 && c[7..10] == [10, 0, 0] && c[13..16] == [20, 0, 0];
  }

  /** A 26-byte 0x78 content ending in `5, 0` gives a power of 500. */
  lemma PowerExample(s: MeterState, crc: seq<byte>, unknowns: seq<byte>)
    requires |crc| == 2 && |unknowns| == 21
    ensures var c := crc + [0x78] + unknowns + [5, 0];
      Readable(c) && Step(s, c) == s.(currentPowerKw := 500)
  {
    var c := crc + [0x78] + unknowns + [5, 0];
    assert c[2] == 0x78 && c[24] == 5 && c[25] == 0;
  }

  // ---------------------------------------------------------------------
  // Explanation trail and warnings

  /** The fields the driver explains, in the order and with the lengths it
      passes to `addExplanation`. For a 0x79 frame the second unknown field
      is given four bytes and is explained before the energy, so the energy
      and volume records sit at offsets 11 and 14, not at the 7 and 13 they
      are read from. */
  function FrameFields(c: seq<byte>): seq<Field>
    requires Readable(c)
  {
    var header := [Field(2, PayloadCrc(c[..2])), Field(1, FrameType(c[2]))];
    if c[2] == EnergyVolumeFrame then
      header + [
        Field(4, UnknownBytes(c[3..7])),
        Field(4, UnknownBytes(c[10..13])),
        Field(3, TotalEnergy(c[7..10], Le3(c[7], c[8], c[9]))),
        Field(3, TotalVolume(c[13..16], Le3(c[13], c[14], c[15])))]
    else if c[2] == PowerFrame then
      header + [
        Field(23 - 2, UnknownBytes(c[3..24])),
        Field(2, CurrentPower(c[24..26], Le2(c[24], c[25]) * 100))]
    else header
  }

  /** The records decoding `c` appends, starting at offset 0. */
  function Trail(c: seq<byte>): seq<Explanation>
    requires Readable(c)
  {
    Spans(0, FrameFields(c))
  }

  /** The number of bytes the trail of a frame type explains: 17 for 0x79
      and 26 for 0x78, the lengths the driver expects of those frames, and
      only the three header bytes otherwise. */
  function ExplainedLength(frameType: byte): nat {
    if frameType == EnergyVolumeFrame then EnergyVolumeFrameLength
    else if frameType == PowerFrame then PowerFrameLength
    else 3
  }

  /** The trail covers each offset below the explained length of its frame
      type exactly once and nothing beyond it. */
  lemma TrailPartitionsFrame(c: seq<byte>, k: int)
    requires Readable(c)
    ensures 0 <= k < ExplainedLength(c[2]) ==> exists i :: 0 <= i < |Trail(c)| && Covers(Trail(c)[i], k)
    ensures forall i :: 0 <= i < |Trail(c)| && Covers(Trail(c)[i], k) ==> 0 <= k < ExplainedLength(c[2])
    ensures forall i, j :: 0 <= i < j < |Trail(c)| && Covers(Trail(c)[i], k) ==> !Covers(Trail(c)[j], k)
  {
    var fs := FrameFields(c);
    assert Width(fs) == ExplainedLength(c[2]) by {
      if c[2] == EnergyVolumeFrame {
        assert Width(fs) == 2 + Width(fs[1..]);
        assert Width(fs[1..]) == 1 + Width(fs[2..]);
        assert Width(fs[2..]) == 4 + Width(fs[3..]);
        assert Width(fs[3..]) == 4 + Width(fs[4..]);
        assert Width(fs[4..]) == 3 + Width(fs[5..]);
        assert Width(fs[5..]) == 3 + Width(fs[6..]);
      } else if c[2] == PowerFrame {
        assert Width(fs) == 2 + Width(fs[1..]);
        assert Width(fs[1..]) == 1 + Width(fs[2..]);
        assert Width(fs[2..]) == 21 + Width(fs[3..]);
        assert Width(fs[3..]) == 2 + Width(fs[4..]);
      } else {
        assert Width(fs) == 2 + Width(fs[1..]);
        assert Width(fs[1..]) == 1 + Width(fs[2..]);
      }
    }
    SpansPartition(0, fs, k);
    if 0 <= k < ExplainedLength(c[2]) {
      var i :| 0 <= i < |fs| && Covers(Spans(0, fs)[i], k);
      assert Covers(Trail(c)[i], k);
    }
  }

  /** The records of a 0x79 frame. The energy read from bytes 7-9 is
      recorded at offsets 11-13 and the volume read from bytes 13-15 at
      offsets 14-16, behind a second unknown record of four bytes. */
  lemma EnergyVolumeTrail(c: seq<byte>)
    requires Readable(c) && c[2] == EnergyVolumeFrame
    ensures Trail(c) == [
      Explanation(0, 2, PayloadCrc(c[..2])),
      Explanation(2, 1, FrameType(c[2])),
      Explanation(3, 4, UnknownBytes(c[3..7])),
      Explanation(7, 4, UnknownBytes(c[10..13])),
      Explanation(11, 3, TotalEnergy(c[7..10], DecodeFrame(c).energyKwh)),
      Explanation(14, 3, TotalVolume(c[13..16], DecodeFrame(c).volumeM3))]
  {
    var fs := FrameFields(c);
    var f0, f1, f2, f3, f4, f5 := fs[0], fs[1], fs[2], fs[3], fs[4], fs[5];
    assert fs == [f0, f1, f2, f3, f4, f5];
    assert f4.note == TotalEnergy(c[7..10], DecodeFrame(c).energyKwh);
    assert f5.note == TotalVolume(c[13..16], DecodeFrame(c).volumeM3);
    assert Spans(14, [f5]) == [Explanation(14, 3, f5.note)];
    assert Spans(11, [f4, f5]) == [Explanation(11, 3, f4.note)] + Spans(14, [f5]);
    assert Spans(7, [f3, f4, f5]) == [Explanation(7, 4, f3.note)] + Spans(11, [f4, f5]);
    assert Spans(3, [f2, f3, f4, f5]) == [Explanation(3, 4, f2.note)] + Spans(7, [f3, f4, f5]);
    assert Spans(2, [f1, f2, f3, f4, f5]) == [Explanation(2, 1, f1.note)] + Spans(3, [f2, f3, f4, f5]);
    assert Spans(0, fs) == [Explanation(0, 2, f0.note)] + Spans(2, [f1, f2, f3, f4, f5]);
  }

  /** The records of a 0x78 frame: the header, 21 unknown bytes and the
      power bytes 24-25. */
  lemma PowerTrail(c: seq<byte>)
    requires Readable(c) && c[2] == PowerFrame
    ensures Trail(c) == [
      Explanation(0, 2, PayloadCrc(c[..2])),
      Explanation(2, 1, FrameType(c[2])),
      Explanation(3, 21, UnknownBytes(c[3..24])),
      Explanation(24, 2, CurrentPower(c[24..26], DecodeFrame(c).powerKw))]
  {
    var fs := FrameFields(c);
    var f0, f1, f2, f3 := fs[0], fs[1], fs[2], fs[3];
    assert fs == [f0, f1, f2, f3];
    assert Spans(24, [f3]) == [Explanation(24, 2, f3.note)];
    assert Spans(3, [f2, f3]) == [Explanation(3, 21, f2.note)] + Spans(24, [f3]);
    assert Spans(2, [f1, f2, f3]) == [Explanation(2, 1, f1.note)] + Spans(3, [f2, f3]);
    assert Spans(0, fs) == [Explanation(0, 2, f0.note)] + Spans(2, [f1, f2, f3]);
  }

  /** Any other frame explains only its CRC and its frame-type byte. */
  lemma UnrecognisedTrail(c: seq<byte>)
    requires Readable(c) && c[2] != EnergyVolumeFrame && c[2] != PowerFrame
    ensures Trail(c) == [Explanation(0, 2, PayloadCrc(c[..2])), Explanation(2, 1, FrameType(c[2]))]
  {
    var fs := FrameFields(c);
    var f0, f1 := fs[0], fs[1];
    assert fs == [f0, f1];
    assert Spans(2, [f1]) == [Explanation(2, 1, f1.note)];
    assert Spans(0, fs) == [Explanation(0, 2, f0.note)] + Spans(2, [f1]);
  }

  /** For a 0x78 frame and for an unknown frame type every record covers
      exactly the bytes it describes. */
  lemma TrailRecordsItsBytes(c: seq<byte>, i: nat)
    requires Readable(c) && c[2] != EnergyVolumeFrame && i < |Trail(c)|
    ensures RecordsItsBytes(c, Trail(c)[i])
  {
    if c[2] == PowerFrame {
      PowerTrail(c);
    } else {
      UnrecognisedTrail(c);
    }
  }

  /** For a 0x79 frame the header and the first unknown record cover the
      bytes they describe, but the second unknown record never does: it
      covers four bytes from offset 7 while describing the three bytes
      10-12, and every record behind it is shifted the same way. */
  lemma EnergyVolumeTrailMisaligned(c: seq<byte>)
    requires Readable(c) && c[2] == EnergyVolumeFrame
    ensures |Trail(c)| == 6
    ensures forall i :: 0 <= i < 3 ==> RecordsItsBytes(c, Trail(c)[i])
    ensures !RecordsItsBytes(c, Trail(c)[3])
  {
    EnergyVolumeTrail(c);
  }

  /** The diagnostics the driver reports through its warning channel. */
  datatype Warning = EncryptedWithoutKey | UnknownFrame(frameType: byte)

  /** Decoding warns about exactly the frame types it does not know. */
  function FrameWarnings(c: seq<byte>): (w: seq<Warning>)
    requires Readable(c)
    ensures w != [] <==> DecodeFrame(c).Unrecognised?
  {
    if c[2] == EnergyVolumeFrame || c[2] == PowerFrame then [] else [UnknownFrame(c[2])]
  }

  // ---------------------------------------------------------------------
  // The meter

  class Meter {
    /** The configured AES key; empty when none was supplied. */
    const key: seq<byte>
    var totalEnergyKwh: int
    var currentPowerKw: int
    var totalVolumeM3: int

    constructor (key: seq<byte>)
      ensures this.key == key && State() == Initial
    {
      this.key := key;
      totalEnergyKwh, currentPowerKw, totalVolumeM3 := 0, 0, 0;
    }

    /** The three kept values as one state. */
    function State(): MeterState
      reads this
    {
      MeterState(totalEnergyKwh, currentPowerKw, totalVolumeM3)
    }

    /** `useAes()`: the meter decrypts when it has a key. */
    predicate UseAes() {
      key != []
    }

    /** `totalEnergyConsumption`: only an energy unit may be asked for. */
    function TotalEnergyConsumption(u: Unit): (v: int)
      reads this
      requires IsQuantity(u, Energy)
      ensures v == State().totalEnergyKwh
    {
      totalEnergyKwh
    }

    /** `currentPowerConsumption`: only a power unit may be asked for. */
    function CurrentPowerConsumption(u: Unit): (v: int)
      reads this
      requires IsQuantity(u, Power)
      ensures v == State().currentPowerKw
    {
      currentPowerKw
    }

    /** `totalVolume`: only a volume unit may be asked for. */
    function TotalVolume(u: Unit): (v: int)
      reads this
      requires IsQuantity(u, Volume)
      ensures v == State().totalVolumeM3
    {
      totalVolumeM3
    }

    /** `currentPeriodEnergyConsumption`: not reported by this meter, always 0. */
    function CurrentPeriodEnergyConsumption(u: Unit): (v: int)
      ensures v == 0
    {
      0
    }

    /** `previousPeriodEnergyConsumption`: not reported by this meter, always 0. */
    function PreviousPeriodEnergyConsumption(u: Unit): (v: int)
      ensures v == 0
    {
      0
    }

    /** `processContent`: explains the consumed byte ranges of the content
        with a cursor that starts at offset 0, and stores the values the
        frame carries. */
    method ProcessContent(t: Telegram) returns (warnings: seq<Warning>)
      requires Readable(t.content)
      modifies this, t`explanations
      ensures State() == Step(old(State()), t.content)
      ensures t.explanations == old(t.explanations) + Trail(t.content)
      ensures warnings == FrameWarnings(t.content)
    {
      var c := t.content;
      var bytes: nat := 0;

      var crc0 := c[0];
      var crc1 := c[1];
      assert [crc0, crc1] == c[..2];
      bytes := t.AddExplanation(bytes, 2, PayloadCrc([crc0, crc1]));
      var frameType := c[2];
      bytes := t.AddExplanation(bytes, 1, FrameType(frameType));
      ghost var header := [Explanation(0, 2, PayloadCrc(c[..2])), Explanation(2, 1, FrameType(c[2]))];
      assert t.explanations == old(t.explanations) + header;

      if frameType == 0x79 {
        EnergyVolumeTrail(c);
        bytes := ProcessEnergyVolumeFrame(t);
        warnings := [];
      } else if frameType == 0x78 {
        PowerTrail(c);
        bytes := ProcessPowerFrame(t);
        warnings := [];
      } else {
        warnings := [UnknownFrame(frameType)];
        UnrecognisedTrail(c);
      }
    }

    /** The 0x79 branch of `processContent`. Its cursor starts behind the
        three header bytes and is returned where the last record ends, at
        the explained length of the frame type. */
    method ProcessEnergyVolumeFrame(t: Telegram) returns (bytes: nat)
      requires Readable(t.content) && t.content[2] == EnergyVolumeFrame
      modifies this, t`explanations
      ensures State() == Step(old(State()), t.content)
      ensures t.explanations == old(t.explanations) + Trail(t.content)[2..]
      ensures bytes == ExplainedLength(EnergyVolumeFrame)
    {
      var c := t.content;
      bytes := 3;
      bytes := t.AddExplanation(bytes, 4, UnknownBytes(c[3..7]));

      var rec1val0: int := c[7];
      var rec1val1: int := c[8];
      var rec1val2: int := c[9];

      bytes := t.AddExplanation(bytes, 4, UnknownBytes(c[10..13]));

      var totalEnergyRaw := rec1val2 * 256 * 256 + rec1val1 * 256 + rec1val0;
      totalEnergyKwh := totalEnergyRaw;
      bytes := t.AddExplanation(bytes, 3, TotalEnergy(c[7..10], totalEnergyRaw));

      var rec2val0: int := c[13];
      var rec2val1: int := c[14];
      var rec2val2: int := c[15];

      var totalVolumeRaw := rec2val2 * 256 * 256 + rec2val1 * 256 + rec2val0;
      totalVolumeM3 := totalVolumeRaw;
      bytes := t.AddExplanation(bytes, 3, Note.TotalVolume(c[13..16], totalVolumeRaw));
      EnergyVolumeTrail(c);
    }

    /** The 0x78 branch of `processContent`. Its cursor starts behind the
        three header bytes and is returned where the last record ends, at
        the explained length of the frame type. */
    method ProcessPowerFrame(t: Telegram) returns (bytes: nat)
      requires Readable(t.content) && t.content[2] == PowerFrame
      modifies this, t`explanations
      ensures State() == Step(old(State()), t.content)
      ensures t.explanations == old(t.explanations) + Trail(t.content)[2..]
      ensures bytes == ExplainedLength(PowerFrame)
    {
      var c := t.content;
      bytes := 3;
      var unknowns := c[3..24];
      bytes := t.AddExplanation(bytes, 23 - 2, UnknownBytes(unknowns));

      var rec1val0: int := c[24];
      var rec1val1: int := c[25];

      var currentPowerRaw := (rec1val1 * 256 + rec1val0) * 100;
      currentPowerKw := currentPowerRaw;
      bytes := t.AddExplanation(bytes, 2, CurrentPower(c[24..26], currentPowerRaw));
      PowerTrail(c);
    }

    /** `handleTelegram`: ignores telegrams addressed to other meters
        (`forMe` is the answer of the address filter); otherwise warns when
        an encrypted, non-simulated telegram arrives without a key, sets the
        content to the decrypted payload when a key is used and to the
        payload itself when not, and decodes the content. `decrypt` stands
        for the AES-CTR decryption with the meter's key. */
    method HandleTelegram(t: Telegram, forMe: bool, decrypt: (seq<byte>, seq<byte>) -> seq<byte>) returns (warnings: seq<Warning>)
      requires forMe ==> Readable(if UseAes() then decrypt(t.payload, key) else t.payload)
      modifies this, t`content, t`explanations
      ensures !forMe ==>
        warnings == [] && State() == old(State()) &&
        t.content == old(t.content) && t.explanations == old(t.explanations)
      ensures forMe ==> t.content == if UseAes() then decrypt(t.payload, key) else t.payload
      ensures forMe ==> !UseAes() ==> t.content == t.payload
      ensures forMe ==> State() == Step(old(State()), t.content)
      ensures forMe ==> t.explanations == old(t.explanations) + Trail(t.content)
      ensures forMe ==>
        warnings == (if t.encrypted && !UseAes() && !t.simulated then [EncryptedWithoutKey] else []) + FrameWarnings(t.content)
    {
      if !forMe {
        return [];
      }
      warnings := [];
      if t.encrypted && !UseAes() && !t.simulated {
        warnings := [EncryptedWithoutKey];
      }
      if UseAes() {
        t.content := decrypt(t.payload, key);
      } else {
        t.content := t.payload;
      }
      var frameWarnings := ProcessContent(t);
      warnings := warnings + frameWarnings;
    }
  }

  // ---------------------------------------------------------------------
  // Clients of the meter

  /** A keyless meter handed a plain 0x79 telegram with energy 10 and volume
      20 reports those and keeps its power. */
  method ReceiveEnergyVolumeTelegram(m: Meter, decrypt: (seq<byte>, seq<byte>) -> seq<byte>)
    requires !m.UseAes()
    modifies m
    ensures m.State() == old(m.State()).(totalEnergyKwh := 10, totalVolumeM3 := 20)
  {
    var content := EnergyVolumeContent([0, 0], [1, 2, 3, 4], 10, [5, 6, 7], 20);
    var t := new Telegram(content, false, false);
    var warnings := m.HandleTelegram(t, true, decrypt);
    assert warnings == [];
    DecodeEnergyVolumeContent([0, 0], [1, 2, 3, 4], 10, [5, 6, 7], 20);
  }

  /** A keyless meter handed a plain 0x78 telegram whose raw power is 5
      reports 500 and keeps its energy and volume. */
  method ReceivePowerTelegram(m: Meter, decrypt: (seq<byte>, seq<byte>) -> seq<byte>)
    requires !m.UseAes()
    modifies m
    ensures m.State() == old(m.State()).(currentPowerKw := 500)
  {
    var unknowns := seq(21, _ => 0);
    var content := PowerContent([0, 0], unknowns, 5);
    var t := new Telegram(content, false, false);
    var warnings := m.HandleTelegram(t, true, decrypt);
    assert warnings == [];
    DecodePowerContent([0, 0], unknowns, 5);
  }

  /** A new keyless meter that receives both telegrams reports the values of
      both through its getters, each in its canonical unit. */
  method TwoTelegrams(decrypt: (seq<byte>, seq<byte>) -> seq<byte>) returns (energy: int, volume: int, power: int)
    ensures energy == 10 && volume == 20 && power == 500
  {
    var m := new Meter([]);
    ReceiveEnergyVolumeTelegram(m, decrypt);
    ReceivePowerTelegram(m, decrypt);
    EnergyUnits(KWH);
    VolumeUnits(M3);
    PowerUnits(KW);
    energy := m.TotalEnergyConsumption(KWH);
    volume := m.TotalVolume(M3);
    power := m.CurrentPowerConsumption(KW);
  }
}
