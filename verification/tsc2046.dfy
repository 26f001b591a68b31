/**
 * The TSC2046 resistive touch controller driver: assembling the 12-bit
 * samples from the SPI reply, normalising them against the calibration
 * rectangle and deciding whether the panel is touched. The SPI exchange is
 * modelled by the command bytes written (`TouchPanel.spiLog`) and by the two
 * reply bytes of each read, which are inputs; chip-select timing is left out.
 */
module Tsc2046 {
  import opened Bits
  import opened Optional

  // Measurement commands.
  const CMD_X: byte := 0x90
  const CMD_Y: byte := 0xD0
  const CMD_Z: byte := 0xB0

  /** The two bytes the controller clocks back after a measurement command. */
  datatype Sample = Sample(hi: byte, lo: byte)

  /**
   * `((buf[0] << 4) | (buf[1] >> 4)) & 0xFFF`: the high byte supplies bits
   * 11..4 and the top nibble of the low byte bits 3..0; for byte inputs the
   * value always fits in 12 bits, so the mask changes nothing.
   */
  function AxisValue(s: Sample): (v: nat)
    ensures v == s.hi * 16 + s.lo / 16
    ensures v < 4096
  {
    assert Pow2(4) == 16 && Pow2(12) == 4096;
    OrDisjoint(s.hi, Shr(s.lo, 4), 4);
    AndLowMask(Shl(s.hi, 4) + Shr(s.lo, 4), 12);
    BitAnd(BitOr(Shl(s.hi, 4), Shr(s.lo, 4)), 0xFFF)
  }

  /** `(x_min, x_max, y_min, y_max)`: raw readings at the edges of the touch area. */
  datatype Calibration = Calibration(xMin: int, xMax: int, yMin: int, yMax: int)

  const DEFAULT_CALIBRATION := Calibration(0, 4095, 0, 4095)

  /** The normalised coordinates and the raw pressure returned by `read`. */
  datatype Reading = Reading(x: real, y: real, z: int)

  /** `max(0.0, min(1.0, v))` */
  function Clamp01(v: real): (r: real)
    ensures 0.0 <= r <= 1.0
    ensures 0.0 <= v <= 1.0 ==> r == v
    ensures v < 0.0 ==> r == 0.0
    ensures v > 1.0 ==> r == 1.0
  {
    var m := if 1.0 < v then 1.0 else v;
    if 0.0 < m then m else 0.0
  }

  /** `(x - x_min) / (x_max - x_min)` before clamping. */
  function RawX(x: int, c: Calibration): real
    requires c.xMax != c.xMin
  {
    (x - c.xMin) as real / (c.xMax - c.xMin) as real
  }

  /** `(y_max - y) / (y_max - y_min)` before clamping: the Y axis is inverted. */
  function RawY(y: int, c: Calibration): real
    requires c.yMax != c.yMin
  {
    (c.yMax - y) as real / (c.yMax - c.yMin) as real
  }

  /**
   * The arithmetic of `read` on raw samples `x`, `y`, `z`. A calibration with
   * equal X (or Y) bounds makes Python's division raise `ZeroDivisionError`,
   * modelled as `None`; otherwise both coordinates land in [0, 1] and the
   * pressure is passed through unchanged.
   */
  function Normalize(x: int, y: int, z: int, c: Calibration): (r: Option<Reading>)
    ensures r.None? <==> c.xMax == c.xMin || c.yMax == c.yMin
    ensures r.Some? ==> 0.0 <= r.value.x <= 1.0 && 0.0 <= r.value.y <= 1.0 && r.value.z == z
  {
    if c.xMax == c.xMin || c.yMax == c.yMin then None
    else Some(Reading(Clamp01(RawX(x, c)), Clamp01(RawY(y, c)), z))
  }

  /**
   * Before clamping the map is affine: the X bounds go to 0 and 1, and the Y
   * bounds the other way round, `y_max` to 0 and `y_min` to 1.
   */
  lemma CalibrationEndpoints(c: Calibration)
    requires c.xMax != c.xMin && c.yMax != c.yMin
    ensures RawX(c.xMin, c) == 0.0 && RawX(c.xMax, c) == 1.0
    ensures RawY(c.yMax, c) == 0.0 && RawY(c.yMin, c) == 1.0
  {
    var dx := (c.xMax - c.xMin) as real;
    var dy := (c.yMax - c.yMin) as real;
    assert dx / dx == 1.0 && 0.0 / dx == 0.0;
    assert dy / dy == 1.0 && 0.0 / dy == 0.0;
  }

  /** A ratio whose numerator lies between zero and its (non-zero) denominator is in [0, 1]. */
  lemma RatioInUnit(a: real, b: real)
    requires b != 0.0
    requires (0.0 <= a <= b) || (b <= a <= 0.0)
    ensures 0.0 <= a / b <= 1.0
  {
    var q := a / b;
    assert q * b == a;
  }

  /**
   * A raw sample between the calibration bounds (in either order, as with
   * the inverted X bounds the controller is used with) is not clamped.
   */
  lemma InsideBoundsNotClamped(x: int, y: int, z: int, c: Calibration)
    requires c.xMax != c.xMin && c.yMax != c.yMin
    requires (c.xMin <= x <= c.xMax) || (c.xMax <= x <= c.xMin)
    requires (c.yMin <= y <= c.yMax) || (c.yMax <= y <= c.yMin)
    ensures Normalize(x, y, z, c) == Some(Reading(RawX(x, c), RawY(y, c), z))
  {
    RatioInUnit((x - c.xMin) as real, (c.xMax - c.xMin) as real);
    RatioInUnit((c.yMax - y) as real, (c.yMax - c.yMin) as real);
  }

  /** With the default calibration every 12-bit sample maps to `x / 4095` and `1 - y / 4095`. */
  lemma DefaultCalibrationScale(x: int, y: int, z: int)
    requires 0 <= x < 4096 && 0 <= y < 4096
    ensures Normalize(x, y, z, DEFAULT_CALIBRATION) ==
      Some(Reading(x as real / 4095.0, (4095 - y) as real / 4095.0, z))
  {
    InsideBoundsNotClamped(x, y, z, DEFAULT_CALIBRATION);
    assert RawX(x, DEFAULT_CALIBRATION) == x as real / 4095.0;
    assert RawY(y, DEFAULT_CALIBRATION) == (4095 - y) as real / 4095.0;
  }

  /** The same for the values assembled from three SPI replies. */
  lemma DefaultCalibrationSamples(sx: Sample, sy: Sample, sz: Sample)
    ensures var x := AxisValue(sx);
      var y := AxisValue(sy);
      var z := AxisValue(sz);
      Normalize(x, y, z, DEFAULT_CALIBRATION) ==
        Some(Reading(x as real / 4095.0, (4095 - y) as real / 4095.0, z))
  {
    DefaultCalibrationScale(AxisValue(sx), AxisValue(sy), AxisValue(sz));
  }

  /** The calibration `init` installs: X bounds swapped, so the X axis is mirrored. */
  const PANEL_CALIBRATION := Calibration(1880, 150, 270, 1830)

  /** With that calibration, raw `(150, 270)` is the corner `(1.0, 1.0)`, whatever the pressure. */
  lemma PanelCalibrationCorner(z: int)
    ensures Normalize(150, 270, z, PANEL_CALIBRATION) == Some(Reading(1.0, 1.0, z))
  {
    assert RawX(150, PANEL_CALIBRATION) == 1.0;
    assert RawY(270, PANEL_CALIBRATION) == 1.0;
  }

  /**
   * `is_touched`: the IRQ line when there is one (active low); otherwise the
   * pressure of a full `read`, which must exceed 100, and which fails when
   * `read` does.
   */
  function TouchDecision(hasIrq: bool, irqLevel: int, reading: Option<Reading>): (r: Option<bool>)
    ensures hasIrq ==> r == Some(irqLevel == 0)
    ensures !hasIrq ==> (r.Some? <==> reading.Some?)
    ensures !hasIrq && reading.Some? ==> (r.value <==> reading.value.z > 100)
  {
    if hasIrq then Some(irqLevel == 0)
    else if reading.None? then None
    else Some(reading.value.z > 100)
  }

  /** The controller as the driver sees it: its calibration and the commands sent so far. */
  class TouchPanel {
    var calib: Calibration
    /** Whether an IRQ pin was given to the constructor. */
    const hasIrq: bool
    var spiLog: seq<byte>

    constructor (hasIrq: bool)
      ensures this.hasIrq == hasIrq && calib == DEFAULT_CALIBRATION && spiLog == []
    {
      this.hasIrq := hasIrq;
      calib := DEFAULT_CALIBRATION;
      spiLog := [];
    }

    /** `set_calibration`: replaces the tuple as given, without any check. */
    method SetCalibration(c: Calibration)
      modifies this`calib
      ensures calib == c
    {
      calib := c;
    }

    /** `_read_axis`: one command byte out, two bytes back. */
    method ReadAxis(cmd: byte, reply: Sample) returns (v: nat)
      modifies this`spiLog
      ensures spiLog == old(spiLog) + [cmd]
      ensures v == AxisValue(reply) && v < 4096
    {
      spiLog := spiLog + [cmd];
      v := AxisValue(reply);
    }

    /** `read`: X, then Y, then pressure, then the normalisation of the first two. */
    method Read(sx: Sample, sy: Sample, sz: Sample) returns (r: Option<Reading>)
      modifies this`spiLog
      ensures spiLog == old(spiLog) + [CMD_X, CMD_Y, CMD_Z]
      ensures r == Normalize(AxisValue(sx), AxisValue(sy), AxisValue(sz), calib)
    {
      var x := ReadAxis(CMD_X, sx);
      var y := ReadAxis(CMD_Y, sy);
      var z := ReadAxis(CMD_Z, sz);
      var c := calib;
      if c.xMax == c.xMin || c.yMax == c.yMin {
        r := None;
      } else {
        var xNorm := (x - c.xMin) as real / (c.xMax - c.xMin) as real;
        var yNorm := (c.yMax - y) as real / (c.yMax - c.yMin) as real;
        xNorm := Clamp01(xNorm);
        yNorm := Clamp01(yNorm);
        r := Some(Reading(xNorm, yNorm, z));
      }
    }

    /** `is_touched`: reads the panel only when there is no IRQ line. */
    method IsTouched(irqLevel: int, sx: Sample, sy: Sample, sz: Sample) returns (r: Option<bool>)
      modifies this`spiLog
      ensures hasIrq ==> spiLog == old(spiLog)
      ensures !hasIrq ==> spiLog == old(spiLog) + [CMD_X, CMD_Y, CMD_Z]
      ensures r == TouchDecision(hasIrq, irqLevel,
        if hasIrq then None else Normalize(AxisValue(sx), AxisValue(sy), AxisValue(sz), calib))
    {
      if hasIrq {
        r := Some(irqLevel == 0);
      } else {
        var reading := Read(sx, sy, sz);
        r := if reading.None? then None else Some(reading.value.z > 100);
      }
    }
  }
}
