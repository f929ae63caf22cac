/** Calibration arithmetic and state: CalibrationManager.
    A raw distance becomes an adjusted distance by adding the user offset in
    16-bit signed arithmetic and clamping at 0; thickness is the zero point minus
    the adjusted distance, clamped at 0; rise is the relative thickness growth. */
module Calibration {
  import opened Ints

  function ClampNonNegative(x: int): nat {
    if x < 0 then 0 else x
  }

  /** `int16_t adjusted = raw + offset`, clamped at 0: the value both setters store
      and the thickness computation subtracts. */
  function AdjustedDistance(raw: uint16, offset: int16): (d: uint16)
    ensures d <= INT16_MAX
    ensures InInt16(raw + offset) ==> d == ClampNonNegative(raw + offset)
  {
    ClampNonNegative(ToInt16(raw + offset))
  }

  /** The manager counts as calibrated only with the flag set and a positive zero point. */
  predicate CalibratedState(calibrated: bool, zeroPoint: uint16) {
    calibrated && zeroPoint > 0
  }

  /** calculateDoughThickness: 0 when not calibrated, else the zero point minus the
      adjusted distance, stored into an int16_t and clamped at 0. */
  function DoughThickness(calibrated: bool, zeroPoint: uint16, offset: int16, distance: uint16): (t: uint16)
    ensures !CalibratedState(calibrated, zeroPoint) ==> t == 0
    ensures t <= INT16_MAX
  {
    if !CalibratedState(calibrated, zeroPoint) then 0
    else ClampNonNegative(ToInt16(zeroPoint - AdjustedDistance(distance, offset)))
  }

  /** Without 16-bit overflow, thickness is `max(0, zeroPoint - max(0, distance + offset))`:
      never more than the zero point, and larger the closer the surface is to the sensor. */
  lemma DoughThicknessSpec(calibrated: bool, zeroPoint: uint16, offset: int16, distance: uint16)
    requires CalibratedState(calibrated, zeroPoint) && zeroPoint <= INT16_MAX
    requires InInt16(distance + offset)
    ensures DoughThickness(calibrated, zeroPoint, offset, distance)
            == ClampNonNegative(zeroPoint - ClampNonNegative(distance + offset))
    ensures DoughThickness(calibrated, zeroPoint, offset, distance) <= zeroPoint
  {
  }

  /** For a fixed calibration, thickness never increases as the measured distance grows. */
  lemma DoughThicknessMonotone(calibrated: bool, zeroPoint: uint16, offset: int16, near: uint16, far: uint16)
    requires zeroPoint <= INT16_MAX
    requires near <= far && InInt16(far + offset)
    ensures DoughThickness(calibrated, zeroPoint, offset, far) <= DoughThickness(calibrated, zeroPoint, offset, near)
  {
  }

  /** getInitialDoughThickness as written: the `uint16_t` subtraction wraps when the
      dough reading lies beyond the zero point. */
  function InitialDoughThicknessAsWritten(zeroPoint: uint16, doughHeight: uint16): (t: uint16)
    ensures zeroPoint == 0 || doughHeight == 0 ==> t == 0
    ensures 0 < doughHeight <= zeroPoint ==> t == zeroPoint - doughHeight
  {
    if zeroPoint == 0 || doughHeight == 0 then 0 else ToUInt16(zeroPoint - doughHeight)
  }

  /** With both references set and the dough reading beyond the zero point, the code
      as written reports a thickness larger than the whole container depth. */
  lemma InitialThicknessWraps(zeroPoint: uint16, doughHeight: uint16)
    requires 0 < zeroPoint < doughHeight
    ensures InitialDoughThicknessAsWritten(zeroPoint, doughHeight) == 0x1_0000 + zeroPoint - doughHeight
    ensures InitialDoughThicknessAsWritten(zeroPoint, doughHeight) > zeroPoint
  {
  }

  /** Initial dough thickness as intended: 0 when either reference is unset or the
      configuration is physically impossible, else the zero point minus the dough height. */
  function InitialDoughThickness(zeroPoint: uint16, doughHeight: uint16): (t: uint16)
    ensures t <= zeroPoint
    ensures t > 0 <==> 0 < doughHeight < zeroPoint
    ensures doughHeight <= zeroPoint ==> t == InitialDoughThicknessAsWritten(zeroPoint, doughHeight)
  {
    if zeroPoint == 0 || doughHeight == 0 || doughHeight >= zeroPoint then 0
    else zeroPoint - doughHeight
  }

  /** calculateRisePercentage, with the float quotient idealised as a real number. */
  function RisePercentage(current: uint16, initial: uint16): (r: real)
    ensures initial == 0 ==> r == 0.0
    ensures initial > 0 ==> r * initial as real == 100.0 * (current - initial) as real
  {
    if initial == 0 then 0.0
    else ((current - initial) as real / initial as real) * 100.0
  }

  /** The sign of the rise follows the comparison of the thicknesses, and each
      notification threshold corresponds to a whole-number ratio of them. */
  lemma RisePercentageSpec(current: uint16, initial: uint16)
    ensures initial == 0 ==> RisePercentage(current, initial) == 0.0
    ensures initial > 0 ==> (RisePercentage(current, initial) < 0.0 <==> current < initial)
    ensures initial > 0 ==> (RisePercentage(current, initial) == 0.0 <==> current == initial)
    ensures initial > 0 ==> (RisePercentage(current, initial) >= 50.0 <==> 2 * current >= 3 * initial)
    ensures initial > 0 ==> (RisePercentage(current, initial) >= 100.0 <==> current >= 2 * initial)
    ensures initial > 0 ==> (RisePercentage(current, initial) >= 200.0 <==> current >= 3 * initial)
  {
    if initial > 0 {
      var d := current - initial;
      RiseAtLeast(d, initial, 0);
      RiseAtMost(d, initial, 0);
      RiseAtLeast(d, initial, 50);
      RiseAtLeast(d, initial, 100);
      RiseAtLeast(d, initial, 200);
    }
  }

  lemma RiseAtLeast(d: int, i: int, percent: int)
    requires i > 0
    ensures (d as real / i as real) * 100.0 >= percent as real <==> 100 * d >= percent * i
  {
    var r := (d as real / i as real) * 100.0;
    var ir := i as real;
    assert r * ir == 100.0 * d as real;
    ScaleByPositive(r, ir, percent as real);
    assert percent as real * ir == (percent * i) as real;
    assert 100.0 * d as real == (100 * d) as real;
  }

  lemma RiseAtMost(d: int, i: int, percent: int)
    requires i > 0
    ensures (d as real / i as real) * 100.0 <= percent as real <==> 100 * d <= percent * i
  {
    var r := (d as real / i as real) * 100.0;
    var ir := i as real;
    assert r * ir == 100.0 * d as real;
    ScaleByPositive(r, ir, percent as real);
    assert percent as real * ir == (percent * i) as real;
    assert 100.0 * d as real == (100 * d) as real;
  }

  lemma ScaleByPositive(r: real, i: real, bound: real)
    requires i > 0.0
    ensures r >= bound <==> r * i >= bound * i
    ensures r <= bound <==> r * i <= bound * i
  {
  }

  /** The scalars the manager keeps in the "dough" namespace of the durable store. */
  datatype CalibrationRecord = CalibrationRecord(zeroPoint: uint16, doughHeight: uint16, offsetMm: int16, calibTime: uint32)

  /** What every key reads as after the namespace is cleared. */
  const CLEARED_RECORD := CalibrationRecord(0, 0, 0, 0)

  class CalibrationManager {
    var zeroPoint: uint16
    var doughHeight: uint16
    var offsetMm: int16
    var calibrationTime: uint32
    var calibrated: bool
    /** Contents of the durable store's "dough" namespace. */
    var stored: CalibrationRecord

    /** A positive zero point is only ever present together with the calibrated flag. */
    ghost predicate Valid()
      reads this
    {
      zeroPoint > 0 ==> calibrated
    }

    function Record(): CalibrationRecord
      reads this
    {
      CalibrationRecord(zeroPoint, doughHeight, offsetMm, calibrationTime)
    }

    function IsCalibrated(): (b: bool)
      reads this
      ensures Valid() ==> (b <==> zeroPoint > 0)
    {
      CalibratedState(calibrated, zeroPoint)
    }

    /** A fresh manager over whatever the store holds; nothing is loaded yet. */
    constructor (nvs: CalibrationRecord)
      ensures Valid() && Record() == CLEARED_RECORD && !calibrated && stored == nvs
    {
      zeroPoint, doughHeight, offsetMm, calibrationTime := 0, 0, 0, 0;
      calibrated := false;
      stored := nvs;
    }

    /** begin / loadFromNVS: every scalar is read back and the flag is derived from the zero point. */
    method Begin()
      modifies this
      ensures Valid() && Record() == old(stored) && stored == old(stored)
      ensures calibrated == (zeroPoint > 0)
    {
      zeroPoint := stored.zeroPoint;
      doughHeight := stored.doughHeight;
      offsetMm := stored.offsetMm;
      calibrationTime := stored.calibTime;
      calibrated := zeroPoint > 0;
    }

    method Save()
      modifies this`stored
      ensures stored == Record()
    {
      stored := Record();
    }

    method SetZeroPoint(distanceToEmpty: uint16)
      requires Valid()
      modifies this
      ensures Valid() && calibrated
      ensures zeroPoint == AdjustedDistance(distanceToEmpty, offsetMm)
      ensures InInt16(distanceToEmpty + offsetMm) ==> zeroPoint == ClampNonNegative(distanceToEmpty + offsetMm)
      ensures IsCalibrated() <==> AdjustedDistance(distanceToEmpty, offsetMm) > 0
      ensures doughHeight == old(doughHeight) && offsetMm == old(offsetMm) && calibrationTime == old(calibrationTime)
      ensures stored == Record()
    {
      var adjustedDistance := ToInt16(distanceToEmpty + offsetMm);
      if adjustedDistance < 0 {
        adjustedDistance := 0;
      }
      zeroPoint := adjustedDistance;
      calibrated := true;
      Save();
    }

    /** Captures the dough baseline and the clock; no calibrated zero point is required. */
    method SetDoughHeight(distanceToDough: uint16, now: uint32)
      requires Valid()
      modifies this
      ensures Valid()
      ensures doughHeight == AdjustedDistance(distanceToDough, offsetMm)
      ensures InInt16(distanceToDough + offsetMm) ==> doughHeight == ClampNonNegative(distanceToDough + offsetMm)
      ensures calibrationTime == now
      ensures zeroPoint == old(zeroPoint) && calibrated == old(calibrated) && offsetMm == old(offsetMm)
      ensures stored == Record()
    {
      var adjustedDistance := ToInt16(distanceToDough + offsetMm);
      if adjustedDistance < 0 {
        adjustedDistance := 0;
      }
      calibrationTime := now;
      doughHeight := adjustedDistance;
      Save();
    }

    /** The offset applies to later readings only: stored references are not recomputed. */
    method SetOffset(offset: int16)
      requires Valid()
      modifies this
      ensures Valid() && offsetMm == offset
      ensures zeroPoint == old(zeroPoint) && doughHeight == old(doughHeight)
      ensures calibrationTime == old(calibrationTime) && calibrated == old(calibrated)
      ensures stored == Record()
    {
      offsetMm := offset;
      Save();
    }

    /** calculateDoughThickness on the manager's own calibration. */
    function CalculateDoughThickness(currentDistance: uint16): (t: uint16)
      reads this
      ensures !IsCalibrated() ==> t == 0
      ensures t <= INT16_MAX
      ensures IsCalibrated() && zeroPoint <= INT16_MAX && InInt16(currentDistance + offsetMm) ==>
                && t == ClampNonNegative(zeroPoint - ClampNonNegative(currentDistance + offsetMm))
                && t <= zeroPoint
    {
      if IsCalibrated() && zeroPoint <= INT16_MAX && InInt16(currentDistance + offsetMm) then
        DoughThicknessSpec(calibrated, zeroPoint, offsetMm, currentDistance);
        DoughThickness(calibrated, zeroPoint, offsetMm, currentDistance)
      else
        DoughThickness(calibrated, zeroPoint, offsetMm, currentDistance)
    }

    /** getInitialDoughThickness, with the wrap-around of the code as written corrected:
        a dough reading at or beyond the zero point gives 0. */
    function GetInitialDoughThickness(): (t: uint16)
      reads this
      ensures t <= zeroPoint
      ensures t > 0 <==> 0 < doughHeight < zeroPoint
      ensures doughHeight <= zeroPoint ==> t == InitialDoughThicknessAsWritten(zeroPoint, doughHeight)
      ensures doughHeight > zeroPoint ==> t == 0
    {
      InitialDoughThickness(zeroPoint, doughHeight)
    }

    /** Forgets the dough baseline only; zero point, offset and flag are kept. */
    method ResetDoughHeight()
      requires Valid()
      modifies this
      ensures Valid() && doughHeight == 0 && calibrationTime == 0
      ensures zeroPoint == old(zeroPoint) && offsetMm == old(offsetMm) && calibrated == old(calibrated)
      ensures stored == Record()
    {
      doughHeight := 0;
      calibrationTime := 0;
      Save();
    }

    /** Clears every scalar and the flag, and clears the store's namespace. */
    method Reset()
      modifies this
      ensures Valid() && Record() == CLEARED_RECORD && !calibrated
      ensures stored == CLEARED_RECORD
    {
      zeroPoint := 0;
      doughHeight := 0;
      offsetMm := 0;
      calibrationTime := 0;
      calibrated := false;
      stored := CLEARED_RECORD;
    }
  }
}
