/**
  The speed calculator page (app/calculators/speed/page.tsx): from a motor's free speed,
  a wheel diameter and a gear ratio to wheel speed, linear speed in several units, the
  time to cross a competition field, and a four-badge speed rating.
  Lengths are in inches unless a name says feet; speeds in feet per second unless named.
 */
module SpeedCalculator {
  import opened JsMath

  const InchesPerFoot: real := 12.0
  const SecondsPerMinute: real := 60.0
  /** Metres in one foot: the factor from ft/s to m/s. */
  const MetersPerFoot: real := 0.3048
  /** The page's factor from ft/s to mph. */
  const MphPerFootPerSecond: real := 0.681818
  /** Field lengths in feet. */
  const FtcFieldLength: real := 12.0
  const FrcFieldLength: real := 54.0

  /** Circumference of a wheel of the given diameter. */
  function WheelCircumference(wheelDiameter: real): real
  {
    Pi * wheelDiameter
  }

  /** Wheel speed in RPM behind a reduction of `gearRatio`:1. */
  function WheelRpm(motorRpm: real, gearRatio: real): (r: real)
    requires gearRatio != 0.0
    ensures r * gearRatio == motorRpm
    ensures r == motorRpm <==> motorRpm == 0.0 || gearRatio == 1.0
  {
    motorRpm / gearRatio
  }

  /** Distance the tread covers per minute, in inches. */
  function InchesPerMinute(wheelRpm: real, circumference: real): real
  {
    wheelRpm * circumference
  }

  /** Inches per minute to feet per second: divide by 12, then by 60. */
  function FeetPerSecond(inchesPerMinute: real): (r: real)
    ensures r * InchesPerFoot * SecondsPerMinute == inchesPerMinute
  {
    inchesPerMinute / InchesPerFoot / SecondsPerMinute
  }

  /** The page's maximum speed, in feet per second, as the chain of lines 26-29. */
  function SpeedFtPerSec(motorRpm: real, wheelDiameter: real, gearRatio: real): (r: real)
    requires gearRatio != 0.0
    ensures r * 720.0 * gearRatio == motorRpm * Pi * wheelDiameter
  {
    var w := WheelRpm(motorRpm, gearRatio);
    var v := FeetPerSecond(InchesPerMinute(w, WheelCircumference(wheelDiameter)));
    assert v * 720.0 == w * (Pi * wheelDiameter);
    assert v * 720.0 * gearRatio == (w * gearRatio) * (Pi * wheelDiameter);
    v
  }

  function MetersPerSecond(feetPerSecond: real): real
  {
    feetPerSecond * MetersPerFoot
  }

  function MilesPerHour(feetPerSecond: real): real
  {
    feetPerSecond * MphPerFootPerSecond
  }

  /** Seconds to drive `fieldLength` feet at `feetPerSecond`. */
  function CrossingTime(fieldLength: real, feetPerSecond: real): (t: real)
    requires feetPerSecond != 0.0
    ensures t * feetPerSecond == fieldLength
    ensures fieldLength > 0.0 && feetPerSecond > 0.0 ==> t > 0.0
  {
    fieldLength / feetPerSecond
  }

  /** The four badges of the speed rating. */
  datatype SpeedRating = Slow | Moderate | Fast | VeryFast

  /** The badges the page renders: each one whose own condition holds. */
  function SpeedBadges(feetPerSecond: real): set<SpeedRating>
  {
    (if feetPerSecond < 3.0 then {Slow} else {})
    + (if feetPerSecond >= 3.0 && feetPerSecond < 6.0 then {Moderate} else {})
    + (if feetPerSecond >= 6.0 && feetPerSecond < 10.0 then {Fast} else {})
    + (if feetPerSecond >= 10.0 then {VeryFast} else {})
  }

  /** Position of a badge from slowest to fastest. */
  function SpeedRank(b: SpeedRating): nat
  {
    match b
    case Slow => 0
    case Moderate => 1
    case Fast => 2
    case VeryFast => 3
  }

  /** The one badge shown for a speed: the four conditions never overlap and leave no gap. */
  function RateSpeed(feetPerSecond: real): (b: SpeedRating)
    ensures SpeedBadges(feetPerSecond) == {b}
  {
    if feetPerSecond < 3.0 then Slow
    else if feetPerSecond < 6.0 then Moderate
    else if feetPerSecond < 10.0 then Fast
    else VeryFast
  }

  /** A faster robot never gets a slower badge. */
  lemma RateSpeedMonotone(v1: real, v2: real)
    requires v1 <= v2
    ensures SpeedRank(RateSpeed(v1)) <= SpeedRank(RateSpeed(v2))
  {
  }

  /** Speed is proportional to wheel diameter. */
  lemma SpeedLinearInDiameter(motorRpm: real, wheelDiameter: real, gearRatio: real, k: real)
    requires gearRatio != 0.0
    ensures SpeedFtPerSec(motorRpm, k * wheelDiameter, gearRatio) == k * SpeedFtPerSec(motorRpm, wheelDiameter, gearRatio)
  {
    var v := SpeedFtPerSec(motorRpm, wheelDiameter, gearRatio);
    var u := SpeedFtPerSec(motorRpm, k * wheelDiameter, gearRatio);
    assert u * (720.0 * gearRatio) == k * (v * (720.0 * gearRatio));
  }

  /** Speed is proportional to motor RPM. */
  lemma SpeedLinearInMotorRpm(motorRpm: real, wheelDiameter: real, gearRatio: real, k: real)
    requires gearRatio != 0.0
    ensures SpeedFtPerSec(k * motorRpm, wheelDiameter, gearRatio) == k * SpeedFtPerSec(motorRpm, wheelDiameter, gearRatio)
  {
    var v := SpeedFtPerSec(motorRpm, wheelDiameter, gearRatio);
    var u := SpeedFtPerSec(k * motorRpm, wheelDiameter, gearRatio);
    assert u * (720.0 * gearRatio) == k * (v * (720.0 * gearRatio));
  }

  /** "Higher ratio = more torque, less speed": a larger ratio gives a slower wheel and robot. */
  lemma HigherRatioLowerSpeed(motorRpm: real, wheelDiameter: real, ratio1: real, ratio2: real)
    requires motorRpm > 0.0 && wheelDiameter > 0.0
    requires 0.0 < ratio1 < ratio2
    ensures WheelRpm(motorRpm, ratio2) < WheelRpm(motorRpm, ratio1)
    ensures SpeedFtPerSec(motorRpm, wheelDiameter, ratio2) < SpeedFtPerSec(motorRpm, wheelDiameter, ratio1)
  {
    var w1, w2 := WheelRpm(motorRpm, ratio1), WheelRpm(motorRpm, ratio2);
    assert w2 * ratio1 < w2 * ratio2 == w1 * ratio1;
    var v1, v2 := SpeedFtPerSec(motorRpm, wheelDiameter, ratio1), SpeedFtPerSec(motorRpm, wheelDiameter, ratio2);
    var c := motorRpm * Pi * wheelDiameter;
    assert c > 0.0;
    assert v2 * 720.0 * ratio1 < v2 * 720.0 * ratio2 == c == v1 * 720.0 * ratio1;
  }

  /** For a forward speed the three displayed figures are ordered m/s < mph < ft/s. */
  lemma UnitOrdering(feetPerSecond: real)
    requires feetPerSecond > 0.0
    ensures 0.0 < MetersPerSecond(feetPerSecond) < MilesPerHour(feetPerSecond) < feetPerSecond
  {
  }

  /** Crossing the 54 ft FRC field takes 4.5 times as long as the 12 ft FTC field. */
  lemma FrcCrossingIsFourAndAHalfFtc(feetPerSecond: real)
    requires feetPerSecond != 0.0
    ensures CrossingTime(FrcFieldLength, feetPerSecond) == 4.5 * CrossingTime(FtcFieldLength, feetPerSecond)
  {
  }

  /** The page's defaults (6000 RPM, 4 in wheel, 1:1): wheel at 6000 RPM, 100π/3 ft/s, "Very Fast". */
  lemma DefaultInputs()
    ensures WheelRpm(6000.0, 1.0) == 6000.0
    ensures SpeedFtPerSec(6000.0, 4.0, 1.0) == 100.0 * Pi / 3.0
    ensures RateSpeed(SpeedFtPerSec(6000.0, 4.0, 1.0)) == VeryFast
  {
  }
}
