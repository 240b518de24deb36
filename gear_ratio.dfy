/**
  The gear ratio calculator page (app/calculators/gear-ratio/page.tsx): the ideal reduction
  for a desired robot speed, the actual reduction of a pair of gears with the speed it gives
  (the same chain of formulas as the speed calculator), a focus label for the ideal ratio,
  and a verdict comparing the resulting speed with the desired one.
 */
module GearRatioCalculator {
  import opened JsMath
  import SpeedCalculator

  /** Largest speed difference, in ft/s, the page still calls a good match. */
  const MatchTolerance: real := 0.5

  /** Wheel RPM that gives `desiredSpeed` ft/s on a wheel of the given diameter. */
  function DesiredWheelRpm(desiredSpeed: real, wheelDiameter: real): (w: real)
    requires wheelDiameter != 0.0
    ensures SpeedCalculator.SpeedFtPerSec(w, wheelDiameter, 1.0) == desiredSpeed
  {
    var c := SpeedCalculator.WheelCircumference(wheelDiameter);
    var w := (desiredSpeed * 12.0 * 60.0) / c;
    assert w * c == desiredSpeed * 720.0;
    w
  }

  /** The reduction that turns `motorRpm` into the desired wheel RPM. */
  function IdealRatio(motorRpm: real, desiredSpeed: real, wheelDiameter: real): (g: real)
    requires desiredSpeed != 0.0 && wheelDiameter != 0.0
    ensures g * 720.0 * desiredSpeed == motorRpm * Pi * wheelDiameter
  {
    var w := DesiredWheelRpm(desiredSpeed, wheelDiameter);
    assert w * Pi * wheelDiameter == 720.0 * desiredSpeed;
    assert w != 0.0;
    var g := motorRpm / w;
    assert g * 720.0 * desiredSpeed == g * (w * Pi * wheelDiameter) == (g * w) * Pi * wheelDiameter;
    g
  }

  /** Driven teeth over driving teeth. */
  function ActualRatio(drivenGear: real, drivingGear: real): (g: real)
    requires drivingGear != 0.0
    ensures g * drivingGear == drivenGear
    ensures g == 1.0 <==> drivenGear == drivingGear
  {
    drivenGear / drivingGear
  }

  /** Robot speed, in ft/s, through the given pair of gears. */
  function ActualSpeed(motorRpm: real, wheelDiameter: real, drivenGear: real, drivingGear: real): (v: real)
    requires drivingGear != 0.0 && drivenGear != 0.0
    ensures v * 720.0 * drivenGear == motorRpm * Pi * wheelDiameter * drivingGear
  {
    var g := ActualRatio(drivenGear, drivingGear);
    var v := SpeedCalculator.SpeedFtPerSec(motorRpm, wheelDiameter, g);
    assert v * 720.0 * drivenGear == (v * 720.0 * g) * drivingGear;
    v
  }

  /** Only the proportion of the teeth matters: 12:24 and 15:30 are the same 2:1. */
  lemma RatioScaleInvariant(drivenGear: real, drivingGear: real, k: real)
    requires drivingGear != 0.0 && k != 0.0
    ensures ActualRatio(k * drivenGear, k * drivingGear) == ActualRatio(drivenGear, drivingGear)
  {
    var g, h := ActualRatio(drivenGear, drivingGear), ActualRatio(k * drivenGear, k * drivingGear);
    assert (h - g) * (k * drivingGear) == 0.0;
  }

  /** A row of the page's table of common ratios: the ratio and the driving:driven pairs for it. */
  datatype CommonRatio = CommonRatio(ratio: real, pairs: seq<(real, real)>, use: string)

  const CommonRatios: seq<CommonRatio> := [
    CommonRatio(1.0, [(12.0, 12.0), (15.0, 15.0), (24.0, 24.0)], "Maximum speed, minimal torque"),
    CommonRatio(1.5, [(12.0, 18.0), (16.0, 24.0)], "High speed, light torque boost"),
    CommonRatio(2.0, [(12.0, 24.0), (15.0, 30.0)], "Balanced speed and torque"),
    CommonRatio(3.0, [(12.0, 36.0), (16.0, 48.0)], "Good torque, moderate speed"),
    CommonRatio(4.0, [(12.0, 48.0), (15.0, 60.0)], "High torque, reduced speed"),
    CommonRatio(5.0, [(12.0, 60.0), (16.0, 80.0)], "Maximum torque, low speed")
  ]

  /** Every tooth pair the table lists gives, through `ActualRatio`, the ratio of its row. */
  lemma CommonRatiosConsistent()
    ensures forall row, p :: row in CommonRatios && p in row.pairs ==> p.0 != 0.0 && ActualRatio(p.1, p.0) == row.ratio
  {
  }

  /** Round trip: gearing at the ideal ratio gives back exactly the desired speed. */
  lemma IdealRatioRoundTrip(motorRpm: real, desiredSpeed: real, wheelDiameter: real)
    requires motorRpm != 0.0 && desiredSpeed != 0.0 && wheelDiameter != 0.0
    ensures IdealRatio(motorRpm, desiredSpeed, wheelDiameter) != 0.0
    ensures SpeedCalculator.SpeedFtPerSec(motorRpm, wheelDiameter, IdealRatio(motorRpm, desiredSpeed, wheelDiameter)) == desiredSpeed
  {
    var g := IdealRatio(motorRpm, desiredSpeed, wheelDiameter);
    var c := motorRpm * Pi * wheelDiameter;
    assert c != 0.0;
    assert g != 0.0;
    var v := SpeedCalculator.SpeedFtPerSec(motorRpm, wheelDiameter, g);
    assert v * 720.0 * g == c == desiredSpeed * 720.0 * g;
    assert (v - desiredSpeed) * (720.0 * g) == 0.0;
  }

  /** Gears whose actual ratio equals the ideal one give the desired speed. */
  lemma MatchingGearsGiveDesiredSpeed(motorRpm: real, desiredSpeed: real, wheelDiameter: real, drivenGear: real, drivingGear: real)
    requires motorRpm != 0.0 && desiredSpeed != 0.0 && wheelDiameter != 0.0
    requires drivingGear != 0.0 && drivenGear != 0.0
    requires ActualRatio(drivenGear, drivingGear) == IdealRatio(motorRpm, desiredSpeed, wheelDiameter)
    ensures ActualSpeed(motorRpm, wheelDiameter, drivenGear, drivingGear) == desiredSpeed
  {
    IdealRatioRoundTrip(motorRpm, desiredSpeed, wheelDiameter);
  }

  /** With the driving gear fixed, more teeth on the driven gear make the robot slower. */
  lemma MoreDrivenTeethSlower(motorRpm: real, wheelDiameter: real, drivingGear: real, driven1: real, driven2: real)
    requires motorRpm > 0.0 && wheelDiameter > 0.0 && drivingGear > 0.0
    requires 0.0 < driven1 < driven2
    ensures ActualSpeed(motorRpm, wheelDiameter, driven2, drivingGear) < ActualSpeed(motorRpm, wheelDiameter, driven1, drivingGear)
  {
    MoreDrivenTeethHigherRatio(drivingGear, driven1, driven2);
    SpeedCalculator.HigherRatioLowerSpeed(motorRpm, wheelDiameter,
      ActualRatio(driven1, drivingGear), ActualRatio(driven2, drivingGear));
  }

  /** With the driving gear fixed, more driven teeth give a larger (positive) ratio. */
  lemma MoreDrivenTeethHigherRatio(drivingGear: real, driven1: real, driven2: real)
    requires drivingGear > 0.0 && 0.0 < driven1 < driven2
    ensures 0.0 < ActualRatio(driven1, drivingGear) < ActualRatio(driven2, drivingGear)
  {
    var g1, g2 := driven1 / drivingGear, driven2 / drivingGear;
    assert g2 - g1 == (driven2 - driven1) / drivingGear;
  }

  /** The three focus labels of the ideal ratio. */
  datatype RatioFocus = SpeedFocused | Balanced | TorqueFocused

  /** The labels the page renders: each one whose own condition holds. */
  function FocusLabels(idealRatio: real): set<RatioFocus>
  {
    (if idealRatio < 1.5 then {SpeedFocused} else {})
    + (if idealRatio >= 1.5 && idealRatio < 3.0 then {Balanced} else {})
    + (if idealRatio >= 3.0 then {TorqueFocused} else {})
  }

  /** The one label shown: below 1.5, from 1.5 up to 3, from 3 up. */
  function Focus(idealRatio: real): (f: RatioFocus)
    ensures FocusLabels(idealRatio) == {f}
  {
    if idealRatio < 1.5 then SpeedFocused
    else if idealRatio < 3.0 then Balanced
    else TorqueFocused
  }

  /** The verdict badge under the actual configuration. */
  datatype Verdict = GoodMatch | TooFast | TooSlow

  /** The nested conditional of the badge: close enough, else too fast, else too slow. */
  function MatchVerdict(actualSpeed: real, desiredSpeed: real): (v: Verdict)
    ensures v == GoodMatch <==> desiredSpeed - MatchTolerance < actualSpeed < desiredSpeed + MatchTolerance
    ensures v == TooFast <==> actualSpeed >= desiredSpeed + MatchTolerance
    ensures v == TooSlow <==> actualSpeed <= desiredSpeed - MatchTolerance
  {
    if Abs(actualSpeed - desiredSpeed) < MatchTolerance then GoodMatch
    else if actualSpeed > desiredSpeed then TooFast
    else TooSlow
  }

  /** Colour of the "Speed Difference" figure. */
  datatype Colour = Green | Yellow

  function DifferenceColour(actualSpeed: real, desiredSpeed: real): (c: Colour)
    ensures c == Green <==> MatchVerdict(actualSpeed, desiredSpeed) == GoodMatch
  {
    if Abs(actualSpeed - desiredSpeed) < MatchTolerance then Green else Yellow
  }

  /** The page's defaults (6000 RPM, 4 in wheel, 5 ft/s wanted, 12:12 gears). */
  lemma DefaultInputs()
    ensures IdealRatio(6000.0, 5.0, 4.0) == 20.0 * Pi / 3.0
    ensures Focus(IdealRatio(6000.0, 5.0, 4.0)) == TorqueFocused
    ensures ActualRatio(12.0, 12.0) == 1.0
    ensures ActualSpeed(6000.0, 4.0, 12.0, 12.0) == 100.0 * Pi / 3.0
    ensures MatchVerdict(ActualSpeed(6000.0, 4.0, 12.0, 12.0), 5.0) == TooFast
  {
  }
}
