/**
  The torque calculator page (app/calculators/torque/page.tsx): from a motor's stall torque,
  a gear ratio, the number of motors, a wheel diameter (inches) and the robot's weight
  (pounds) to wheel torque, total torque, pushing force, acceleration, a ramp check,
  a four-badge torque rating and the time to cover the first five feet.
 */
module TorqueCalculator {

  /** The drivetrain efficiency the page assumes (90%). */
  const Efficiency: real := 0.9
  /** Pushing force per pound of robot the page asks for before it says a 30° ramp is climbable. */
  const RampForcePerPound: real := 1.5
  /** The distance, in feet, of the "0 to 5 feet" figure. */
  const SprintDistance: real := 5.0

  /** Wheel radius in feet: half the diameter, converted from inches. */
  function WheelRadiusFt(wheelDiameter: real): (r: real)
    ensures 24.0 * r == wheelDiameter
  {
    (wheelDiameter / 2.0) / 12.0
  }

  /** Torque at one wheel after the reduction and the efficiency loss. */
  function WheelTorque(motorTorque: real, gearRatio: real): real
  {
    motorTorque * gearRatio * Efficiency
  }

  /** Torque summed over all driven wheels. */
  function TotalTorque(motorTorque: real, gearRatio: real, numMotors: real): real
  {
    WheelTorque(motorTorque, gearRatio) * numMotors
  }

  /** Pushing force: total torque over the wheel radius, i.e. 24 × torque / diameter. */
  function PushingForce(totalTorque: real, wheelDiameter: real): (f: real)
    requires wheelDiameter != 0.0
    ensures f * wheelDiameter == 24.0 * totalTorque
  {
    var radius := WheelRadiusFt(wheelDiameter);
    var f := totalTorque / radius;
    assert f * wheelDiameter == f * (24.0 * radius) == 24.0 * (f * radius);
    f
  }

  /** Acceleration as force over weight (F = ma with weight standing for mass). */
  function Acceleration(force: real, robotWeight: real): (a: real)
    requires robotWeight != 0.0
    ensures a * robotWeight == force
    ensures robotWeight > 0.0 ==> (a > 0.0 <==> force > 0.0)
  {
    force / robotWeight
  }

  /** The "Can Climb 30° Ramp" check: force strictly above 1.5 × weight. */
  predicate CanClimbRamp(force: real, robotWeight: real)
  {
    force > robotWeight * RampForcePerPound
  }

  /** For a robot of positive weight the ramp check is "acceleration above 1.5". */
  lemma CanClimbRampIffAcceleration(force: real, robotWeight: real)
    requires robotWeight > 0.0
    ensures CanClimbRamp(force, robotWeight) <==> Acceleration(force, robotWeight) > RampForcePerPound
  {
    var a := Acceleration(force, robotWeight);
    if a > RampForcePerPound {
      assert a * robotWeight > RampForcePerPound * robotWeight;
    } else {
      assert a * robotWeight <= RampForcePerPound * robotWeight;
    }
  }

  /** "Higher gear ratios multiply torque": a larger ratio gives more total torque and more force. */
  lemma HigherRatioMoreTorque(motorTorque: real, numMotors: real, wheelDiameter: real, ratio1: real, ratio2: real)
    requires motorTorque > 0.0 && numMotors > 0.0 && wheelDiameter > 0.0
    requires ratio1 < ratio2
    ensures TotalTorque(motorTorque, ratio1, numMotors) < TotalTorque(motorTorque, ratio2, numMotors)
    ensures PushingForce(TotalTorque(motorTorque, ratio1, numMotors), wheelDiameter)
          < PushingForce(TotalTorque(motorTorque, ratio2, numMotors), wheelDiameter)
  {
    var k := motorTorque * Efficiency * numMotors;
    assert k > 0.0;
    assert TotalTorque(motorTorque, ratio1, numMotors) == k * ratio1;
    assert TotalTorque(motorTorque, ratio2, numMotors) == k * ratio2;
    ForceIncreasesWithTorque(k * ratio1, k * ratio2, wheelDiameter);
  }

  /** On a given wheel, more torque means more pushing force. */
  lemma ForceIncreasesWithTorque(torque1: real, torque2: real, wheelDiameter: real)
    requires wheelDiameter > 0.0 && torque1 < torque2
    ensures PushingForce(torque1, wheelDiameter) < PushingForce(torque2, wheelDiameter)
  {
    var f1, f2 := PushingForce(torque1, wheelDiameter), PushingForce(torque2, wheelDiameter);
    assert f1 * wheelDiameter < f2 * wheelDiameter;
  }

  /** "More motors increase torque": with positive per-wheel torque, total torque grows with the motor count. */
  lemma MoreMotorsMoreTorque(motorTorque: real, gearRatio: real, motors1: real, motors2: real)
    requires WheelTorque(motorTorque, gearRatio) > 0.0
    requires motors1 < motors2
    ensures TotalTorque(motorTorque, gearRatio, motors1) < TotalTorque(motorTorque, gearRatio, motors2)
  {
  }

  /** "Smaller wheels increase torque": the same torque on a smaller wheel pushes harder. */
  lemma SmallerWheelMoreForce(totalTorque: real, diameter1: real, diameter2: real)
    requires totalTorque > 0.0 && 0.0 < diameter1 < diameter2
    ensures PushingForce(totalTorque, diameter2) < PushingForce(totalTorque, diameter1)
  {
    var f1, f2 := PushingForce(totalTorque, diameter1), PushingForce(totalTorque, diameter2);
    assert f2 > 0.0;
    assert f2 * diameter1 < f2 * diameter2 == f1 * diameter1;
  }

  /** The four badges of the torque rating. */
  datatype TorqueRating = Low | Moderate | High | VeryHigh

  /** The badges the page renders: each one whose own condition holds. */
  function TorqueBadges(totalTorque: real): set<TorqueRating>
  {
    (if totalTorque < 10.0 then {Low} else {})
    + (if totalTorque >= 10.0 && totalTorque < 20.0 then {Moderate} else {})
    + (if totalTorque >= 20.0 && totalTorque < 40.0 then {High} else {})
    + (if totalTorque >= 40.0 then {VeryHigh} else {})
  }

  /** Position of a badge from weakest to strongest. */
  function TorqueRank(b: TorqueRating): nat
  {
    match b
    case Low => 0
    case Moderate => 1
    case High => 2
    case VeryHigh => 3
  }

  /** The one badge shown for a total torque: the conditions partition the reals. */
  function RateTorque(totalTorque: real): (b: TorqueRating)
    ensures TorqueBadges(totalTorque) == {b}
  {
    if totalTorque < 10.0 then Low
    else if totalTorque < 20.0 then Moderate
    else if totalTorque < 40.0 then High
    else VeryHigh
  }

  /** More torque never gets a weaker badge. */
  lemma RateTorqueMonotone(t1: real, t2: real)
    requires t1 <= t2
    ensures TorqueRank(RateTorque(t1)) <= TorqueRank(RateTorque(t2))
  {
  }

  /**
    The displayed "0 to 5 feet" time is `Math.sqrt(10 / acceleration)`: the `t` with
    t ≥ 0 and t·t = 10 / acceleration (square roots are not computed here).
   */
  predicate IsZeroToFiveTime(acceleration: real, t: real)
    requires acceleration > 0.0
  {
    t >= 0.0 && t * t == 10.0 / acceleration
  }

  /** Such a time is the one in which uniform acceleration from rest covers five feet. */
  lemma ZeroToFiveCoversSprint(acceleration: real, t: real)
    requires acceleration > 0.0 && IsZeroToFiveTime(acceleration, t)
    ensures 0.5 * acceleration * t * t == SprintDistance
  {
    assert acceleration * (t * t) == 10.0;
  }

  /** There is at most one such time. */
  lemma ZeroToFiveTimeUnique(acceleration: real, t1: real, t2: real)
    requires acceleration > 0.0
    requires IsZeroToFiveTime(acceleration, t1) && IsZeroToFiveTime(acceleration, t2)
    ensures t1 == t2
  {
    assert t1 * t1 > 0.0 && t2 * t2 > 0.0;
    assert t1 + t2 > 0.0;
    assert (t1 - t2) * (t1 + t2) == 0.0;
  }

  /** A robot that accelerates harder covers the five feet sooner. */
  lemma ZeroToFiveFasterWhenAcceleratingHarder(a1: real, a2: real, t1: real, t2: real)
    requires 0.0 < a1 < a2
    requires IsZeroToFiveTime(a1, t1) && IsZeroToFiveTime(a2, t2)
    ensures t2 < t1
  {
    assert a1 * (t1 * t1) == 10.0 == a2 * (t2 * t2);
    assert t1 * t1 > t2 * t2 by {
      assert t2 * t2 > 0.0;
      assert a1 * (t2 * t2) < a2 * (t2 * t2);
    }
    assert t1 + t2 > 0.0;
    assert (t1 - t2) * (t1 + t2) > 0.0;
  }

  /** The page's defaults (3.2 Nm, 1:1, 4 motors, 4 in wheels, 40 lb) as the page shows them. */
  lemma DefaultInputs()
    ensures WheelTorque(3.2, 1.0) == 2.88
    ensures TotalTorque(3.2, 1.0, 4.0) == 11.52
    ensures WheelRadiusFt(4.0) * 6.0 == 1.0
    ensures PushingForce(11.52, 4.0) == 69.12
    ensures Acceleration(69.12, 40.0) == 1.728
    ensures CanClimbRamp(69.12, 40.0)
    ensures RateTorque(11.52) == Moderate
  {
  }
}
