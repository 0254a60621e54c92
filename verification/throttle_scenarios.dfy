/**
 The concrete cycles of the "SensorInterface ReadThrottleSignal" unit tests,
 each stated as a lemma about `ReadThrottle` under the tests' calibration.
 */
module ThrottleScenarios {
  import opened Settings
  import opened DataStore
  import opened SensorInterface
  import opened ThrottleProperties

  /** The calibration the tests build the sensor interface with. */
  const TestParams: SensorInterfaceParameters :=
    SensorInterfaceParameters(
      throttleMinPin0 := 500, throttleMaxPin0 := 1000,
      throttleMinPin1 := 1500, throttleMaxPin1 := 2000,
      maxTorque := 500,
      outOfRangeThreshold := 20,
      deviationThreshold := 50)

  /** The calibration whose threshold exceeds channel 0's minimum. */
  const SpecialParams: SensorInterfaceParameters :=
    TestParams.(throttleMinPin0 := 10, throttleMaxPin0 := 510)

  // ---------------------------------------------------------------------
  // A channel beyond its tolerance band
  // ---------------------------------------------------------------------

  lemma PinZeroBottomOutOfRange()
    ensures TestParams.Valid()
    ensures ReadThrottle(TestParams, 475, 1500) == Fault
  {
  }

  lemma PinOneBottomOutOfRange()
    ensures TestParams.Valid()
    ensures ReadThrottle(TestParams, 500, 1475) == Fault
  {
  }

  lemma PinZeroTopOutOfRange()
    ensures TestParams.Valid()
    ensures ReadThrottle(TestParams, 1025, 2000) == Fault
  {
  }

  lemma PinOneTopOutOfRange()
    ensures TestParams.Valid()
    ensures ReadThrottle(TestParams, 1000, 2025) == Fault
  {
  }

  lemma BothOutOfRange()
    ensures TestParams.Valid()
    ensures ReadThrottle(TestParams, 475, 1475) == Fault
  {
  }

  // ---------------------------------------------------------------------
  // Slack inside the tolerance band is clamped
  // ---------------------------------------------------------------------

  lemma SlackClampsToZeroPercent()
    ensures TestParams.Valid()
    ensures ReadThrottle(TestParams, 485, 1485) == DrivingInput(0, false)
  {
  }

  lemma SlackClampsToFullTorque()
    ensures TestParams.Valid()
    ensures ReadThrottle(TestParams, 1015, 2015) == DrivingInput(TestParams.maxTorque, false)
  {
  }

  // ---------------------------------------------------------------------
  // Threshold larger than the minimum
  // ---------------------------------------------------------------------

  /**
   The subcase as written builds its sensor interface from the ordinary
   calibration. Channel 0 at sample 0 is then itself far outside its band,
   so the fault does not come from channel 1 alone, and the calibration has
   no minimum below the threshold: the subcase cannot tell a saturating
   lower bound from a wrapping one.
   */
  lemma SpecialCalibrationAsWritten()
    ensures TestParams.Valid()
    ensures TestParams.throttleMinPin0 >= TestParams.outOfRangeThreshold
    ensures !InTolerance(TestParams.Channel0(), TestParams.outOfRangeThreshold, 0)
    ensures !InToleranceWrapped16(TestParams.Channel0(), TestParams.outOfRangeThreshold, 0)
    ensures ReadThrottle(TestParams, 0, 1475) == Fault
  {
  }

  /**
   The subcase with the calibration it sets up: channel 0 at sample 0 lies
   inside its band because the lower bound saturates (a wrapping bound would
   reject it), and the fault comes from channel 1 alone. The pair (0, 1500)
   is the one that separates the two readings of the bound.
   */
  lemma SpecialCalibrationIntended()
    ensures SpecialParams.Valid()
    ensures SpecialParams.throttleMinPin0 < SpecialParams.outOfRangeThreshold
    ensures InTolerance(SpecialParams.Channel0(), SpecialParams.outOfRangeThreshold, 0)
    ensures !InToleranceWrapped16(SpecialParams.Channel0(), SpecialParams.outOfRangeThreshold, 0)
    ensures !InTolerance(SpecialParams.Channel1(), SpecialParams.outOfRangeThreshold, 1475)
    ensures ReadThrottle(SpecialParams, 0, 1475) == Fault
    ensures ReadThrottle(SpecialParams, 0, 1500) == DrivingInput(0, false)
  {
  }

  // ---------------------------------------------------------------------
  // Linear mapping inside the window
  // ---------------------------------------------------------------------

  lemma HalfTravel()
    ensures TestParams.Valid()
    ensures ReadThrottle(TestParams, 750, 1750) == DrivingInput(TestParams.maxTorque / 2, false)
  {
  }

  lemma QuarterTravel()
    ensures TestParams.Valid()
    ensures ReadThrottle(TestParams, 625, 1625) == DrivingInput(125, false)
  {
  }

  lemma ThreeQuarterTravel()
    ensures TestParams.Valid()
    ensures ReadThrottle(TestParams, 875, 1875) == DrivingInput(375, false)
  {
  }

  // ---------------------------------------------------------------------
  // Deviation between the channels
  // ---------------------------------------------------------------------

  /** Torques 240 and 260 differ by 20, within 50: the lower one is reported. */
  lemma SmallDeviationReportsLowerTorque()
    ensures TestParams.Valid()
    ensures Pin0Torque(TestParams, 740) == 240 && Pin1Torque(TestParams, 1760) == 260
    ensures ReadThrottle(TestParams, 740, 1760) == DrivingInput(240, false)
  {
  }

  /** Torques 200 and 255 differ by 55, beyond 50: a fault. */
  lemma LargeDeviationFaults()
    ensures TestParams.Valid()
    ensures Pin0Torque(TestParams, 700) == 200 && Pin1Torque(TestParams, 1755) == 255
    ensures ReadThrottle(TestParams, 700, 1755) == Fault
  {
  }
}
