/**
 General properties of the throttle plausibility check: the channel mapping
 against its real-valued definition, monotonicity, clamping at the window
 ends, agreement of consistent channels, the exact error condition, channel
 symmetry, and the behaviour of the tolerance band when the threshold
 exceeds a channel's minimum.
 */
module ThrottleProperties {
  import opened Settings
  import opened DataStore
  import opened SensorInterface

  // ---------------------------------------------------------------------
  // Channel mapping
  // ---------------------------------------------------------------------

  function ClampReal(x: real, lo: real, hi: real): real
    requires lo <= hi
  {
    if x < lo then lo else if x > hi then hi else x
  }

  /**
   Pedal travel in percent, exactly:
   clamp((raw - min) / (max - min) * 100, 0, 100), computed in reals.
   */
  function IdealPercentage(c: ChannelRange, raw: int): real
    requires c.Valid()
  {
    ClampReal((raw - c.min) as real / c.Width() as real * 100.0, 0.0, 100.0)
  }

  /** The exact torque a channel asks for: its percentage of `maxTorque`. */
  function IdealTorque(c: ChannelRange, maxTorque: nat, raw: int): real
    requires c.Valid()
  {
    IdealPercentage(c, raw) / 100.0 * maxTorque as real
  }

  /** The integer channel torque is the exact percentage-based torque rounded down. */
  lemma {:induction false} ChannelTorqueIsFloorOfIdeal(c: ChannelRange, maxTorque: nat, raw: int)
    requires c.Valid()
    ensures ChannelTorque(c, maxTorque, raw) == IdealTorque(c, maxTorque, raw).Floor
  {
    var w := c.Width();
    var a := Travel(c, raw);
    var t := ChannelTorque(c, maxTorque, raw);
    var x := (a * maxTorque) as real / w as real;
    IdealIsScaledTravel(c, maxTorque, raw);
    assert IdealTorque(c, maxTorque, raw) == x;
    assert t as real * w as real <= (a * maxTorque) as real;
    assert (a * maxTorque) as real < (t + 1) as real * w as real;
    DivideBounds(t as real, (a * maxTorque) as real, w as real);
  }

  /** The percentage definition equals travel times `maxTorque` over the width, in reals. */
  lemma IdealIsScaledTravel(c: ChannelRange, maxTorque: nat, raw: int)
    requires c.Valid()
    ensures IdealTorque(c, maxTorque, raw)
         == (Travel(c, raw) * maxTorque) as real / c.Width() as real
  {
    var w := c.Width() as real;
    var m := maxTorque as real;
    var a := Travel(c, raw) as real;
    var d := (raw - c.min) as real;
    var f := d / w;
    QuotientBounds(d, w);
    assert (Travel(c, raw) * maxTorque) as real == a * m;
    if raw < c.min {
      assert IdealPercentage(c, raw) == 0.0;
      assert a == 0.0;
    } else if raw > c.max {
      assert IdealPercentage(c, raw) == 100.0;
      assert a == w;
      Cancel(m, w * m, w);
    } else {
      assert IdealPercentage(c, raw) == f * 100.0;
      assert a == d;
      assert d == f * w;
      Cancel(f * m, d * m, w);
    }
  }

  /** Where `d / w` lies relative to 0 and 1, for a positive `w`. */
  lemma QuotientBounds(d: real, w: real)
    requires w > 0.0
    ensures d == d / w * w
    ensures d < 0.0 ==> d / w < 0.0
    ensures 0.0 <= d <= w ==> 0.0 <= d / w <= 1.0
    ensures d > w ==> d / w > 1.0
  {
    var f := d / w;
    assert f * w == d;
    assert (f - 1.0) * w == d - w;
    FactorSign(f, w);
    FactorSign(f - 1.0, w);
  }

  /** `x * w == y` with `w > 0` gives `x == y / w`. */
  lemma Cancel(x: real, y: real, w: real)
    requires w > 0.0
    requires x * w == y
    ensures x == y / w
  {
    var z := y / w;
    assert z * w == y;
    assert (x - z) * w == 0.0;
    FactorSign(x - z, w);
    FactorSign(z - x, w);
  }

  /** From `t * w <= y < (t + 1) * w` and `w > 0`, `y / w` lies in `[t, t + 1)`. */
  lemma DivideBounds(t: real, y: real, w: real)
    requires w > 0.0
    requires t * w <= y < (t + 1.0) * w
    ensures t <= y / w < t + 1.0
  {
    var z := y / w;
    assert (z - t) * w == y - t * w;
    assert ((t + 1.0) - z) * w == (t + 1.0) * w - y;
    FactorSign(z - t, w);
    FactorSign((t + 1.0) - z, w);
  }

  /** A product with a positive factor has the sign of the other factor. */
  lemma FactorSign(a: real, w: real)
    requires w > 0.0
    ensures a * w >= 0.0 <==> a >= 0.0
    ensures a * w > 0.0 <==> a > 0.0
  {
  }

  /** A channel never asks for less torque when its sample rises. */
  lemma {:induction false} ChannelTorqueMonotone(c: ChannelRange, maxTorque: nat, raw: int, raw': int)
    requires c.Valid()
    requires raw <= raw'
    ensures ChannelTorque(c, maxTorque, raw) <= ChannelTorque(c, maxTorque, raw')
  {
    var w := c.Width();
    var a, b := Travel(c, raw), Travel(c, raw');
    var t, t' := ChannelTorque(c, maxTorque, raw), ChannelTorque(c, maxTorque, raw');
    MulMonotone(a, b, maxTorque);
    assert t * w < (t' + 1) * w;
    CancelRight(t, t' + 1, w);
  }

  lemma MulMonotone(a: int, b: int, k: nat)
    requires a <= b
    ensures a * k <= b * k
  {
    assert b * k - a * k == (b - a) * k;
  }

  /**
   The window ends map onto the torque range's ends, and samples between the
   window and the tolerance bound are clamped onto them.
   */
  lemma ChannelTorqueEnds(c: ChannelRange, maxTorque: nat, raw: int)
    requires c.Valid()
    ensures raw <= c.min ==> ChannelTorque(c, maxTorque, raw) == 0
    ensures raw >= c.max ==> ChannelTorque(c, maxTorque, raw) == maxTorque
  {
  }

  /**
   Two channels standing at the same fraction of their windows ask for the
   same torque: `a0 / w0 == a1 / w1` gives `a0 * m / w0 == a1 * m / w1`.
   */
  lemma {:induction false} SameFractionSameTorque(a0: nat, w0: nat, a1: nat, w1: nat, m: nat)
    requires w0 > 0 && w1 > 0
    requires a0 * w1 == a1 * w0
    ensures a0 * m / w0 == a1 * m / w1
  {
    var q := a0 * m / w0;
    var r := a0 * m % w0;
    assert a0 * m == q * w0 + r && 0 <= r < w0;
    // Scale the division identity for channel 0 by w1 and rewrite with a0 * w1 == a1 * w0.
    var n := a1 * m;
    assert n * w0 == q * w0 * w1 + r * w1 by {
      assert n * w0 == (a1 * w0) * m;
      assert (a0 * w1) * m == (a0 * m) * w1;
      assert (q * w0 + r) * w1 == q * w0 * w1 + r * w1;
    }
    MulMonotone(0, r, w1);
    MulMonotone(r, w0 - 1, w1);
    assert (q * w1) * w0 <= n * w0;
    assert n * w0 < ((q + 1) * w1) * w0;
    CancelRight(q * w1, n, w0);
    CancelRight(n, (q + 1) * w1, w0);
    DivUnique(n, w1, q);
  }

  /** `q * w <= n < (q + 1) * w` pins `q` down as `n / w`. */
  lemma DivUnique(n: int, w: int, q: int)
    requires w > 0
    requires q * w <= n < (q + 1) * w
    ensures n / w == q
  {
    var d := n / w;
    assert d * w <= n < (d + 1) * w;
    if d < q {
      MulMonotone(d + 1, q, w);
    }
    if d > q {
      MulMonotone(q + 1, d, w);
    }
  }

  /** `x * k <= y * k` with `k > 0` gives `x <= y`, and likewise for `<`. */
  lemma CancelRight(x: int, y: int, k: int)
    requires k > 0
    ensures x * k <= y * k ==> x <= y
    ensures x * k < y * k ==> x < y
  {
  }

  // ---------------------------------------------------------------------
  // The combined check
  // ---------------------------------------------------------------------

  /**
   A healthy sensor: both channels inside tolerance and at the same fraction
   of travel. Such a pair never raises an error, and the reported torque is
   the one both channels ask for, whatever the deviation threshold.
   */
  lemma ConsistentChannelsAgree(p: SensorInterfaceParameters, raw0: Sample, raw1: Sample)
    requires p.Valid()
    requires InTolerance(p.Channel0(), p.outOfRangeThreshold, raw0)
    requires InTolerance(p.Channel1(), p.outOfRangeThreshold, raw1)
    requires Travel(p.Channel0(), raw0) * p.Channel1().Width()
          == Travel(p.Channel1(), raw1) * p.Channel0().Width()
    ensures Pin0Torque(p, raw0) == Pin1Torque(p, raw1)
    ensures ReadThrottle(p, raw0, raw1) == DrivingInput(Pin0Torque(p, raw0), false)
  {
    SameFractionSameTorque(Travel(p.Channel0(), raw0), p.Channel0().Width(),
                           Travel(p.Channel1(), raw1), p.Channel1().Width(), p.maxTorque);
  }

  /**
   The error flag is set exactly when a channel leaves its tolerance band or
   the channel torques differ by more than the deviation threshold.
   */
  lemma ErrorExactlyWhenImplausible(p: SensorInterfaceParameters, raw0: Sample, raw1: Sample)
    requires p.Valid()
    ensures ReadThrottle(p, raw0, raw1).error <==>
      || !InTolerance(p.Channel0(), p.outOfRangeThreshold, raw0)
      || !InTolerance(p.Channel1(), p.outOfRangeThreshold, raw1)
      || Deviation(Pin0Torque(p, raw0), Pin1Torque(p, raw1)) > p.deviationThreshold
  {
  }

  /**
   Samples between a window end and its tolerance bound are calibration
   slack: on both channels at once they give zero (bottom) or full (top)
   torque, and no error.
   */
  lemma SlackIsClampedWithoutError(p: SensorInterfaceParameters, raw0: Sample, raw1: Sample)
    requires p.Valid()
    ensures && p.throttleMinPin0 - p.outOfRangeThreshold <= raw0 <= p.throttleMinPin0
            && p.throttleMinPin1 - p.outOfRangeThreshold <= raw1 <= p.throttleMinPin1
            ==> ReadThrottle(p, raw0, raw1) == DrivingInput(0, false)
    ensures && p.throttleMaxPin0 <= raw0 <= p.throttleMaxPin0 + p.outOfRangeThreshold
            && p.throttleMaxPin1 <= raw1 <= p.throttleMaxPin1 + p.outOfRangeThreshold
            ==> ReadThrottle(p, raw0, raw1) == DrivingInput(p.maxTorque, false)
  {
    ChannelTorqueEnds(p.Channel0(), p.maxTorque, raw0);
    ChannelTorqueEnds(p.Channel1(), p.maxTorque, raw1);
  }

  /**
   The requirements on one cycle's output, stated without reference to how
   it is computed: an implausible pair gives zero torque and an error;
   a plausible one gives no error and a torque that is one of the channel
   torques and no larger than either.
   */
  ghost predicate Acceptable(p: SensorInterfaceParameters, raw0: Sample, raw1: Sample, d: DrivingInput)
    requires p.Valid()
  {
    var t0, t1 := Pin0Torque(p, raw0), Pin1Torque(p, raw1);
    var ok := && InTolerance(p.Channel0(), p.outOfRangeThreshold, raw0)
              && InTolerance(p.Channel1(), p.outOfRangeThreshold, raw1)
              && (t0 <= t1 + p.deviationThreshold && t1 <= t0 + p.deviationThreshold);
    && (!ok ==> d.error && d.torque == 0)
    && (ok ==> !d.error && d.torque <= t0 && d.torque <= t1 && (d.torque == t0 || d.torque == t1))
  }

  /** `ReadThrottle` meets the requirements, and is the only output that does. */
  lemma ReadThrottleIsTheAcceptableOutput(p: SensorInterfaceParameters, raw0: Sample, raw1: Sample, d: DrivingInput)
    requires p.Valid()
    ensures Acceptable(p, raw0, raw1, d) <==> d == ReadThrottle(p, raw0, raw1)
  {
  }

  /** Neither channel is privileged: exchanging them, calibration included, changes nothing. */
  lemma ChannelsAreSymmetric(p: SensorInterfaceParameters, raw0: Sample, raw1: Sample)
    requires p.Valid()
    ensures ReadThrottle(p.Swapped(), raw1, raw0) == ReadThrottle(p, raw0, raw1)
  {
  }

  // ---------------------------------------------------------------------
  // Tolerance band with a threshold larger than the minimum
  // ---------------------------------------------------------------------

  /**
   When the threshold is at least the channel minimum, the lower tolerance
   bound is not a constraint: only the upper bound can reject a sample.
   */
  lemma SaturatedLowerBound(c: ChannelRange, threshold: nat, raw: Sample)
    requires c.min <= threshold
    ensures InTolerance(c, threshold, raw) <==> raw <= c.max + threshold
  {
  }

  /**
   The band with the lower bound `min - threshold` reduced modulo 2^16, as
   happens when that bound is stored back into a 16-bit unsigned variable
   before the comparison. (A comparison `raw >= min - threshold` written
   directly on 16-bit C++ operands does not wrap: they are promoted to
   `int` first.)
   */
  predicate InToleranceWrapped16(c: ChannelRange, threshold: nat, raw: int) {
    (c.min - threshold) % 0x1_0000 <= raw <= c.max + threshold
  }

  /**
   A wrapping lower bound turns calibration slack into a permanent fault:
   with `min < threshold` (and the upper bound below the wrapped lower one)
   no sample passes, although every sample up to `max + threshold` is in
   the band.
   */
  lemma WrappingLowerBoundRejectsEverySample(c: ChannelRange, threshold: nat, raw: Sample)
    requires c.Valid()
    requires c.min < threshold
    requires c.max + threshold < 0x1_0000 + c.min - threshold
    ensures !InToleranceWrapped16(c, threshold, raw)
    ensures raw <= c.max + threshold ==> InTolerance(c, threshold, raw)
  {
    assert (c.min - threshold) % 0x1_0000 == 0x1_0000 + c.min - threshold;
  }

  // ---------------------------------------------------------------------
  // Deviation judged on rounded-down torques
  // ---------------------------------------------------------------------

  /** Absolute difference of two exact torques. */
  function RealDeviation(x: real, y: real): (r: real)
    ensures r >= 0.0
    ensures r == x - y || r == y - x
  {
    if x <= y then y - x else x - y
  }

  /**
   The deviation check compares the rounded-down channel torques. It never
   rejects a pair whose exact torques agree within the threshold, and a pair
   it accepts has exact torques less than one unit over the threshold apart.
   */
  lemma {:induction false} FlooredDeviationWithinOneOfExact(p: SensorInterfaceParameters, raw0: Sample, raw1: Sample)
    requires p.Valid()
    ensures RealDeviation(IdealTorque(p.Channel0(), p.maxTorque, raw0),
                          IdealTorque(p.Channel1(), p.maxTorque, raw1)) <= p.deviationThreshold as real
            ==> Deviation(Pin0Torque(p, raw0), Pin1Torque(p, raw1)) <= p.deviationThreshold
    ensures Deviation(Pin0Torque(p, raw0), Pin1Torque(p, raw1)) <= p.deviationThreshold
            ==> RealDeviation(IdealTorque(p.Channel0(), p.maxTorque, raw0),
                              IdealTorque(p.Channel1(), p.maxTorque, raw1)) < p.deviationThreshold as real + 1.0
  {
    var x0 := IdealTorque(p.Channel0(), p.maxTorque, raw0);
    var x1 := IdealTorque(p.Channel1(), p.maxTorque, raw1);
    ChannelTorqueIsFloorOfIdeal(p.Channel0(), p.maxTorque, raw0);
    ChannelTorqueIsFloorOfIdeal(p.Channel1(), p.maxTorque, raw1);
    assert Pin0Torque(p, raw0) as real <= x0 < Pin0Torque(p, raw0) as real + 1.0;
    assert Pin1Torque(p, raw1) as real <= x1 < Pin1Torque(p, raw1) as real + 1.0;
  }

  /** Inside the window the exact torque is linear: `(raw - min) * maxTorque / (max - min)`. */
  lemma IdealTorqueLinearInWindow(c: ChannelRange, maxTorque: nat, raw: int)
    requires c.Valid()
    requires c.min <= raw <= c.max
    ensures IdealTorque(c, maxTorque, raw) * c.Width() as real == ((raw - c.min) * maxTorque) as real
  {
    IdealIsScaledTravel(c, maxTorque, raw);
    QuotientBounds(((raw - c.min) * maxTorque) as real, c.Width() as real);
  }

  /** Windows [1000, 1500] and [1000, 1300], torque range 500, deviation threshold 50. */
  const UnequalWindows: SensorInterfaceParameters :=
    SensorInterfaceParameters(
      throttleMinPin0 := 1000, throttleMaxPin0 := 1500,
      throttleMinPin1 := 1000, throttleMaxPin1 := 1300,
      maxTorque := 500,
      outOfRangeThreshold := 20,
      deviationThreshold := 50)

  /**
   The one-unit slack is reached: samples 1051/1061 give rounded torques 51
   and 101, which pass, although the exact torques 51 and 30500/300 differ
   by more than 50.
   */
  lemma FlooredDeviationAcceptsExactOverrun()
    ensures UnequalWindows.Valid()
    ensures Pin0Torque(UnequalWindows, 1051) == 51 && Pin1Torque(UnequalWindows, 1061) == 101
    ensures ReadThrottle(UnequalWindows, 1051, 1061) == DrivingInput(51, false)
    ensures RealDeviation(IdealTorque(UnequalWindows.Channel0(), UnequalWindows.maxTorque, 1051),
                          IdealTorque(UnequalWindows.Channel1(), UnequalWindows.maxTorque, 1061)) > 50.0
  {
    IdealTorqueLinearInWindow(UnequalWindows.Channel0(), UnequalWindows.maxTorque, 1051);
    IdealTorqueLinearInWindow(UnequalWindows.Channel1(), UnequalWindows.maxTorque, 1061);
  }
}
