/**
 Calibration of the dual-channel throttle (accelerator pedal) sensor.

 The record mirrors `SensorInterfaceParameters`: one raw window per channel,
 the torque that full pedal travel stands for, and the two plausibility
 thresholds. The record is immutable once the sensor interface is built.
 */
module Settings {

  /** One raw ADC sample: the ADC buffer holds 16-bit unsigned values. */
  type Sample = x: int | 0 <= x < 0x1_0000

  /** The raw values that stand for 0% and 100% pedal travel on one channel. */
  datatype ChannelRange = ChannelRange(min: nat, max: nat)
  {
    /** A usable window has positive width. */
    predicate Valid() {
      min < max
    }

    function Width(): (w: nat)
      requires Valid()
      ensures w > 0
    {
      max - min
    }
  }

  datatype SensorInterfaceParameters = SensorInterfaceParameters(
    throttleMinPin0: nat,
    throttleMaxPin0: nat,
    throttleMinPin1: nat,
    throttleMaxPin1: nat,
    maxTorque: nat,
    outOfRangeThreshold: nat,
    deviationThreshold: nat)
  {
    function Channel0(): ChannelRange {
      ChannelRange(throttleMinPin0, throttleMaxPin0)
    }

    function Channel1(): ChannelRange {
      ChannelRange(throttleMinPin1, throttleMaxPin1)
    }

    /** The calibration invariants: a positive window per channel and a positive torque range. */
    predicate Valid() {
      Channel0().Valid() && Channel1().Valid() && maxTorque > 0
    }

    /** The same calibration with the two channels' roles exchanged. */
    function Swapped(): (q: SensorInterfaceParameters)
      ensures q.Channel0() == Channel1() && q.Channel1() == Channel0()
      ensures Valid() <==> q.Valid()
    {
      this.(throttleMinPin0 := throttleMinPin1, throttleMaxPin0 := throttleMaxPin1,
            throttleMinPin1 := throttleMinPin0, throttleMaxPin1 := throttleMaxPin0)
    }
  }
}
