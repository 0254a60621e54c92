/**
 The dual-channel throttle plausibility check performed by
 `SensorInterface::ReadADC`: each call takes one raw sample per channel,
 maps both onto a torque, checks the pair for plausibility and yields the
 single `{torque, error}` pair that goes into the driving-input data store.
 */
module SensorInterface {
  import opened Settings
  import opened DataStore

  function Clamp(x: int, lo: int, hi: int): (r: int)
    requires lo <= hi
    ensures lo <= r <= hi
    ensures lo <= x <= hi ==> r == x
  {
    if x < lo then lo else if x > hi then hi else x
  }

  function Min(a: nat, b: nat): nat {
    if a <= b then a else b
  }

  /** Absolute difference of two channel torques. */
  function Deviation(a: nat, b: nat): nat {
    if a <= b then b - a else a - b
  }

  /**
   How far the sample lies inside the channel's window, in raw units.
   Samples slightly outside the window are clamped onto its ends.
   */
  function Travel(c: ChannelRange, raw: int): (a: nat)
    requires c.Valid()
    ensures a <= c.Width()
    ensures raw <= c.min ==> a == 0
    ensures raw >= c.max ==> a == c.Width()
    ensures c.min <= raw <= c.max ==> a == raw - c.min
  {
    Clamp(raw - c.min, 0, c.Width())
  }

  /**
   The torque one channel asks for: its travel mapped linearly from
   [0, Width] onto [0, maxTorque], rounded down.
   */
  function ChannelTorque(c: ChannelRange, maxTorque: nat, raw: int): (t: nat)
    requires c.Valid()
    ensures t <= maxTorque
    ensures t * c.Width() <= Travel(c, raw) * maxTorque < (t + 1) * c.Width()
  {
    var a := Travel(c, raw);
    a * maxTorque / c.Width()
  }

  /**
   The tolerance band of a channel, judged on the unclamped sample. The
   lower bound is mathematical: when the threshold exceeds `min` it is
   negative, so it admits every sample instead of wrapping around.
   */
  predicate InTolerance(c: ChannelRange, threshold: nat, raw: int) {
    c.min - threshold <= raw <= c.max + threshold
  }

  function Pin0Torque(p: SensorInterfaceParameters, raw0: int): nat
    requires p.Valid()
  {
    ChannelTorque(p.Channel0(), p.maxTorque, raw0)
  }

  function Pin1Torque(p: SensorInterfaceParameters, raw1: int): nat
    requires p.Valid()
  {
    ChannelTorque(p.Channel1(), p.maxTorque, raw1)
  }

  /** Both channels inside their tolerance bands and agreeing on torque. */
  predicate Plausible(p: SensorInterfaceParameters, raw0: int, raw1: int)
    requires p.Valid()
  {
    && InTolerance(p.Channel0(), p.outOfRangeThreshold, raw0)
    && InTolerance(p.Channel1(), p.outOfRangeThreshold, raw1)
    && Deviation(Pin0Torque(p, raw0), Pin1Torque(p, raw1)) <= p.deviationThreshold
  }

  /**
   One `ReadADC` cycle: the driving input derived from one sample of each
   channel. A plausible pair reports the lower of the two channel torques;
   anything else reports zero torque with the error flag set.
   */
  function ReadThrottle(p: SensorInterfaceParameters, raw0: Sample, raw1: Sample): (d: DrivingInput)
    requires p.Valid()
    ensures FailSafe(d)
    ensures d.torque <= p.maxTorque
    ensures !InTolerance(p.Channel0(), p.outOfRangeThreshold, raw0) ==> d == Fault
    ensures !InTolerance(p.Channel1(), p.outOfRangeThreshold, raw1) ==> d == Fault
    ensures Deviation(Pin0Torque(p, raw0), Pin1Torque(p, raw1)) > p.deviationThreshold ==> d == Fault
    ensures !d.error ==> d.torque <= Pin0Torque(p, raw0) && d.torque <= Pin1Torque(p, raw1)
    ensures !d.error ==> d.torque == Pin0Torque(p, raw0) || d.torque == Pin1Torque(p, raw1)
    ensures !d.error ==> Pin0Torque(p, raw0) <= d.torque + p.deviationThreshold
    ensures !d.error ==> Pin1Torque(p, raw1) <= d.torque + p.deviationThreshold
    ensures Plausible(p, raw0, raw1) ==> !d.error
  {
    if Plausible(p, raw0, raw1) then
      DrivingInput(Min(Pin0Torque(p, raw0), Pin1Torque(p, raw1)), false)
    else
      Fault
  }
}
