# Dual-channel throttle plausibility check

This project models the throttle-signal check of a vehicle control unit's
`SensorInterface`. It covers the behaviour of `SensorInterface::ReadADC()` that
the unit tests in `VehicleControlUnit/UnitTests/test.cpp` pin down. Each cycle
reads one raw 16-bit ADC sample from each of two redundant accelerator-pedal
channels. It maps each sample linearly from the channel's window
`[ThrottleMinPinN, ThrottleMaxPinN]` onto `[0, MaxTorque]`, clamping samples
that lie just outside the window. It rejects a channel whose unclamped sample
is beyond the window by more than `ThrottleSignalOutOfRangeThreshold`. It also
rejects a pair whose two torques differ by more than
`ThrottleSignalDeviationThreshold`. The result is one `{torque, error}` pair
for the data store's driving-input cell. A plausible pair reports the lower of
the two channel torques. Any fault reports `{0, true}`.

The implementation file of `SensorInterface` is not part of this model, so the
model specifies the tested behaviour.

- `settings.dfy` (module `Settings`): the calibration record
  `SensorInterfaceParameters`, the per-channel window `ChannelRange`, and the
  16-bit `Sample` type.
- `data_store.dfy` (module `DataStore`): the driving-input pair and the fault
  value.
- `sensor_interface.dfy` (module `SensorInterface`): the channel mapping, the
  tolerance band, the plausibility predicate and `ReadThrottle`, the pure
  function for one `ReadADC` cycle.
- `throttle_properties.dfy` (module `ThrottleProperties`): general lemmas.
  They relate the integer mapping to the percentage-based definition and show
  that it is monotone. They cover clamping, agreement of consistent channels,
  the exact error condition, a requirements-only characterisation of the
  output, channel symmetry and the lower tolerance bound.
- `throttle_scenarios.dfy` (module `ThrottleScenarios`): one lemma per unit-test
  subcase, using the tests' calibration.

The calibration invariants (`max > min` on each channel, `MaxTorque > 0`) are
preconditions. Calibration values and torques are unbounded naturals. Samples
are restricted to the 16-bit range of the ADC buffer. The tolerance band's
lower bound `min - threshold` is a mathematical integer. When the threshold
exceeds the minimum, the bound is negative and so admits every sample. It does
not wrap around.

The mapping can be stated through percentages, as the real-valued
`clamp((raw - min) / (max - min) * 100, 0, 100) / 100 * MaxTorque`. This
model uses integer arithmetic, `clamp(raw - min, 0, max -
min) * MaxTorque / (max - min)`, which gives every value the tests expect.
`ThrottleProperties.ChannelTorqueIsFloorOfIdeal` proves that this integer
mapping is exactly that real value rounded down. The deviation check
compares the rounded-down torques, so it may accept a pair whose exact
torques are up to, but less than, one unit over the threshold apart
(`ThrottleProperties.FlooredDeviationWithinOneOfExact`).

## Model

| member | source | states |
|---|---|---|
| `SensorInterface.Travel` | VehicleControlUnit/UnitTests/test.cpp:95-116 | A sample's position in its window is clamped to `[0, max - min]`. Samples at or below `min` give 0, samples at or above `max` give the full width, and samples inside the window give their offset from `min`. |
| `SensorInterface.ChannelTorque` | VehicleControlUnit/UnitTests/test.cpp:141-172 | A channel's torque never exceeds `MaxTorque`. It is the linear image of the clamped travel rounded down: `t * width <= travel * MaxTorque < (t + 1) * width`. |
| `SensorInterface.ReadThrottle` | VehicleControlUnit/UnitTests/test.cpp:35-192 | An error always comes with zero torque, and torque never exceeds `MaxTorque`. Either channel outside its tolerance band gives the fault, whatever the other reads. So does a torque deviation above the threshold, and a plausible pair never gives an error. Without an error, the torque is one of the channel torques, no larger than either, and within the deviation threshold of both. |
| `ThrottleProperties.ChannelTorqueIsFloorOfIdeal` | VehicleControlUnit/UnitTests/test.cpp:141-172 | The integer channel torque equals the floor of `clamp((raw - min) / (max - min) * 100, 0, 100) / 100 * MaxTorque` computed in reals. |
| `ThrottleProperties.ChannelTorqueMonotone` | VehicleControlUnit/UnitTests/test.cpp:141-172 | A higher raw sample never gives a lower channel torque. |
| `ThrottleProperties.ChannelTorqueEnds` | VehicleControlUnit/UnitTests/test.cpp:95-116 | A sample at or below `min` maps to torque 0, and a sample at or above `max` maps to `MaxTorque`. |
| `ThrottleProperties.ConsistentChannelsAgree` | VehicleControlUnit/UnitTests/test.cpp:141-172 | If both channels are in tolerance and at the same fraction of their windows, they ask for the same torque. The cycle then reports that torque with no error, whatever the deviation threshold. |
| `ThrottleProperties.ErrorExactlyWhenImplausible` | VehicleControlUnit/UnitTests/test.cpp:35-192 | The error flag is set if and only if a channel is outside its tolerance band or the torque deviation exceeds the threshold. |
| `ThrottleProperties.SlackIsClampedWithoutError` | VehicleControlUnit/UnitTests/test.cpp:95-116 | Both samples between the window's bottom and its lower tolerance bound give `{0, false}`. Both samples between the window's top and its upper tolerance bound give `{MaxTorque, false}`. |
| `ThrottleProperties.ReadThrottleIsTheAcceptableOutput` | VehicleControlUnit/UnitTests/test.cpp:174-192 | The requirements are: an implausible pair gives an error with zero torque; a plausible pair gives no error and a torque equal to one channel torque and no larger than either. A value meets them if and only if it is the cycle's result. |
| `ThrottleProperties.ChannelsAreSymmetric` | VehicleControlUnit/UnitTests/test.cpp:35-93 | Exchanging the channels, calibration included, leaves the result unchanged. |
| `ThrottleProperties.SaturatedLowerBound` | VehicleControlUnit/UnitTests/test.cpp:118-139 | When the threshold is at least a channel's minimum, a sample is in tolerance exactly when it is at most `max + threshold`. |
| `ThrottleProperties.WrappingLowerBoundRejectsEverySample` | VehicleControlUnit/UnitTests/test.cpp:118-139 | Suppose `min < threshold`, the lower bound `min - threshold` is reduced modulo 2^16, and `max + threshold < 2^16 + min - threshold`. Then no sample passes, although every sample up to `max + threshold` is in the saturating band. |
| `ThrottleProperties.IdealTorqueLinearInWindow` | VehicleControlUnit/UnitTests/test.cpp:141-172 | Inside the window, the exact torque times `max - min` equals `(raw - min) * MaxTorque`. |
| `ThrottleProperties.FlooredDeviationWithinOneOfExact` | VehicleControlUnit/UnitTests/test.cpp:174-192 | If the exact torques agree within the threshold, so do the rounded-down ones. If the rounded-down torques agree within the threshold, the exact ones differ by less than threshold + 1. |
| `ThrottleProperties.FlooredDeviationAcceptsExactOverrun` | VehicleControlUnit/UnitTests/test.cpp:174-192 | With windows [1000, 1500] and [1000, 1300], `MaxTorque` 500 and threshold 50, samples 1051/1061 give rounded torques 51/101 and `{51, false}`, although the exact torques differ by more than 50. |
| `ThrottleScenarios.PinZeroBottomOutOfRange` | VehicleControlUnit/UnitTests/test.cpp:37-52 | Samples 475/1500 give `{0, true}`. |
| `ThrottleScenarios.PinOneBottomOutOfRange` | VehicleControlUnit/UnitTests/test.cpp:54-62 | Samples 500/1475 give `{0, true}`. |
| `ThrottleScenarios.PinZeroTopOutOfRange` | VehicleControlUnit/UnitTests/test.cpp:64-72 | Samples 1025/2000 give `{0, true}`. |
| `ThrottleScenarios.PinOneTopOutOfRange` | VehicleControlUnit/UnitTests/test.cpp:74-82 | Samples 1000/2025 give `{0, true}`. |
| `ThrottleScenarios.BothOutOfRange` | VehicleControlUnit/UnitTests/test.cpp:84-92 | Samples 475/1475 give `{0, true}`. |
| `ThrottleScenarios.SlackClampsToZeroPercent` | VehicleControlUnit/UnitTests/test.cpp:97-105 | Samples 485/1485 give `{0, false}`. |
| `ThrottleScenarios.SlackClampsToFullTorque` | VehicleControlUnit/UnitTests/test.cpp:107-115 | Samples 1015/2015 give `{MaxTorque, false}`. |
| `ThrottleScenarios.SpecialCalibrationAsWritten` | VehicleControlUnit/UnitTests/test.cpp:128-138 | With the ordinary calibration, which line 128 passes, samples 0/1475 give `{0, true}`. But channel 0 is then out of band by itself, under either form of the lower bound. |
| `ThrottleScenarios.SpecialCalibrationIntended` | VehicleControlUnit/UnitTests/test.cpp:120-138 | With `min0 = 10`, `threshold = 20`, sample 0 on channel 0 is in band only because the bound saturates. Samples 0/1475 give `{0, true}` from channel 1 alone, and 0/1500 give `{0, false}`. |
| `ThrottleScenarios.HalfTravel` | VehicleControlUnit/UnitTests/test.cpp:143-151 | Samples 750/1750 give `{MaxTorque / 2, false}`. |
| `ThrottleScenarios.QuarterTravel` | VehicleControlUnit/UnitTests/test.cpp:153-161 | Samples 625/1625 give `{125, false}`. |
| `ThrottleScenarios.ThreeQuarterTravel` | VehicleControlUnit/UnitTests/test.cpp:163-171 | Samples 875/1875 give `{375, false}`. |
| `ThrottleScenarios.SmallDeviationReportsLowerTorque` | VehicleControlUnit/UnitTests/test.cpp:174-182 | Samples 740/1760 give channel torques 240/260 and the result `{240, false}`. |
| `ThrottleScenarios.LargeDeviationFaults` | VehicleControlUnit/UnitTests/test.cpp:184-192 | Samples 700/1755 give channel torques 200/255. The deviation of 55 exceeds 50, so the result is `{0, true}`. |

## Left out

- ADC sampling, DMA and the `ADCManager` buffer (`GetBufferByIndex`): each cycle's two samples are plain arguments.
- The data store as a shared object: `ReadThrottle` returns the driving-input pair that `ReadADC` writes. Reader/writer concurrency on the store is not modelled.
- The fault-persistence tracker (`MCUErrorManager`, `implausibleThresholdInterval`) and the MCU command dispatcher (`MCUInterface`). Their code is not part of this model, and their only test is an empty stub, so no behaviour is stated to check against.
- CAN framing and transmission, the logger, the BMS interface and the `Main` bootstrap (`MainLib.hpp`): I/O, foreign calls and hardware wiring with no logic of this check.
- Floating-point percentages: the source's rounding is not visible. The model uses integer floor division and proves it equal to the floor of the exact real value.
- ReadThrottle: judges the deviation on the rounded-down channel torques, not the exact ones, because the tests' expected torques are integers and the source's rounding is not visible. It may therefore accept a pair whose exact torques differ by more than the threshold, by less than one unit (`FlooredDeviationWithinOneOfExact`, `FlooredDeviationAcceptsExactOverrun`).
- Integer widths of the calibration fields and of the stored torque: `settings.hpp` is not part of this model. Calibration values and torques are unbounded naturals, so an overflow of `travel * MaxTorque` in a narrow type is not modelled.
- Rejection of an invalid calibration at construction: the source's handling is not visible. The calibration invariants are preconditions of every operation.

## Findings

| source | as written | input that shows it | evidently intended | confidence | as-written member | corrected member |
|---|---|---|---|---|---|---|
| VehicleControlUnit/UnitTests/test.cpp:128 | `sensorInterfaceSpecial` is built from `sensorInterfaceParams`, so the `min0 = 10` calibration set up on lines 120-127 is never used. | Samples 0/1475 give `{0, true}` with the ordinary calibration, because channel 0 is itself out of band. So the subcase passes whether or not the lower bound saturates. Samples 0/1500 separate the two readings. | Build `sensorInterfaceSpecial` from `sensorInterfaceParamsSpecial`. Then channel 0 at 0 is in band and the fault comes from channel 1 alone. | high; not executed | `ThrottleScenarios.SpecialCalibrationAsWritten` | `ThrottleScenarios.SpecialCalibrationIntended` |
