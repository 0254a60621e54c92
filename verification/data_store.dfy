/**
 The driving-input cell of the data store: the last torque command derived
 from the throttle sensor and whether that derivation failed.
 */
module DataStore {

  datatype DrivingInput = DrivingInput(torque: nat, error: bool)

  /** What the sensor interface writes when the throttle signal cannot be trusted. */
  const Fault: DrivingInput := DrivingInput(0, true)

  /** A written value is well formed when an error always comes with zero torque. */
  predicate FailSafe(d: DrivingInput) {
    d.error ==> d.torque == 0
  }
}
