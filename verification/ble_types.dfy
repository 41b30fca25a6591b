/** The sample record of src/types/ble.ts, shared by the decoder and the session accumulator. */
module BleTypes {

  /** One inertial measurement: device time in ms, linear acceleration in m/s^2 and
      angular rate in rad/s. */
  datatype Sample = Sample(tMs: int, ax: real, ay: real, az: real, gx: real, gy: real, gz: real)
}
