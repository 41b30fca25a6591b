/** The device contract of src/config/constants.ts. */
module Constants {

  /** Accelerometer full-scale range, in g (plus or minus). */
  const AccFsG: real := 16.0

  /** Gyroscope full-scale range, in degrees per second (plus or minus). */
  const GyroFsDps: real := 2000.0

  /** Declared sample rate, in Hz. */
  const SampleHz: int := 200

  /** Size of one wire record: a 32-bit timestamp and six 16-bit channels. */
  const BytesPerSample: int := 16

  /** Standard gravity, in m/s^2. */
  const G: real := 9.80665

  /** `Math.PI`, taken as the decimal literal of the double; only its positivity matters here. */
  const Pi: real := 3.141592653589793

  /** Accelerometer scale: m/s^2 per least-significant bit. */
  const AccMps2PerLsb: real := (AccFsG * G) / 32768.0

  /** Gyroscope scale: rad/s per least-significant bit. */
  const GyroRadPerLsb: real := ((GyroFsDps * Pi) / 180.0) / 32768.0
}
