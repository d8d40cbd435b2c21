// The user-space interface of the servo driver: the calibration record and
// the closed set of control commands (include/servo_uapi.h).
module ServoUapi {

  /** 2^32: C `unsigned int` arithmetic is taken modulo this. */
  const UINT_MOD: int := 0x1_0000_0000

  /** C `int` on the driver's targets. */
  type i32 = x: int | -0x8000_0000 <= x <= 0x7fff_ffff

  /** C `unsigned int`. */
  type u32 = x: int | 0 <= x < 0x1_0000_0000

  /** `struct servo_limits`: the angle range in degrees and the pulse range in
      nanoseconds that the angle range is mapped onto. */
  datatype Limits = Limits(minAngle: i32, maxAngle: i32, minPulseNs: u32, maxPulseNs: u32)

  /** The seven control requests, each with the payload it carries, plus any
      other request code, which the dispatcher refuses. */
  datatype Command =
    | SetAngle(angle: i32)
    | GetAngle
    | SetSpeed(speed: i32)
    | GetSpeed
    | SetLimits(limits: Limits)
    | GetLimits
    | Enable(on: i32)
    | Unsupported(opcode: u32)
  {
    /** Requests whose payload is copied in from the caller before anything else happens. */
    predicate CopiesIn() {
      SetAngle? || SetSpeed? || SetLimits? || Enable?
    }

    /** Requests that only read the state and copy a value out to the caller. */
    predicate IsGetter() {
      GetAngle? || GetSpeed? || GetLimits?
    }
  }
}
