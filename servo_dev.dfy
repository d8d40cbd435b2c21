// The driver's device object (`struct servo_dev`, servo.c:22-46) and the
// three routines that update it in place: the write-through helper, the
// motion tick and the request dispatcher. Each method runs as one atomic
// step (the device lock) and is proved to perform exactly the step that
// ServoSpec describes.
module ServoDriver {
  import opened ServoUapi
  import opened PulseMap
  import opened ServoSpec

  class ServoDev {
    var enabled: bool
    var curAngle: i32
    var targetAngle: i32
    var speedDps: i32
    var limits: Limits
    /** The control-loop period in milliseconds; set at probe time only. */
    const tickMs: u32
    /** The motion work item is pending. */
    var armed: bool
    /** The pulse width the PWM output was last configured with. */
    var pulseNs: u32

    /** The device's state as a value. */
    ghost function State(): Servo
      reads this
    {
      Servo(enabled, curAngle, targetAngle, speedDps, limits, tickMs, armed, pulseNs)
    }

    ghost predicate Valid()
      reads this
    {
      Inv(State())
    }

    /** The defaults of servo_probe (servo.c:270-279), after the output has
        been pre-configured for the start angle (servo.c:284-286). */
    constructor ()
      ensures Valid() && State() == Default()
    {
      limits := DefaultLimits;
      curAngle := 90;
      targetAngle := 90;
      speedDps := 0;
      enabled := false;
      tickMs := 20;
      armed := false;
      pulseNs := MapAngleToPulse(DefaultLimits, 90);
    }

    /** servo_apply_angle (servo.c:61-78); `configRet` is what `pwm_config`
        returns. */
    method ApplyAngle(angle: i32, configRet: int) returns (ret: int)
      requires Valid()
      modifies this
      ensures Valid()
      ensures Outcome(State(), ret) == Apply(old(State()), angle, configRet)
    {
      if !enabled {
        return 0;
      }
      var duty := MapAngleToPulse(limits, angle);
      ret := configRet;
      if ret != 0 {
        return ret;
      }
      pulseNs := duty;
      curAngle := angle;
      return 0;
    }

    /** servo_motion_tick (servo.c:81-112); `configRet` is what `pwm_config`
        returns if the tick writes. */
    method MotionTick(configRet: int)
      requires Valid()
      modifies this
      ensures Valid()
      ensures State() == Tick(old(State()), configRet)
    {
      // The work item is running, so it is no longer pending.
      armed := false;
      if enabled && speedDps != 0 && curAngle != targetAngle {
        var stepDeg := U32(U32(speedDps * tickMs) + 500) / 1_000;
        if stepDeg <= 0 {
          stepDeg := 1;
        }
        var delta := targetAngle - curAngle;
        var next: i32;
        if delta > 0 {
          next := curAngle + Min(stepDeg, delta);
        } else {
          next := curAngle - Min(stepDeg, -delta);
        }
        var ignored := ApplyAngle(next, configRet);
      }
      if enabled && speedDps > 0 && curAngle != targetAngle {
        armed := true;
      }
    }

    /** servo_unlocked_ioctl (servo.c:116-224). `copyOk` says whether the
        copy of the payload in, or of the answer out, succeeds; `pwm` holds
        what `pwm_enable` and `pwm_config` return. */
    method Ioctl(cmd: Command, copyOk: bool, pwm: PwmResults) returns (ret: int, out: Output)
      requires Valid()
      modifies this
      ensures Valid()
      ensures Reply(State(), ret, out) == Dispatch(old(State()), cmd, copyOk, pwm)
    {
      ret, out := 0, NoOutput;
      match cmd {
        case Enable(on) =>
          if !copyOk {
            return -EFAULT, NoOutput;
          }
          if on != 0 && !enabled {
            ret := pwm.enableRet;
            if ret == 0 {
              enabled := true;
              var ignored := ApplyAngle(curAngle, pwm.configRet);
              if speedDps > 0 {
                armed := true;
              }
            }
          } else if on == 0 && enabled {
            // cancel_delayed_work_sync, then pwm_disable
            armed := false;
            enabled := false;
          }
        case SetAngle(val) =>
          if !copyOk {
            return -EFAULT, NoOutput;
          }
          targetAngle := Clamp(val, limits.minAngle, limits.maxAngle);
          if !enabled {
            return 0, NoOutput;
          }
          if speedDps == 0 {
            ret := ApplyAngle(targetAngle, pwm.configRet);
          } else {
            armed := true;
          }
        case GetAngle =>
          var val := curAngle;
          if !copyOk {
            return -EFAULT, NoOutput;
          }
          out := IntOut(val);
        case SetSpeed(val) =>
          if !copyOk {
            return -EFAULT, NoOutput;
          }
          speedDps := if val < 0 then 0 else val;
          if enabled && speedDps > 0 && curAngle != targetAngle {
            armed := true;
          }
        case GetSpeed =>
          var val := speedDps;
          if !copyOk {
            return -EFAULT, NoOutput;
          }
          out := IntOut(val);
        case SetLimits(lims) =>
          if !copyOk {
            return -EFAULT, NoOutput;
          }
          if lims.maxAngle <= lims.minAngle {
            return -EINVAL, NoOutput;
          }
          if lims.maxPulseNs <= lims.minPulseNs {
            return -EINVAL, NoOutput;
          }
          limits := lims;
          if enabled {
            ret := ApplyAngle(curAngle, pwm.configRet);
          }
        case GetLimits =>
          var lims := limits;
          if !copyOk {
            return -EFAULT, NoOutput;
          }
          out := LimitsOut(lims);
        case Unsupported(_) =>
          ret := -ENOTTY;
      }
    }
  }

  /** The work queue running the tick `n` times, every write succeeding. */
  method RunTicks(dev: ServoDev, n: nat)
    requires dev.Valid()
    modifies dev
    ensures dev.Valid() && dev.State() == Ramp(old(dev.State()), n)
  {
    ghost var start := dev.State();
    var ticks := 0;
    while ticks < n
      invariant 0 <= ticks <= n
      invariant dev.Valid() && dev.State() == Ramp(start, ticks)
    {
      RampExtends(start, ticks);
      dev.MotionTick(0);
      ticks := ticks + 1;
    }
  }

  /** The opening of the demonstration client's session (tools/servoctl.c):
      enable, 90 deg/s, then a target of 45 degrees, every call succeeding.
      The output sits at the start angle with the default calibration, and a
      ramp is pending. */
  method StartRamp() returns (dev: ServoDev)
    ensures fresh(dev) && dev.Valid()
    ensures dev.enabled && dev.speedDps == 90 && dev.tickMs == 20
    ensures dev.limits == DefaultLimits
    ensures dev.curAngle == 90 && dev.targetAngle == 45 && dev.armed
  {
    dev := new ServoDev();
    var ok := PwmResults(0, 0);
    var ret, out := dev.Ioctl(Enable(1), true, ok);
    ret, out := dev.Ioctl(SetSpeed(90), true, ok);
    ret, out := dev.Ioctl(SetAngle(45), true, ok);
  }

  /** The close of the demonstration client's session once the first ramp
      has arrived: a target of 135 degrees, `k` ticks of the new ramp (the
      first is queued with no delay, so it may run before the next request),
      read the angle back, disable. The read-back angle is where `k` steps of
      2 degrees from 45 have got to, and the device ends disabled with
      nothing pending. */
  method FinishSession(dev: ServoDev, k: nat) returns (angle: Output)
    requires dev.Valid() && dev.enabled && dev.speedDps == 90 && dev.tickMs == 20
    requires dev.limits == DefaultLimits && dev.curAngle == 45
    modifies dev
    ensures dev.Valid() && !dev.enabled && !dev.armed
    ensures angle == IntOut(Min(45 + 2 * k, 135))
  {
    var ok := PwmResults(0, 0);
    var ret, out := dev.Ioctl(SetAngle(135), true, ok);
    ghost var mid := dev.State();
    Ramp45To135(mid, k);
    RunTicks(dev, k);
    ret, angle := dev.Ioctl(GetAngle, true, ok);
    ret, out := dev.Ioctl(Enable(0), true, ok);
  }

  /** The demonstration client's whole session: the opening, `n` ticks during
      its two-second sleep (100 at the nominal 20 ms), then the close with
      `k` ticks before the read-back. Once at least 23 ticks have run in the
      sleep the first ramp has arrived, and the read-back angle is
      `min(45 + 2k, 135)`: 45 when no tick of the second ramp runs first. */
  method ClientSession(n: nat, k: nat) returns (angle: Output)
    requires n >= 23
    ensures angle == IntOut(Min(45 + 2 * k, 135))
  {
    var dev := StartRamp();
    ghost var start := dev.State();
    Ramp90To45(start, n);
    RunTicks(dev, n);
    angle := FinishSession(dev, k);
  }
}
