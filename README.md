# PWM hobby-servo driver: motion controller

This project models the motion controller of a Linux PWM hobby-servo driver.
It proves properties of that model in Dafny.

The driver keeps one state record per servo:
- an enable flag;
- the current and the target angle in degrees;
- a ramp speed in degrees per second, where 0 means "jump";
- a calibration (`struct servo_limits`): an angle range mapped linearly onto a pulse-width range in nanoseconds.

Two things change that record, each under the device lock:
- control requests (ioctl): ENABLE, SET_ANGLE, GET_ANGLE, SET_SPEED, GET_SPEED, SET_LIMITS, GET_LIMITS;
- a self-rescheduling work item (the motion tick), which moves the current angle one bounded step toward the target per tick.

Every hardware write turns an angle into a pulse width through the angle-to-pulse mapper.

Files:
- `servo_uapi.dfy` (module `ServoUapi`): the C integer types, the calibration record and the command set (`include/servo_uapi.h`).
- `pulse_map.dfy` (module `PulseMap`): the mapper, with C's 32-bit unsigned wrap-around written out. It also holds the interpolation the code evidently intends, and proofs of how the two relate.
- `servo_spec.dfy` (module `ServoSpec`): the state record as a value (`Servo`). Each atomic step is a function: the write-through helper `Apply`, the motion tick `Tick` and the request dispatcher `Dispatch`. The lemmas about sequences of steps are here too.
- `servo_dev.dfy` (module `ServoDriver`): the device as a class, `ServoDev`. Its methods update the fields in place, and each is proved to perform exactly the step its `ServoSpec` function describes. A client session like the demo tool's, with every PWM call and user copy succeeding, is proved to read back where the second ramp has got to, for any number of ticks before the read-back, once at least 23 ticks have run during the two-second sleep.

Hardware and transport are inputs:
- `pwm_config` and `pwm_enable` are oracles: their return values are parameters (`configRet`, `PwmResults`).
- `copy_from_user` and `copy_to_user` are one flag, `copyOk`.
- The pending work item is the flag `armed`.
- The pulse width last written to the PWM is the field `pulseNs`.

The model follows the code in two places where the code is more specific than a plain reading:
- ENABLE schedules the tick whenever the speed is positive, even when the servo is already at its target. That tick then goes dormant at once.
- In `speed_dps * tick_ms`, an `int` is multiplied by an `unsigned int`. So the step computation is unsigned 32-bit arithmetic, which wraps and is not undefined. The model computes it exactly that way, with no bound on the speed.

## Model

| member | source | states |
|---|---|---|
| `PulseMap.Clamp` | servo.c:54-55 | with a non-empty range, an angle below it becomes the minimum, one above it becomes the maximum, and one inside it is unchanged; the result always lies in the range |
| `PulseMap.MapAngleToPulse` | servo.c:48-59 | the driver's mapping with 32-bit wrap-around; any angle at or below the calibrated range gives exactly the minimum pulse |
| `PulseMap.MapDependsOnlyOnClamp` | servo.c:54-58 | the pulse depends on the angle only through its clamped value |
| `PulseMap.MapAngleToPulseWide` | servo.c:48-59 | the intended interpolation stays within the pulse range for every valid calibration, and is the floor of the exact linear interpolation (truncating division) |
| `PulseMap.MapAgreesWithoutWrap` | servo.c:57-58 | when `span * (max_angle - min_angle)` fits in 32 bits, the driver's mapping equals the intended interpolation for every angle |
| `PulseMap.MapWideEndpoints` | servo.c:48-59 | the intended interpolation maps min_angle to min_pulse and max_angle to max_pulse exactly |
| `PulseMap.MapWideMonotonic` | servo.c:48-59 | the intended interpolation is non-decreasing in the angle |
| `PulseMap.MapEndpoints` | servo.c:48-59 | without product wrap, the driver maps the end angles exactly onto the end pulses |
| `PulseMap.MapMonotonicInRange` | servo.c:48-59 | without product wrap, the driver's mapping is non-decreasing and stays within [min_pulse, max_pulse] |
| `PulseMap.MapDefaultValues` | servo.c:271-274 | with the default calibration: 90 degrees gives 1_500_000 ns, 1 degree gives the truncated 1_005_555 ns, and out-of-range angles give the end pulses |
| `PulseMap.MapWrapsAtEndpoint` | servo.c:57-58 | a calibration that SET_LIMITS accepts (0..3600 onto 500_000..2_500_000) makes the driver map the end angle to 1_306_953 ns |
| `PulseMap.MapWrapsMidRange` | servo.c:57-58 | with that calibration the driver's pulse drops from 1_692_777 ns at 2147 to 500_286 ns at 2148 |
| `ServoSpec.Default` | servo.c:270-279 | the probed state is disabled, at 90 degrees with target 90, at speed 0, with the default calibration and a 20 ms tick, and nothing pending; the output shows 1.5 ms |
| `ServoSpec.Apply` | servo.c:61-78 | disabled: returns 0 and changes nothing; enabled: returns the PWM's answer and commits the exact, unclamped angle (with its pulse) only on success; never touches target, speed, calibration, enable flag or the pending tick |
| `ServoSpec.StepDegrees` | servo.c:91-95 | the step is at least 1; without wrap-around it is speed*tick_ms/1000 rounded half up (the nearest integer, ties up), and 1 when that rounds to 0 |
| `ServoSpec.StepExamples` | servo.c:92-95 | 90 deg/s at 20 ms gives 2; 1 deg/s gives 1; 25 and 75 deg/s round 0.5 and 1.5 up |
| `ServoSpec.NextAngle` | servo.c:97-102 | the next angle lies between the current angle and the target, and is closer to the target by exactly min(step, distance) |
| `ServoSpec.Tick` | servo.c:81-112 | a disabled device, speed 0 or arrival means no move and nothing pending; otherwise one step toward the target, no move if the write fails; re-arms exactly when still enabled, speed > 0 and not at target; never changes the enable flag, target, speed or calibration; the distance never grows and shrinks on every successful active tick; keeps angles in range and output in sync, and a successful active tick writes the pulse of its new angle, so it brings a stale output back in sync |
| `ServoSpec.Ramp` | servo.c:104-109 | consecutive successful ticks keep the enable flag, target, speed, calibration and the state invariant |
| `ServoSpec.RampExtends` | servo.c:106-109 | one more re-armed tick after n ticks is tick n + 1 |
| `ServoSpec.RampDistance` | servo.c:88-109 | after n successful ticks the distance to the target is max(0, distance - n*step); the angle never overshoots; after at least one tick, the tick is pending exactly while the target is not reached |
| `ServoSpec.RampReachesTarget` | servo.c:88-109 | the ramp is at the target after n successful ticks if and only if n*step covers the initial distance |
| `ServoSpec.Ramp90To45` | servo.c:88-109 | at 90 deg/s and 20 ms, a ramp from 90 down to 45 degrees has arrived after n successful ticks if and only if n >= 23 |
| `ServoSpec.Ramp45To135` | servo.c:88-109 | at 90 deg/s and 20 ms, a ramp from 45 up to 135 degrees stands at min(45 + 2k, 135) after k successful ticks |
| `ServoSpec.Ramp90To180` | servo.c:88-109 | at 90 deg/s and 20 ms the ramp from 90 to 180 is at the target after n ticks if and only if n >= 45; after 45 ticks nothing is pending and further ticks change nothing |
| `ServoSpec.EnableCmd` | servo.c:122-142 | asking for the current enable state is a no-op returning 0; a failing pwm_enable is returned and leaves the device disabled; a successful enable returns 0 whatever the re-apply gives, keeps both angles and arms the tick if and only if speed > 0; disable cancels the pending tick and keeps both angles; the tick period never changes |
| `ServoSpec.SetAngleCmd` | servo.c:144-164 | the clamped value becomes the target in every case; disabled: returns 0, no write; speed 0: writes at once, returns that result, and keeps the target on failure; otherwise arms the tick without moving; the tick period never changes |
| `ServoSpec.SetSpeedCmd` | servo.c:174-182 | stores max(val, 0); arms the tick only if enabled, speed > 0 and away from the target; nothing else changes and the angle never moves |
| `ServoSpec.SetLimitsCmd` | servo.c:192-207 | an empty angle or pulse range gives -EINVAL and changes nothing; otherwise the calibration is replaced wholesale, both angles are left unclamped, and an enabled device re-applies its angle and returns that result, keeping the new calibration even on failure |
| `ServoSpec.Dispatch` | servo.c:116-224 | an unreadable payload gives -EFAULT before any change; getters and unknown requests (-ENOTTY) change nothing; getters return the current angle, speed and calibration; each field changes only through its own request, and the current angle only through SET_ANGLE |
| `ServoSpec.RequestsKeepAnglesInRange` | servo.c:144-164 | every request other than SET_LIMITS keeps both angles inside the calibrated range |
| `ServoSpec.SetLimitsDoesNotClamp` | servo.c:200-204 | narrowing the default calibration to 0..45 is accepted and leaves the angles at 90, outside the new range |
| `ServoSpec.RequestsKeepPulseSynced` | servo.c:116-224 | when every PWM call succeeds, every request leaves an enabled output showing the current angle under the current calibration |
| `ServoSpec.DisableStopsMotion` | servo.c:136-140 | disabling returns 0, clears the pending tick, keeps both angles, and later ticks change nothing |
| `ServoSpec.EnableIdempotent` | servo.c:126-140 | repeating a successful ENABLE or disable request changes nothing and returns 0 |
| `ServoDriver.ServoDev.constructor` | servo.c:270-279 | the new device's fields are the probe defaults |
| `ServoDriver.ServoDev.ApplyAngle` | servo.c:61-78 | updates the fields exactly as `Apply` describes and returns its result |
| `ServoDriver.ServoDev.MotionTick` | servo.c:81-112 | updates the fields exactly as `Tick` describes |
| `ServoDriver.ServoDev.Ioctl` | servo.c:116-224 | updates the fields and returns the value and output exactly as `Dispatch` describes |
| `ServoDriver.RunTicks` | servo.c:106-109 | n runs of the re-armed tick with successful writes leave the device in state `Ramp(start, n)` |
| `ServoDriver.StartRamp` | tools/servoctl.c:12-19 | with pwm_enable, pwm_config and every user copy succeeding, after ENABLE, SET_SPEED 90 and SET_ANGLE 45 on a fresh device the output is enabled at 90 degrees with target 45, speed 90, the default calibration and a tick pending |
| `ServoDriver.FinishSession` | tools/servoctl.c:23-30 | with every pwm_config and user copy succeeding, from an enabled device at 45 degrees, SET_ANGLE 135, then k ticks (the first is queued with no delay, servo.c:161), then GET_ANGLE reads back min(45 + 2k, 135); ENABLE 0 leaves it disabled with nothing pending |
| `ServoDriver.ClientSession` | tools/servoctl.c:7-34 | with every PWM call and user copy succeeding: enable, 90 deg/s, target 45, n >= 23 ticks during the two-second sleep, target 135, k ticks, then GET_ANGLE: it reads back min(45 + 2k, 135), so 45 only when no tick of the second ramp runs first |

## Left out

- Probe and teardown glue is not modelled: PWM lookup, char-device and class registration, `servo_remove`, the file operations and the module tables (servo.c:226-359). The constructor is a probe that succeeded, and a failed pre-configuration write (servo.c:284-288) is not modelled.
- The PWM period (servo.c:270) is a constant that is passed through to `pwm_config`. The model records only the pulse width.
- The lock and the work queue are not modelled. Each request and each tick is one atomic step, and `armed` stands for a pending tick. The model does not distinguish zero-delay arming from arming one tick ahead (`msecs_to_jiffies`). The `cancel_delayed_work_sync` call under the lock (servo.c:137) can deadlock against a running tick that waits for the same lock (servo.c:86). That is a concurrency hazard outside a sequential model. The model only proves that disabling clears `armed` and that ticks on a disabled device change nothing.
- `pwm_disable` has no result the driver looks at, so it has no oracle.
- User copies are a success flag, not memory. A failed copy-in returns -EFAULT before any change; a failed copy-out returns -EFAULT after a read that changes nothing.
- The `_IOW`/`_IOR` opcode encoding is not modelled. Requests are the `Command` datatype, and any other code is `Unsupported`.
- ServoSpec.NextAngle: `target - cur` and `cur ± min(step, delta)` are C `int` operations, but the model takes them over unbounded integers. They differ when the two angles are more than 2^31 - 1 apart. That is reachable, because a change of calibration does not clamp the stored angles (servo.c:201): commit an angle near -2^31 under a one-degree calibration there, switch to a one-degree calibration near 2^31 - 1 and set a target there. The C subtraction at servo.c:97 then overflows `int`, which is undefined behaviour (with wrap-around the ramp would move away from the target); the model instead steps toward the target.
- ServoSpec.StepDegrees: the body wraps the product exactly as the driver does. The rounding meaning is stated only where `speed * tick_ms + 500` fits in 32 bits.
- ServoDriver.StartRamp: proved only for a session in which pwm_enable, pwm_config and every user copy succeed. A failing pwm_enable (servo.c:127-128) leaves the device disabled at 90 degrees with nothing pending, and the request-level contracts (`ServoSpec.EnableCmd`, `ServoSpec.Dispatch`) cover those paths.
- ServoDriver.FinishSession: proved only when every pwm_config and user copy succeeds. A failed tick write leaves the angle where it was (servo.c:73-74), and `ServoSpec.Tick` covers that path.
- ServoDriver.ClientSession: proved only when every PWM call and user copy succeeds, as for the two members above. The scheduler is a parameter. The two-second sleep is taken to run at least 23 ticks (100 at the nominal 20 ms), and the k ticks before GET_ANGLE are any number. No tick is pending during the first three requests, so none can run there.
- PulseMap.MapEndpoints: endpoint, range and monotonicity are proved only where the 32-bit product cannot wrap. Without that condition the driver does not have these properties (see Findings).
- PulseMap.MapMonotonicInRange: same condition as MapEndpoints, for the same reason.

## Findings

| source | as written | input that shows it | evidently intended | confidence | as-written member | corrected member |
|---|---|---|---|---|---|---|
| servo.c:57-58 | `span * (angle - min_angle)` is formed in 32-bit `unsigned int`, and SET_LIMITS (servo.c:196-199) does not reject calibrations that make it wrap | SET_LIMITS {0, 3600, 500000, 2500000}, then angle 3600 gives 1_306_953 ns instead of 2_500_000 ns; angle 2147 gives 1_692_777 ns but angle 2148 gives 500_286 ns | the linear interpolation from min_pulse to max_pulse, formed with a wide enough product, so that the end angles map onto the end pulses and the mapping is monotonic | medium, not executed | `PulseMap.MapWrapsAtEndpoint` | `PulseMap.MapAngleToPulseWide` |

The two mappings agree whenever the product fits in 32 bits (`PulseMap.MapAgreesWithoutWrap`), which covers the default calibration.
The device model keeps the driver's own arithmetic (`PulseMap.MapAngleToPulse`), because it models the driver as it is.
