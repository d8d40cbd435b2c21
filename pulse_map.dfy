// Angle to pulse-width mapping (servo.c:48-59): clamp the angle into the
// calibrated range, then interpolate linearly onto the pulse range with
// 32-bit unsigned arithmetic and truncating division.
module PulseMap {
  import opened ServoUapi

  /** The calibration a device starts with (servo.c:271-274): 0..180 degrees
      onto 1.0..2.0 ms. */
  const DefaultLimits: Limits := Limits(0, 180, 1_000_000, 2_000_000)

  /** C's conversion of an integer to `unsigned int`, and the wrap-around of
      `unsigned int` arithmetic: reduction modulo 2^32. */
  function U32(x: int): (r: u32)
    ensures 0 <= x < UINT_MOD ==> r == x
  {
    x % UINT_MOD
  }

  /** The two successive bound checks of servo.c:54-55 (and 148-149): raise
      the value to `lo`, then lower it to `hi`. */
  function Clamp(x: i32, lo: i32, hi: i32): (r: i32)
    ensures lo <= hi ==> lo <= r <= hi
    ensures lo <= x <= hi ==> r == x
    ensures r == x || r == lo || r == hi
    ensures x < lo <= hi ==> r == lo
    ensures lo <= hi < x ==> r == hi
  {
    var raised := if x < lo then lo else x;
    if raised > hi then hi else raised
  }

  /** The check SET_LIMITS applies before it stores a calibration
      (servo.c:196-199); every stored calibration satisfies it. */
  predicate ValidLimits(l: Limits) {
    l.minAngle < l.maxAngle && l.minPulseNs < l.maxPulseNs
  }

  /** The 32-bit product `span * (angle - min_angle)` cannot wrap for any
      angle in the calibrated range. */
  predicate NoProductWrap(l: Limits) {
    (l.maxPulseNs - l.minPulseNs) * (l.maxAngle - l.minAngle) < UINT_MOD
  }

  /** map_angle_to_pulse_ns exactly as the driver computes it: the pulse
      span, the product and the final sum are `unsigned int` operations and
      are reduced modulo 2^32; the two angle differences are `int`
      subtractions converted to `unsigned int`, which the model also reduces
      modulo 2^32 (what wrapping `int` arithmetic followed by the conversion
      gives); `/` truncates. The only demand on the
      caller is the one the C division makes: a non-empty angle range.
      Angles at or below the calibrated range give exactly the minimum pulse,
      whatever the calibration. */
  function MapAngleToPulse(l: Limits, angle: i32): (r: u32)
    requires l.minAngle != l.maxAngle
    ensures ValidLimits(l) && angle <= l.minAngle ==> r == l.minPulseNs
  {
    var span := U32(l.maxPulseNs - l.minPulseNs);
    var a := Clamp(angle, l.minAngle, l.maxAngle);
    var den := U32(l.maxAngle - l.minAngle);
    U32NonZero(l.maxAngle - l.minAngle);
    var off := U32(a - l.minAngle);
    var q := U32(span * off) / den;
    assert ValidLimits(l) && angle <= l.minAngle ==> q == 0 by {
      if ValidLimits(l) && angle <= l.minAngle {
        assert a == l.minAngle && off == 0;
        assert span * off == 0 && U32(0) == 0;
      }
    }
    U32(l.minPulseNs + q)
  }

  /** The interpolation the driver evidently intends: the same clamp and
      truncating division, with the product formed without wrap-around (as a
      64-bit product would). Its result is the floor of the exact linear
      interpolation and never leaves the pulse range. */
  function MapAngleToPulseWide(l: Limits, angle: i32): (r: u32)
    requires ValidLimits(l)
    ensures l.minPulseNs <= r <= l.maxPulseNs
    ensures var num := (l.maxPulseNs - l.minPulseNs) * (Clamp(angle, l.minAngle, l.maxAngle) - l.minAngle);
            var den := l.maxAngle - l.minAngle;
            (r - l.minPulseNs) * den <= num < (r - l.minPulseNs + 1) * den
  {
    var span := l.maxPulseNs - l.minPulseNs;
    var den := l.maxAngle - l.minAngle;
    var off := Clamp(angle, l.minAngle, l.maxAngle) - l.minAngle;
    QuotientWithin(span, off, den);
    FloorDivision(span * off, den);
    l.minPulseNs + span * off / den
  }

  // ---------------------------------------------------------------------
  // Arithmetic facts the mapping relies on.

  lemma U32NonZero(x: int)
    requires -UINT_MOD < x < UINT_MOD && x != 0
    ensures U32(x) != 0
  {
  }

  lemma MulMonotone(s: int, x: int, y: int)
    requires 0 <= s && x <= y
    ensures s * x <= s * y
  {
  }

  lemma DivMonotone(a: int, b: int, d: int)
    requires 0 < d && a <= b
    ensures a / d <= b / d
  {
    if a / d > b / d {
      FloorDivision(a, d);
      FloorDivision(b, d);
      MulMonotone(d, b / d + 1, a / d);
    }
  }

  lemma FloorDivision(n: int, d: int)
    requires 0 < d
    ensures (n / d) * d <= n < (n / d + 1) * d
  {
  }

  lemma MulDivCancel(s: int, d: int)
    requires 0 < d
    ensures s * d / d == s
  {
    FloorDivision(s * d, d);
    var q := s * d / d;
    if q < s {
      MulMonotone(d, q + 1, s);
    } else if q > s {
      MulMonotone(d, s + 1, q);
    }
  }

  /** With `0 <= off <= den`, the quotient `span * off / den` lies in `[0, span]`. */
  lemma QuotientWithin(span: int, off: int, den: int)
    requires 0 <= span && 0 <= off <= den && 0 < den
    ensures 0 <= span * off <= span * den
    ensures 0 <= span * off / den <= span
  {
  }

  // ---------------------------------------------------------------------
  // Properties of the mapping.

  /** The result depends on the angle only through its clamped value. */
  lemma MapDependsOnlyOnClamp(l: Limits, angle: i32)
    requires l.minAngle != l.maxAngle
    ensures MapAngleToPulse(l, angle) == MapAngleToPulse(l, Clamp(angle, l.minAngle, l.maxAngle))
  {
  }

  /** Where the product cannot wrap, the driver's arithmetic is exactly the
      intended interpolation. */
  lemma MapAgreesWithoutWrap(l: Limits, angle: i32)
    requires ValidLimits(l) && NoProductWrap(l)
    ensures MapAngleToPulse(l, angle) == MapAngleToPulseWide(l, angle)
  {
    var span := l.maxPulseNs - l.minPulseNs;
    var den := l.maxAngle - l.minAngle;
    var off := Clamp(angle, l.minAngle, l.maxAngle) - l.minAngle;
    QuotientWithin(span, off, den);
    assert U32(off) == off;
    assert U32(span * off) == span * off;
  }

  /** The calibrated end angles map exactly onto the end pulses. */
  lemma MapWideEndpoints(l: Limits)
    requires ValidLimits(l)
    ensures MapAngleToPulseWide(l, l.minAngle) == l.minPulseNs
    ensures MapAngleToPulseWide(l, l.maxAngle) == l.maxPulseNs
  {
    MulDivCancel(l.maxPulseNs - l.minPulseNs, l.maxAngle - l.minAngle);
  }

  /** A larger angle never gives a shorter pulse. */
  lemma MapWideMonotonic(l: Limits, a: i32, b: i32)
    requires ValidLimits(l) && a <= b
    ensures MapAngleToPulseWide(l, a) <= MapAngleToPulseWide(l, b)
  {
    var span := l.maxPulseNs - l.minPulseNs;
    var den := l.maxAngle - l.minAngle;
    var offA := Clamp(a, l.minAngle, l.maxAngle) - l.minAngle;
    var offB := Clamp(b, l.minAngle, l.maxAngle) - l.minAngle;
    MulMonotone(span, offA, offB);
    DivMonotone(span * offA, span * offB, den);
  }

  /** Endpoints of the driver's mapping, when its product cannot wrap. */
  lemma MapEndpoints(l: Limits)
    requires ValidLimits(l) && NoProductWrap(l)
    ensures MapAngleToPulse(l, l.minAngle) == l.minPulseNs
    ensures MapAngleToPulse(l, l.maxAngle) == l.maxPulseNs
  {
    MapAgreesWithoutWrap(l, l.minAngle);
    MapAgreesWithoutWrap(l, l.maxAngle);
    MapWideEndpoints(l);
  }

  /** Monotonicity and range of the driver's mapping, when its product cannot wrap. */
  lemma MapMonotonicInRange(l: Limits, a: i32, b: i32)
    requires ValidLimits(l) && NoProductWrap(l) && a <= b
    ensures l.minPulseNs <= MapAngleToPulse(l, a) <= MapAngleToPulse(l, b) <= l.maxPulseNs
  {
    MapAgreesWithoutWrap(l, a);
    MapAgreesWithoutWrap(l, b);
    MapWideMonotonic(l, a, b);
  }

  /** With the default calibration the mid angle gives 1.5 ms, and one
      degree gives a truncated 1_005_555 ns (1_005_555.5 exactly). */
  lemma MapDefaultValues()
    ensures ValidLimits(DefaultLimits) && NoProductWrap(DefaultLimits)
    ensures MapAngleToPulse(DefaultLimits, 90) == 1_500_000
    ensures MapAngleToPulse(DefaultLimits, 1) == 1_005_555
    ensures MapAngleToPulse(DefaultLimits, -40) == 1_000_000
    ensures MapAngleToPulse(DefaultLimits, 250) == 2_000_000
  {
  }

  /** The calibration 0..3600 (tenths of a degree) onto 0.5..2.5 ms, which
      SET_LIMITS accepts but whose 32-bit product wraps. */
  const TenthDegreeLimits: Limits := Limits(0, 3600, 500_000, 2_500_000)

  /** With that calibration the driver's end angle gives 1_306_953 ns,
      where the intended mapping gives the end pulse 2_500_000 ns
      (MapWideEndpoints). */
  lemma MapWrapsAtEndpoint()
    ensures ValidLimits(TenthDegreeLimits) && !NoProductWrap(TenthDegreeLimits)
    ensures MapAngleToPulse(TenthDegreeLimits, 3600) == 1_306_953
  {
    assert Clamp(3600, 0, 3600) == 3600 && U32(3600) == 3600;
    assert U32(2_000_000) == 2_000_000;
    assert 7_200_000_000 % UINT_MOD == 2_905_032_704;
    assert U32(7_200_000_000) == 2_905_032_704;
    assert 2_905_032_704 / 3600 == 806_953;
    assert U32(500_000 + 806_953) == 1_306_953;
  }

  /** With that calibration one degree-tenth more, from 2147 to 2148, drops
      the driver's pulse from 1_692_777 ns to 500_286 ns: the mapping is not
      monotonic. */
  lemma MapWrapsMidRange()
    ensures MapAngleToPulse(TenthDegreeLimits, 2147) == 1_692_777
    ensures MapAngleToPulse(TenthDegreeLimits, 2148) == 500_286
  {
    assert Clamp(2147, 0, 3600) == 2147 && U32(2147) == 2147;
    assert Clamp(2148, 0, 3600) == 2148 && U32(2148) == 2148;
    assert U32(3600) == 3600 && U32(2_000_000) == 2_000_000;
    assert U32(4_294_000_000) == 4_294_000_000;
    assert 4_294_000_000 / 3600 == 1_192_777;
    assert U32(4_296_000_000) == 1_032_704;
    assert 1_032_704 / 3600 == 286;
  }
}
