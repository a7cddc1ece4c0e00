/** The soft-powersave breathing light (src/powersave.c): fixed-point easing
    curves on the 0..1024 scale, the three-phase breathing waveform, and the
    de-duplicating backlight writer the animation drives. */
module Breathing {
  import opened Ints
  import opened Wrappers

  /** Full scale of normalised progress. */
  const SCALE: int := 1024

  const BRIGHTNESS_SOFT_MIN: int := 80
  const BRIGHTNESS_SOFT_MAX: int := 120
  /** Length of one breath in milliseconds. */
  const BREATHING_ANIM_TIME: int := 6000
  /** Phase boundaries on the 0..1024 scale: inhale ends at 40 %, hold at 50 %. */
  const INHALE_END: int := 410
  const HOLD_END: int := 512

  /** `breathing_ease_type_t`. `Unknown` stands for any other integer a
      caller may store in the enum. */
  datatype Ease =
    | Linear
    | QuadraticIn | QuadraticOut | QuadraticInOut
    | CubicIn | CubicOut | CubicInOut
    | SineIn | SineOut | SineInOut
    | Unknown

  /** The enum's integer codes, in declaration order. */
  function EaseFromCode(code: int): (e: Ease)
    ensures (0 <= code <= 9) <==> !e.Unknown?
    ensures code == 0 <==> e == Linear
  {
    if code == 0 then Linear
    else if code == 1 then QuadraticIn
    else if code == 2 then QuadraticOut
    else if code == 3 then QuadraticInOut
    else if code == 4 then CubicIn
    else if code == 5 then CubicOut
    else if code == 6 then CubicInOut
    else if code == 7 then SineIn
    else if code == 8 then SineOut
    else if code == 9 then SineInOut
    else Unknown
  }

  /** The `switch` of `apply_easing` before its final clamp, in the C
      function's own (unsigned, truncating) arithmetic; every product stays
      below 2^32 for `t <= 1024`. */
  function EaseRaw(t: int, e: Ease): int
    requires 0 <= t <= SCALE
  {
    match e
    case Linear => t
    case QuadraticIn => (t * t) / 1024
    case QuadraticOut => 1024 - ((1024 - t) * (1024 - t)) / 1024
    case QuadraticInOut =>
      if t < 512 then (t * t * 2) / 1024
      else 1024 - ((1024 - t) * (1024 - t) * 2) / 1024
    case CubicIn => (t * t * t) / (1024 * 1024)
    case CubicOut => 1024 - ((1024 - t) * (1024 - t) * (1024 - t)) / (1024 * 1024)
    case CubicInOut =>
      if t < 512 then (t * t * t * 4) / (1024 * 1024)
      else 1024 - ((1024 - t) * (1024 - t) * (1024 - t) * 4) / (1024 * 1024)
    case SineIn => 1024 - ((1024 - t) * (1024 - t)) / 1024
    case SineOut => (t * t) / 1024
    case SineInOut =>
      if t < 512 then (t * t) / 512
      else 1024 - ((1024 - t) * (1024 - t)) / 512
    case Unknown => t
  }

  function Clamp(x: int, lo: int, hi: int): (r: int)
    requires lo <= hi
    ensures lo <= r <= hi
    ensures lo <= x <= hi ==> r == x
    ensures x < lo ==> r == lo
    ensures x > hi ==> r == hi
  {
    if x < lo then lo else if x > hi then hi else x
  }

  /** `apply_easing`: the eased progress for normalised time `t`. */
  function ApplyEasing(t: int, e: Ease): (r: int)
    requires 0 <= t <= SCALE
    ensures 0 <= r <= SCALE
    ensures t == 0 ==> r == 0
    ensures t == SCALE ==> r == SCALE
    ensures e.Unknown? || e.Linear? ==> r == t
  {
    EaseRawInRange(t, e);
    Clamp(EaseRaw(t, e), 0, SCALE)
  }

  lemma SquareBound(a: int, n: int)
    requires 0 <= a <= n
    ensures 0 <= a * a <= n * n
  {
    MulMono(a, a, n, n);
  }

  lemma CubeMono(a: int, c: int)
    requires 0 <= a <= c
    ensures 0 <= a * a * a <= c * c * c
  {
    SquareBound(a, c);
    MulMono(a * a, a, c * c, c);
  }

  lemma DivMono(a: int, b: int, d: int)
    requires 0 <= a <= b && d > 0
    ensures a / d <= b / d
  {
    var qa, qb := a / d, b / d;
    assert qa * d <= a;
    assert b < (qb + 1) * d;
    assert qa * d < (qb + 1) * d;
    assert (qb + 1 - qa) * d > 0;
  }

  /** Every curve already lands in 0..1024, so the final clamp of
      `apply_easing` never changes a value, and all curves fix both ends. */
  lemma EaseRawInRange(t: int, e: Ease)
    requires 0 <= t <= SCALE
    ensures 0 <= EaseRaw(t, e) <= SCALE
    ensures t == 0 ==> EaseRaw(t, e) == 0
    ensures t == SCALE ==> EaseRaw(t, e) == SCALE
  {
    var u := 1024 - t;
    SquareBound(t, 1024);
    SquareBound(u, 1024);
    CubeMono(t, 1024);
    CubeMono(u, 1024);
    assert 1024 * 1024 == 1048576;
    DivMono(t * t, 1048576, 1024);
    DivMono(u * u, 1048576, 1024);
    DivMono(t * t * t, 1048576 * 1024, 1048576);
    DivMono(u * u * u, 1048576 * 1024, 1048576);
    if t < 512 {
      SquareBound(t, 511);
      CubeMono(t, 511);
      DivMono(t * t * 2, 511 * 511 * 2, 1024);
      DivMono(t * t, 511 * 511, 512);
      DivMono(t * t * t * 4, 511 * 511 * 511 * 4, 1048576);
    } else {
      SquareBound(u, 512);
      CubeMono(u, 512);
      DivMono(u * u * 2, 512 * 512 * 2, 1024);
      DivMono(u * u, 512 * 512, 512);
      DivMono(u * u * u * 4, 512 * 512 * 512 * 4, 1048576);
    }
  }

  /** The "sine" curves are the quadratic formulas under other names:
      sine-in is quadratic-out, sine-out is quadratic-in, and sine-in-out is
      quadratic-in-out. */
  lemma SineIsQuadratic(t: int)
    requires 0 <= t <= SCALE
    ensures ApplyEasing(t, SineIn) == ApplyEasing(t, QuadraticOut)
    ensures ApplyEasing(t, SineOut) == ApplyEasing(t, QuadraticIn)
    ensures ApplyEasing(t, SineInOut) == ApplyEasing(t, QuadraticInOut)
  {
    var u := 1024 - t;
    assert (t * t * 2) / 1024 == (t * t) / 512;
    assert (u * u * 2) / 1024 == (u * u) / 512;
  }

  /** Every curve is non-decreasing: later time never gives less progress. */
  lemma EaseMonotone(e: Ease, t1: int, t2: int)
    requires 0 <= t1 <= t2 <= SCALE
    ensures ApplyEasing(t1, e) <= ApplyEasing(t2, e)
  {
    EaseRawInRange(t1, e);
    EaseRawInRange(t2, e);
    match e
    case QuadraticIn => SquareDivMono(t1, t2, 1024);
    case SineOut => SquareDivMono(t1, t2, 1024);
    case QuadraticOut => SquareDivMono(1024 - t2, 1024 - t1, 1024);
    case SineIn => SquareDivMono(1024 - t2, 1024 - t1, 1024);
    case CubicIn => CubeDivMono(t1, t2, 1);
    case CubicOut => CubeDivMono(1024 - t2, 1024 - t1, 1);
    case QuadraticInOut => QuadraticInOutMonotone(t1, t2);
    case CubicInOut => CubicInOutMonotone(t1, t2);
    case SineInOut => SineInOutMonotone(t1, t2);
    case _ =>
  }

  lemma SquareDivMono(a: int, b: int, d: int)
    requires 0 <= a <= b && d > 0
    ensures 0 <= a * a && (a * a) / d <= (b * b) / d
    ensures 0 <= a * a * 2 && (a * a * 2) / d <= (b * b * 2) / d
  {
    SquareBound(a, b);
    DivMono(a * a, b * b, d);
    DivMono(a * a * 2, b * b * 2, d);
  }

  lemma CubeDivMono(a: int, b: int, k: int)
    requires 0 <= a <= b && 1 <= k <= 4
    ensures 0 <= a * a * a * k && (a * a * a * k) / 1048576 <= (b * b * b * k) / 1048576
  {
    CubeMono(a, b);
    MulMono(a * a * a, k, b * b * b, k);
    DivMono(a * a * a * k, b * b * b * k, 1048576);
  }

  lemma QuadraticInOutMonotone(t1: int, t2: int)
    requires 0 <= t1 <= t2 <= SCALE
    ensures EaseRaw(t1, QuadraticInOut) <= EaseRaw(t2, QuadraticInOut)
  {
    if t2 < 512 {
      SquareDivMono(t1, t2, 1024);
    } else if 512 <= t1 {
      SquareDivMono(1024 - t2, 1024 - t1, 1024);
    } else {
      SquareDivMono(t1, 511, 1024);
      SquareDivMono(1024 - t2, 512, 1024);
    }
  }

  lemma CubicInOutMonotone(t1: int, t2: int)
    requires 0 <= t1 <= t2 <= SCALE
    ensures EaseRaw(t1, CubicInOut) <= EaseRaw(t2, CubicInOut)
  {
    if t2 < 512 {
      CubeDivMono(t1, t2, 4);
    } else if 512 <= t1 {
      CubeDivMono(1024 - t2, 1024 - t1, 4);
    } else {
      CubeDivMono(t1, 511, 4);
      CubeDivMono(1024 - t2, 512, 4);
    }
  }

  lemma SineInOutMonotone(t1: int, t2: int)
    requires 0 <= t1 <= t2 <= SCALE
    ensures EaseRaw(t1, SineInOut) <= EaseRaw(t2, SineInOut)
  {
    if t2 < 512 {
      SquareDivMono(t1, t2, 512);
    } else if 512 <= t1 {
      SquareDivMono(1024 - t2, 1024 - t1, 512);
    } else {
      SquareDivMono(t1, 511, 512);
      SquareDivMono(1024 - t2, 512, 512);
    }
  }

  /** Normalised position in the breath, `(act_time * 1024) / time` in
      `uint32_t` arithmetic, capped at 1024. */
  function NormTime(actTime: u32, time: u32): (tn: int)
    requires time > 0
    ensures 0 <= tn <= SCALE
    ensures actTime == 0 ==> tn == 0
  {
    var raw := ((actTime * 1024) % U32_LIMIT) / time;
    assert actTime == 0 ==> raw == 0;
    if raw > SCALE then SCALE else raw
  }

  /** Path progress (0..1024) at normalised position `tn`: eased inhale,
      hold at the top, inverted eased exhale. */
  function PathValue(tn: int, inhale: Ease, exhale: Ease): (pv: int)
    requires 0 <= tn <= SCALE
    ensures 0 <= pv <= SCALE
    ensures INHALE_END <= tn < HOLD_END ==> pv == SCALE
    ensures tn == 0 ==> pv == 0
    ensures tn == SCALE ==> pv == 0
  {
    if tn < INHALE_END then
      var it := (tn * 1024) / 410;
      ApplyEasing(if it > SCALE then SCALE else it, inhale)
    else if tn < HOLD_END then SCALE
    else
      var et := ((tn - 512) * 1024) / 512;
      SCALE - ApplyEasing(if et > SCALE then SCALE else et, exhale)
  }

  /** Linear map of path progress onto the soft-powersave brightness band. */
  function BrightnessOf(pv: int): (b: int)
    requires 0 <= pv <= SCALE
    ensures BRIGHTNESS_SOFT_MIN <= b <= BRIGHTNESS_SOFT_MAX
    ensures pv == 0 ==> b == BRIGHTNESS_SOFT_MIN
    ensures pv == SCALE ==> b == BRIGHTNESS_SOFT_MAX
  {
    BRIGHTNESS_SOFT_MIN + ((BRIGHTNESS_SOFT_MAX - BRIGHTNESS_SOFT_MIN) * pv) / 1024
  }

  /** `breathing_path_cb`: the backlight level at `actTime` of a breath
      lasting `time` milliseconds. */
  function BreathingPath(actTime: u32, time: u32, inhale: Ease, exhale: Ease): (b: int)
    ensures BRIGHTNESS_SOFT_MIN <= b <= BRIGHTNESS_SOFT_MAX
    ensures time == 0 ==> b == BRIGHTNESS_SOFT_MAX
    ensures time > 0 && actTime == 0 ==> b == BRIGHTNESS_SOFT_MIN
    ensures time > 0 && INHALE_END <= NormTime(actTime, time) < HOLD_END ==> b == BRIGHTNESS_SOFT_MAX
  {
    if time == 0 then BRIGHTNESS_SOFT_MAX
    else
      var pv := PathValue(NormTime(actTime, time), inhale, exhale);
      BrightnessOf(Clamp(pv, 0, SCALE))
  }

  /** At the end of a breath the light is back at the minimum, as long as
      `time * 1024` does not wrap (the 6000 ms breath is far from it). */
  lemma BreathEndsAtMinimum(time: u32, inhale: Ease, exhale: Ease)
    requires 0 < time && time * 1024 < U32_LIMIT
    ensures NormTime(time, time) == SCALE
    ensures BreathingPath(time, time, inhale, exhale) == BRIGHTNESS_SOFT_MIN
  {
    assert (time * 1024) % U32_LIMIT == time * 1024;
    assert (time * 1024) / time == 1024;
  }

  /** The configured 6000 ms breath: its hold plateau spans 2403..2999 ms. */
  lemma ConfiguredBreathPlateau(actTime: u32, inhale: Ease, exhale: Ease)
    requires 2403 <= actTime <= 2999
    ensures BreathingPath(actTime, BREATHING_ANIM_TIME, inhale, exhale) == BRIGHTNESS_SOFT_MAX
  {
    assert (actTime * 1024) % U32_LIMIT == actTime * 1024;
    DivMono(2403 * 1024, actTime * 1024, 6000);
    DivMono(actTime * 1024, 2999 * 1024, 6000);
  }

  /** The waveform rises through inhale and hold and falls through exhale. */
  lemma PathShape(tn1: int, tn2: int, inhale: Ease, exhale: Ease)
    requires 0 <= tn1 <= tn2 <= SCALE
    ensures tn2 < HOLD_END ==> PathValue(tn1, inhale, exhale) <= PathValue(tn2, inhale, exhale)
    ensures HOLD_END <= tn1 ==> PathValue(tn1, inhale, exhale) >= PathValue(tn2, inhale, exhale)
  {
    if tn2 < INHALE_END {
      DivMono(tn1 * 1024, tn2 * 1024, 410);
      var a := (tn1 * 1024) / 410;
      var b := (tn2 * 1024) / 410;
      DivMono(tn2 * 1024, 409 * 1024, 410);
      EaseMonotone(inhale, a, b);
    } else if HOLD_END <= tn1 {
      DivMono((tn1 - 512) * 1024, (tn2 - 512) * 1024, 512);
      var a := ((tn1 - 512) * 1024) / 512;
      var b := ((tn2 - 512) * 1024) / 512;
      DivMono((tn2 - 512) * 1024, 512 * 1024, 512);
      EaseMonotone(exhale, a, b);
    }
  }

  /** `brightness_anim_cb`: the value is clamped to a byte and written to
      the backlight only when it differs from the last written one. */
  datatype AnimWrite = AnimWrite(last: u8, write: Option<u8>)

  /** `last_brightness` starts at 255. */
  const ANIM_INITIAL_LAST: u8 := 255

  function AnimCallback(last: u8, value: int): (r: AnimWrite)
    ensures r.last == Clamp(value, 0, 255)
    ensures r.write.Some? <==> r.last != last
    ensures r.write.Some? ==> r.write.value == r.last
  {
    var b := Clamp(value, 0, 255);
    if b == last then AnimWrite(last, None) else AnimWrite(b, Some(b))
  }

  /** Feeding a sequence of values to the callback: the final remembered
      value and the backlight writes, in order. */
  function AnimRun(last: u8, values: seq<int>): (r: (u8, seq<u8>))
    decreases |values|
  {
    if |values| == 0 then (last, [])
    else
      var w := AnimCallback(last, values[0]);
      var rest := AnimRun(w.last, values[1..]);
      (rest.0, (if w.write.Some? then [w.write.value] else []) + rest.1)
  }

  /** What the backlight last received. */
  function Shown(initial: u8, writes: seq<u8>): u8
  {
    if |writes| == 0 then initial else writes[|writes| - 1]
  }

  /** The de-duplication loses nothing and repeats nothing: no two
      successive writes are equal, the first differs from what was last
      written, and afterwards the backlight holds the clamp of the last
      requested value. */
  lemma {:induction false} AnimRunFaithful(last: u8, values: seq<int>)
    ensures var r := AnimRun(last, values);
      && (|r.1| > 0 ==> r.1[0] != last)
      && (forall i :: 0 < i < |r.1| ==> r.1[i] != r.1[i - 1])
      && Shown(last, r.1) == r.0
      && (|values| > 0 ==> r.0 == Clamp(values[|values| - 1], 0, 255))
      && (|values| == 0 ==> r.0 == last)
    decreases |values|
  {
    if |values| > 0 {
      var w := AnimCallback(last, values[0]);
      AnimRunFaithful(w.last, values[1..]);
      var rest := AnimRun(w.last, values[1..]);
      if |values| > 1 {
        assert values[1..][|values[1..]| - 1] == values[|values| - 1];
      }
      if w.write.Some? {
        var ws := [w.write.value] + rest.1;
        forall i | 0 < i < |ws|
          ensures ws[i] != ws[i - 1]
        {
          if i > 1 {
            assert ws[i] == rest.1[i - 1] && ws[i - 1] == rest.1[i - 2];
          }
        }
      }
    }
  }

  /** The first call after reset with 255 writes nothing. */
  lemma AnimFirstFullIsSilent()
    ensures AnimCallback(ANIM_INITIAL_LAST, 255).write.None?
  {
  }
}
