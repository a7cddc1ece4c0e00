/** Automatic 0°/180° rotation from the accelerometer (src/lcd_bsp.c):
    asymmetric hysteresis on the x axis followed by a two-sample debounce.
    Readings and thresholds are reals; the firmware's float rounding is not
    modelled. */
module Rotation {
  import opened Wrappers

  datatype Rot = Rot0 | Rot180

  const HYSTERESIS: real := 0.3
  const STABLE_COUNT: nat := 2

  /** The configurable tilt thresholds, default +1.0 / -1.0. */
  datatype Thresholds = Thresholds(right: real, left: real)

  const DEFAULT_THRESHOLDS: Thresholds := Thresholds(1.0, -1.0)

  /** The task's statics plus the rotation the display driver actually
      applied (changed only when `lcd_set_rotation` obtained the UI lock). */
  datatype Orientation = Orientation(current: Rot, pending: Rot, stableCount: nat, applied: Rot)

  const INITIAL: Orientation := Orientation(Rot0, Rot0, 0, Rot0)

  /** The rotation one reading argues for, given the committed one. */
  function Target(current: Rot, accX: real, th: Thresholds): (t: Rot)
    ensures current == Rot0 ==> (t == Rot180 <==> accX < th.left - HYSTERESIS)
    ensures current == Rot180 ==> (t == Rot0 <==> accX > th.right + HYSTERESIS)
  {
    match current
    case Rot0 => if accX < th.left - HYSTERESIS then Rot180 else Rot0
    case Rot180 => if accX > th.right + HYSTERESIS then Rot0 else Rot180
  }

  /** One pass of the task's loop. `ready` is "display and a screen exist";
      `lockTaken` is whether `lcd_set_rotation` got the UI lock within
      100 ms; `commit` reports a `lcd_set_rotation` call. */
  datatype Sample = Sample(next: Orientation, commit: Option<Rot>)

  function Step(o: Orientation, accX: real, th: Thresholds, ready: bool, lockTaken: bool): (r: Sample)
    ensures !ready ==> r == Sample(o, None)
    ensures ready && Target(o.current, accX, th) == o.current ==>
              r == Sample(o.(stableCount := 0), None)
  {
    if !ready then Sample(o, None)
    else
      var target := Target(o.current, accX, th);
      if target != o.current then
        if target == o.pending then
          var count := o.stableCount + 1;
          if count >= STABLE_COUNT then
            Sample(Orientation(target, o.pending, 0, if lockTaken then target else o.applied), Some(target))
          else Sample(o.(stableCount := count), None)
        else Sample(o.(pending := target, stableCount := 1), None)
      else Sample(o.(stableCount := 0), None)
  }

  /** The state the task keeps between samples: the counter is at most one,
      and when it is one the pending rotation differs from the current one. */
  predicate Settled(o: Orientation)
  {
    o.stableCount <= 1 && (o.stableCount == 1 ==> o.pending != o.current)
  }

  /** Debounce from a settled state: a disagreeing reading commits exactly
      when the previous reading disagreed too (counter at one); an agreeing
      reading resets the counter; a commit leaves the counter at zero; and
      the task stays settled. */
  lemma StepDebounce(o: Orientation, accX: real, th: Thresholds, lockTaken: bool)
    requires Settled(o)
    ensures var r := Step(o, accX, th, true, lockTaken);
      var t := Target(o.current, accX, th);
      && Settled(r.next)
      && (t == o.current ==> r.commit.None? && r.next.stableCount == 0 && r.next.current == o.current)
      && (t != o.current ==> (r.commit.Some? <==> o.stableCount == 1))
      && (r.commit.Some? ==> r.commit.value == t && r.next.current == t && r.next.stableCount == 0)
      && (r.commit.None? ==> r.next.current == o.current)
      && (t != o.current && r.commit.None? ==> r.next.stableCount == 1 && r.next.pending == t)
  {
  }

  /** The committed rotation advances even when the driver could not take
      the lock and the panel keeps its old rotation. */
  lemma CommitWithoutLock(o: Orientation, accX: real, th: Thresholds)
    requires Settled(o) && o.stableCount == 1
    requires Target(o.current, accX, th) != o.current
    ensures var r := Step(o, accX, th, true, false);
      r.commit.Some? && r.next.current != o.current && r.next.applied == o.applied
  {
  }

  /** Feeding a run of readings to the task: the commits, one per sample. */
  function Run(o: Orientation, xs: seq<real>, th: Thresholds): (r: (Orientation, seq<Option<Rot>>))
    ensures |r.1| == |xs|
    decreases |xs|
  {
    if |xs| == 0 then (o, [])
    else
      var s := Step(o, xs[0], th, true, true);
      var rest := Run(s.next, xs[1..], th);
      (rest.0, [s.commit] + rest.1)
  }

  /** Whether reading `x` argues for leaving rotation `current`. */
  predicate Disagrees(current: Rot, x: real, th: Thresholds)
  {
    Target(current, x, th) != current
  }

  /** Readings that never disagree twice in a row never rotate the display:
      a single out-of-band reading, or readings that alternate between the
      two candidates, leave the committed rotation alone and the counter at
      most one. */
  lemma {:induction false} NoCommitWithoutTwoInARow(o: Orientation, xs: seq<real>, th: Thresholds)
    requires Settled(o)
    requires o.stableCount == 1 && |xs| > 0 ==> !Disagrees(o.current, xs[0], th)
    requires forall i :: 0 < i < |xs| && Disagrees(o.current, xs[i - 1], th) ==> !Disagrees(o.current, xs[i], th)
    ensures forall i :: 0 <= i < |xs| ==> Run(o, xs, th).1[i].None?
    ensures Run(o, xs, th).0.current == o.current && Settled(Run(o, xs, th).0)
    decreases |xs|
  {
    if |xs| > 0 {
      var s := Step(o, xs[0], th, true, true);
      StepDebounce(o, xs[0], th, true);
      assert s.next.current == o.current;
      assert s.next.stableCount == 1 ==> Disagrees(o.current, xs[0], th);
      forall i | 0 < i < |xs[1..]| && Disagrees(o.current, xs[1..][i - 1], th)
        ensures !Disagrees(o.current, xs[1..][i], th)
      {
        assert xs[1..][i - 1] == xs[i] && xs[1..][i] == xs[i + 1];
      }
      NoCommitWithoutTwoInARow(s.next, xs[1..], th);
      var rest := Run(s.next, xs[1..], th);
      assert Run(o, xs, th).1 == [s.commit] + rest.1;
    }
  }

  /** Two consecutive readings past the far threshold rotate the display on
      the second one, starting from rest. */
  lemma TwoReadingsRotate(o: Orientation, x1: real, x2: real, th: Thresholds)
    requires Settled(o) && o.stableCount == 0
    requires Disagrees(o.current, x1, th) && Disagrees(o.current, x2, th)
    ensures var r := Run(o, [x1, x2], th);
      r.1[0].None? && r.1[1].Some? && r.0.current != o.current && r.0.stableCount == 0
  {
    var s1 := Step(o, x1, th, true, true);
    StepDebounce(o, x1, th, true);
    StepDebounce(s1.next, x2, th, true);
    var s2 := Step(s1.next, x2, th, true, true);
    assert [x1, x2][1..] == [x2];
    assert [x2][1..] == [] && [x2][0] == x2;
    assert Run(s2.next, [], th) == (s2.next, []);
    assert [s2.commit] + [] == [s2.commit];
    assert Run(s1.next, [x2], th) == (s2.next, [s2.commit]);
  }

  /** `lcd_set_imu_tilt_thresholds`. */
  function SetThresholds(right: real, left: real): (th: Thresholds)
    ensures th.right == right && th.left == left
  {
    Thresholds(right, left)
  }

  /** `lcd_get_imu_tilt_thresholds`: each out-pointer is `None` for NULL or
      the cell it points to; a NULL pointer is skipped. */
  function GetThresholds(th: Thresholds, right: Option<real>, left: Option<real>): (r: (Option<real>, Option<real>))
    ensures right.None? ==> r.0.None?
    ensures left.None? ==> r.1.None?
    ensures right.Some? ==> r.0 == Some(th.right)
    ensures left.Some? ==> r.1 == Some(th.left)
  {
    (if right.Some? then Some(th.right) else None,
     if left.Some? then Some(th.left) else None)
  }

  /** Set then get returns the pair that was set. */
  lemma ThresholdsRoundTrip(right: real, left: real, c1: real, c2: real)
    ensures GetThresholds(SetThresholds(right, left), Some(c1), Some(c2)) == (Some(right), Some(left))
  {
  }
}
