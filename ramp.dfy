// The slope ramp the Yokogawa 7651 and the Keithley 2400 / 2600 drivers use to
// move a source to a new set-point: when the target is within one step of the
// present set-point it is written at once, otherwise the driver writes
// `np.arange(present, target, sign(target - present) * step)` one value per
// tick and then the target itself.
module Ramp {
  import opened Common
  import opened NumPy

  /**
   * Whether the target is close enough to be written directly: a gap below one
   * step, or (for the Keithley 2600, `inclusive`) a gap of exactly one step.
   */
  predicate Close(present: real, target: real, step: real, inclusive: bool)
  {
    Abs(target - present) < step || (inclusive && Abs(target - present) == step)
  }

  /** `n` values from `start` on, `step` apart. */
  function Walk(start: real, step: real, n: nat): (r: seq<real>)
    ensures |r| == n
    ensures forall i :: 0 <= i < n ==> r[i] == start + i as real * step
  {
    if n == 0 then [] else Walk(start, step, n - 1) + [start + (n - 1) as real * step]
  }

  /** How many values `np.arange(start, stop, step)` yields. */
  function Count(start: real, stop: real, step: real): nat
    requires step != 0.0
  {
    var n := Ceil((stop - start) / step);
    if n > 0 then n else 0
  }

  /** The set-points a ramp writes, in order; `np.arange` raises on a zero step. */
  function Setpoints(present: real, target: real, step: real, inclusive: bool): (r: Result<seq<real>>)
    ensures r.Ok? ==> |r.value| >= 1 && r.value[|r.value| - 1] == target
  {
    if Close(present, target, step, inclusive) then Ok([target])
    else
      var s := Sign(target - present) * step;
      if s == 0.0 then Err("ZeroDivisionError: division by zero")
      else Ok(Walk(present, s, Count(present, target, s)) + [target])
  }

  /** The walk is exactly what `np.arange` yields, so the ramp is the driver's loop. */
  lemma SetpointsAreArange(present: real, target: real, step: real, inclusive: bool)
    ensures Setpoints(present, target, step, inclusive) ==
      if Close(present, target, step, inclusive) then Ok([target])
      else match Arange(present, target, Sign(target - present) * step)
        case Err(e) => Err(e)
        case Ok(xs) => Ok(xs + [target])
  {
    var s := Sign(target - present) * step;
    if !Close(present, target, step, inclusive) && s != 0.0 {
      ArangeLength(present, target, s);
      assert Arange(present, target, s).value == Walk(present, s, Count(present, target, s));
    }
  }

  /** A target within reach is the single value written. */
  lemma CloseIsOneWrite(present: real, target: real, step: real, inclusive: bool)
    requires Close(present, target, step, inclusive)
    ensures Setpoints(present, target, step, inclusive) == Ok([target])
  {
  }

  /**
   * The ramp fails exactly when it is not close and its signed step is zero:
   * a zero slope, or a non-positive one with the source already at the target.
   */
  lemma RampFails(present: real, target: real, step: real, inclusive: bool)
    ensures Setpoints(present, target, step, inclusive).Err?
        <==> !Close(present, target, step, inclusive) && (step == 0.0 || target == present)
  {
    if !Close(present, target, step, inclusive) {
      assert Sign(target - present) * step == 0.0 <==> step == 0.0 || target == present;
    }
  }

  /** A negative slope never ramps: a different target is written at once. */
  lemma NegativeStepJumps(present: real, target: real, step: real, inclusive: bool)
    requires step < 0.0 && target != present
    ensures Setpoints(present, target, step, inclusive) == Ok([target])
  {
    SetpointsAreArange(present, target, step, inclusive);
    var s := Sign(target - present) * step;
    if target > present {
      assert s < 0.0;
    } else {
      assert s > 0.0;
    }
    var xs := Arange(present, target, s).value;
    ArangeLength(present, target, s);
    assert (target - present) / s < 0.0;
    assert !Close(present, target, step, inclusive);
    assert xs + [target] == [target];
  }

  /**
   * With a positive step and a target out of reach, the ramp starts at the
   * present set-point, moves by exactly one step toward the target at each
   * write, never reaches the target before the last write, and ends on it.
   */
  lemma RampWalksToTarget(present: real, target: real, step: real, inclusive: bool)
    requires step > 0.0 && !Close(present, target, step, inclusive)
    ensures Setpoints(present, target, step, inclusive).Ok?
    ensures var r := Setpoints(present, target, step, inclusive).value;
      && |r| >= 2
      && r[0] == present
      && r[|r| - 1] == target
      && (forall i :: 0 <= i < |r| - 1 ==> r[i] == present + i as real * Sign(target - present) * step)
      && (target > present ==> forall i :: 0 <= i < |r| - 1 ==> present <= r[i] < target)
      && (target < present ==> forall i :: 0 <= i < |r| - 1 ==> target < r[i] <= present)
  {
    SetpointsAreArange(present, target, step, inclusive);
    var s := Sign(target - present) * step;
    assert target != present;
    var xs := Arange(present, target, s).value;
    assert |xs| >= 1;
    var r := xs + [target];
    forall i | 0 <= i < |r| - 1
      ensures r[i] == present + i as real * Sign(target - present) * step
    {
      assert r[i] == xs[i];
    }
  }
}
