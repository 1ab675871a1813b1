// The numpy and built-in numeric operations the sweep and ramp code relies on,
// over exact reals: `np.arange`, `np.sign`, Python's `int()` truncation,
// `math.ceil`, and `round` / `np.around` (round half to even).
module NumPy {
  import opened Common

  function Abs(x: real): real
  {
    if x < 0.0 then -x else x
  }

  /** `np.sign` */
  function Sign(x: real): (r: real)
    ensures r * x == Abs(x)
    ensures r == 1.0 || r == -1.0 || (r == 0.0 && x == 0.0)
  {
    if x > 0.0 then 1.0 else if x < 0.0 then -1.0 else 0.0
  }

  /** Python's `int()` on a float truncates toward zero. */
  function Trunc(x: real): (r: int)
    ensures Abs(r as real) <= Abs(x) < Abs(r as real) + 1.0
    ensures x >= 0.0 ==> r >= 0
    ensures x <= 0.0 ==> r <= 0
  {
    if x >= 0.0 then x.Floor else -((-x).Floor)
  }

  /** The least integer not below `x`. */
  function Ceil(x: real): (r: int)
    ensures x <= r as real < x + 1.0
  {
    -((-x).Floor)
  }

  lemma ArangeBelow(start: real, stop: real, step: real, i: int)
    requires step > 0.0 && 0 <= i && (i as real) < (stop - start) / step
    ensures start + i as real * step < stop
  {
    assert (i as real) * step < ((stop - start) / step) * step;
  }

  lemma ArangeAbove(start: real, stop: real, step: real, i: int)
    requires step < 0.0 && 0 <= i && (i as real) < (stop - start) / step
    ensures start + i as real * step > stop
  {
    assert (i as real) * step > ((stop - start) / step) * step;
  }

  lemma ArangeReaches(start: real, stop: real, step: real, n: int)
    requires step != 0.0 && (stop - start) / step <= n as real
    ensures step > 0.0 ==> start + n as real * step >= stop
    ensures step < 0.0 ==> start + n as real * step <= stop
  {
    if step > 0.0 {
      assert ((stop - start) / step) * step <= (n as real) * step;
    } else {
      assert ((stop - start) / step) * step >= (n as real) * step;
    }
  }

  /**
   * `np.arange(start, stop, step)`: the values start, start + step, ... that lie
   * strictly before stop in the direction of step. A zero step raises.
   */
  function Arange(start: real, stop: real, step: real): (r: Result<seq<real>>)
    ensures r.Err? <==> step == 0.0
    ensures r.Ok? ==> forall i :: 0 <= i < |r.value| ==> r.value[i] == start + i as real * step
    ensures r.Ok? && step > 0.0 ==> forall i :: 0 <= i < |r.value| ==> r.value[i] < stop
    ensures r.Ok? && step < 0.0 ==> forall i :: 0 <= i < |r.value| ==> r.value[i] > stop
    ensures r.Ok? && step > 0.0 ==> start + |r.value| as real * step >= stop
    ensures r.Ok? && step < 0.0 ==> start + |r.value| as real * step <= stop
  {
    if step == 0.0 then Err("ZeroDivisionError: division by zero")
    else
      var n := Ceil((stop - start) / step);
      var m := if n > 0 then n else 0;
      var xs := seq(m, i requires 0 <= i < m => start + i as real * step);
      forall i | 0 <= i < m
        ensures step > 0.0 ==> xs[i] < stop
        ensures step < 0.0 ==> xs[i] > stop
      {
        assert (i as real) < (stop - start) / step;
        if step > 0.0 { ArangeBelow(start, stop, step, i); } else { ArangeAbove(start, stop, step, i); }
      }
      ArangeReaches(start, stop, step, m);
      Ok(xs)
  }

  /** `np.arange` has `ceil((stop - start) / step)` elements, none when that is not positive. */
  lemma ArangeLength(start: real, stop: real, step: real)
    requires step != 0.0
    ensures var n := Ceil((stop - start) / step);
      |Arange(start, stop, step).value| == if n > 0 then n else 0
  {
  }

  function Pow10(d: nat): (r: real)
    ensures r >= 1.0
  {
    if d == 0 then 1.0 else 10.0 * Pow10(d - 1)
  }

  /** The integer nearest to `y`, ties going to the even one. */
  function RoundHalfEven(y: real): (k: int)
    ensures Abs(k as real - y) <= 0.5
  {
    var f := y.Floor;
    var frac := y - f as real;
    if frac < 0.5 then f
    else if frac > 0.5 then f + 1
    else if f % 2 == 0 then f else f + 1
  }

  /** `x` with its decimal point moved `d` places to the right. */
  function Shift(x: real, d: nat): real
  {
    x * Pow10(d)
  }

  /** `round(x, d)` / `np.around(x, d)` for d decimals, ties to even. */
  function RoundTo(x: real, d: nat): real
  {
    RoundHalfEven(Shift(x, d)) as real / Pow10(d)
  }

  /** Rounding an already rounded number changes nothing. */
  lemma RoundToIdempotent(x: real, d: nat)
    ensures RoundTo(RoundTo(x, d), d) == RoundTo(x, d)
  {
    var p := Pow10(d);
    var k := RoundHalfEven(Shift(x, d));
    var r := k as real / p;
    assert Shift(r, d) == k as real;
    assert RoundHalfEven(k as real) == k;
  }
}
