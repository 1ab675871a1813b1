// mascril/parameter.py: the measurement parameters a module declares. A Sweep
// turns what the user typed into the list of values a module loops over,
// either by evaluating a Python expression or from start/stop/step with the
// A/R, from-0 and to-0 options; a Select offers a fixed list of strings; the
// simple parameters hold a folder, a string or a boolean. In command-line mode
// there are no widgets and the value is the stored one.
module Parameter {
  import opened Common
  import opened NumPy

  // ------------------------------------------------- Python values

  /**
   * What an expression can evaluate to, as far as `np.asarray(v, dtype=float)`
   * is concerned: a number (int, float, bool), a list, a tuple, an ndarray,
   * or anything numpy cannot turn into floats.
   */
  datatype PyVal = Number(r: real) | List(items: seq<PyVal>) | Tuple(items: seq<PyVal>) | Array(items: seq<PyVal>) | Foreign

  predicate IsSeq(v: PyVal)
  {
    v.List? || v.Tuple? || v.Array?
  }

  /** The shape numpy gives `v`; None for a ragged nesting or a foreign element. */
  function ShapeOf(v: PyVal): Option<seq<nat>>
    decreases v, 1, 0
  {
    match v
    case Number(_) => Some([])
    case Foreign => None
    case _ =>
      if |v.items| == 0 then Some([0])
      else
        var first := ShapeOf(v.items[0]);
        if first.Some? && Uniform(v, 1, first.value) then Some([|v.items|] + first.value) else None
  }

  /** The items of `v` from the i-th on all have shape s. */
  predicate Uniform(v: PyVal, i: nat, s: seq<nat>)
    requires IsSeq(v)
    decreases v, 0, |v.items| - i
  {
    i >= |v.items| || (ShapeOf(v.items[i]) == Some(s) && Uniform(v, i + 1, s))
  }

  /** The elements of `v` in row-major order. */
  function Flat(v: PyVal): seq<real>
    decreases v, 1, 0
  {
    match v
    case Number(r) => [r]
    case Foreign => []
    case _ => FlatFrom(v, 0)
  }

  function FlatFrom(v: PyVal, i: nat): seq<real>
    requires IsSeq(v)
    decreases v, 0, |v.items| - i
  {
    if i >= |v.items| then [] else Flat(v.items[i]) + FlatFrom(v, i + 1)
  }

  function Product(s: seq<nat>): nat
  {
    if |s| == 0 then 1 else s[0] * Product(s[1..])
  }

  /** `np.asarray(v, dtype=float).flatten()`: None where numpy raises. */
  function Flatten(v: PyVal): Option<seq<real>>
  {
    if ShapeOf(v).Some? then Some(Flat(v)) else None
  }

  /** A flattened array holds as many elements as its shape's product. */
  lemma {:induction false} FlatLength(v: PyVal, s: seq<nat>)
    requires ShapeOf(v) == Some(s)
    ensures |Flat(v)| == Product(s)
    decreases v, 1, 0
  {
    match v
    case Number(_) =>
    case Foreign =>
    case _ =>
      if |v.items| > 0 {
        var first := ShapeOf(v.items[0]).value;
        assert s == [|v.items|] + first;
        assert s[1..] == first;
        FlatFromLength(v, 0, first);
      }
  }

  lemma {:induction false} FlatFromLength(v: PyVal, i: nat, s: seq<nat>)
    requires IsSeq(v) && i <= |v.items| && Uniform(v, i, s)
    requires i == 0 ==> |v.items| == 0 || ShapeOf(v.items[0]) == Some(s)
    ensures |FlatFrom(v, i)| == (|v.items| - i) * Product(s)
    decreases v, 0, |v.items| - i
  {
    if i < |v.items| {
      if i == 0 {
        assert ShapeOf(v.items[0]) == Some(s);
      }
      FlatLength(v.items[i], s);
      FlatFromLength(v, i + 1, s);
      assert (|v.items| - i) * Product(s) == Product(s) + (|v.items| - (i + 1)) * Product(s);
    }
  }

  /**
   * The items of a list evaluated from the text, each converted on its own
   * and appended in order, as the `np.append` loop does; None when one fails.
   */
  function FlattenEach(items: seq<PyVal>): Option<seq<real>>
  {
    if |items| == 0 then Some([])
    else
      var init := FlattenEach(items[..|items| - 1]);
      var last := Flatten(items[|items| - 1]);
      if init.Some? && last.Some? then Some(init.value + last.value) else None
  }

  /** Once an item fails to convert, every longer prefix fails. */
  lemma {:induction false} FlattenEachFails(items: seq<PyVal>, i: nat)
    requires i <= |items| && FlattenEach(items[..i]) == None
    ensures FlattenEach(items) == None
    decreases |items| - i
  {
    if i < |items| {
      assert items[..i + 1][..i] == items[..i];
      FlattenEachFails(items, i + 1);
    } else {
      assert items[..i] == items;
    }
  }

  // --------------------------------------------------- parseValue

  /** The argument of `parseValue`: a text to evaluate, or a Python value. */
  datatype Given = Text(s: string) | Given(v: PyVal)

  const COULD_NOT_EVALUATE := "could not evaluate"

  /** `def_value` */
  const DefaultSweep: seq<real> := [0.0]

  /** `'[' + ",".join(map(str, values)) + ']'`, given Python's `str` of a float. */
  function Listed(values: seq<real>, fmt: real -> string): string
  {
    "[" + Join(seq(|values|, i requires 0 <= i < |values| => fmt(values[i])), ",") + "]"
  }

  /**
   * What `parseValue` returns: for a text, the values of the expression
   * (a list or tuple item by item, anything else as one array) and the text
   * itself; for a list, ndarray, float or int, its flattened values and
   * their listing; the default and `could not evaluate` where evaluation or
   * conversion raises and for every other type (a tuple included). `eval`
   * stands for Python's `eval` with `np`, `r` and `l` in scope.
   */
  function ParseSpec(given: Given, eval: string -> Result<PyVal>, fmt: real -> string): (seq<real>, string)
  {
    match given
    case Text(s) =>
      var f := TextValues(s, eval);
      if f.None? then (DefaultSweep, COULD_NOT_EVALUATE) else (f.value, s)
    case Given(v) =>
      if v.Tuple? || v.Foreign? then (DefaultSweep, COULD_NOT_EVALUATE)
      else
        var f := Flatten(v);
        if f.None? then (DefaultSweep, COULD_NOT_EVALUATE) else (f.value, Listed(f.value, fmt))
  }

  /** The values of an expression text, or None where `eval` or the conversion raises. */
  function TextValues(s: string, eval: string -> Result<PyVal>): Option<seq<real>>
  {
    var ev := eval(s);
    if ev.Err? then None
    else if ev.value.List? || ev.value.Tuple? then FlattenEach(ev.value.items)
    else Flatten(ev.value)
  }

  /**
   * A list, ndarray or number numpy converts gives its elements in order
   * and their listing, which is never `could not evaluate`; one it cannot
   * convert gives the default.
   */
  lemma ParseGiven(v: PyVal, eval: string -> Result<PyVal>, fmt: real -> string)
    requires !v.Tuple? && !v.Foreign?
    ensures ShapeOf(v).Some? ==>
      ParseSpec(Given(v), eval, fmt) == (Flat(v), Listed(Flat(v), fmt)) &&
      |ParseSpec(Given(v), eval, fmt).0| == Product(ShapeOf(v).value) &&
      ParseSpec(Given(v), eval, fmt).1 != COULD_NOT_EVALUATE
    ensures ShapeOf(v).None? ==> ParseSpec(Given(v), eval, fmt) == (DefaultSweep, COULD_NOT_EVALUATE)
  {
    if ShapeOf(v).Some? {
      FlatLength(v, ShapeOf(v).value);
      assert Listed(Flat(v), fmt)[0] == '[' != COULD_NOT_EVALUATE[0];
    }
  }

  /** `parseValue` (parameter.py:226-256). */
  method ParseValue(given: Given, eval: string -> Result<PyVal>, fmt: real -> string) returns (value: seq<real>, text: string)
    ensures (value, text) == ParseSpec(given, eval, fmt)
  {
    match given
    case Text(s) =>
      text := s;
      var ev := eval(s);
      if ev.Err? {
        assert TextValues(s, eval).None?;
        return DefaultSweep, COULD_NOT_EVALUATE;
      }
      var values := ev.value;
      if values.List? || values.Tuple? {
        value := [];
        var i := 0;
        while i < |values.items|
          invariant i <= |values.items| && FlattenEach(values.items[..i]) == Some(value)
        {
          var f := Flatten(values.items[i]);
          assert values.items[..i + 1][..i] == values.items[..i];
          if f.None? {
            FlattenEachFails(values.items, i + 1);
            assert TextValues(s, eval).None?;
            return DefaultSweep, COULD_NOT_EVALUATE;
          }
          value := value + f.value;
          i := i + 1;
        }
        assert values.items[..i] == values.items;
        assert TextValues(s, eval) == Some(value);
      } else {
        var f := Flatten(values);
        if f.None? {
          assert TextValues(s, eval).None?;
          return DefaultSweep, COULD_NOT_EVALUATE;
        }
        value := f.value;
        assert TextValues(s, eval) == Some(value);
      }
    case Given(v) =>
      if v.Tuple? || v.Foreign? {
        return DefaultSweep, COULD_NOT_EVALUATE;
      }
      var f := Flatten(v);
      if f.None? {
        return DefaultSweep, COULD_NOT_EVALUATE;
      }
      value := f.value;
      text := Listed(value, fmt);
  }

  // ------------------------------------------------------ ranges

  /** `zero`: the tolerance under which the last value counts as stop. */
  const ZERO: real := 0.000000000000001

  const INDEX_ERROR := "IndexError: index -1 is out of bounds for axis 0 with size 0"

  function Reversed(xs: seq<real>): (r: seq<real>)
    ensures |r| == |xs| && forall i :: 0 <= i < |xs| ==> r[i] == xs[|xs| - 1 - i]
  {
    seq(|xs|, i requires 0 <= i < |xs| => xs[|xs| - 1 - i])
  }

  /** `np.arange(start, stop, sign(stop - start)·|step|)`, then stop unless already there. */
  function OneWay(start: real, stop: real, step: real): Result<seq<real>>
  {
    var r := Arange(start, stop, Sign(stop - start) * Abs(step));
    if r.Err? then r
    else if |r.value| == 0 then Err(INDEX_ERROR)
    else if Abs(r.value[|r.value| - 1] - stop) < ZERO then Ok(r.value)
    else Ok(r.value + [stop])
  }

  /**
   * A range needs a non-zero step between two different ends; it starts at
   * start, advances by |step| toward stop, stays short of stop until its
   * last value, and ends at stop (within the tolerance).
   */
  lemma OneWayShape(start: real, stop: real, step: real)
    ensures OneWay(start, stop, step).Ok? <==> start != stop && step != 0.0
    ensures OneWay(start, stop, step).Ok? ==>
      var v := OneWay(start, stop, step).value;
      var d := Sign(stop - start) * Abs(step);
      && |v| >= 1 && v[0] == start && Abs(v[|v| - 1] - stop) < ZERO
      && (forall i :: 0 <= i < |v| - 1 ==> v[i] == start + i as real * d)
      && (start < stop ==> forall i :: 0 <= i < |v| - 1 ==> v[i] < stop)
      && (start > stop ==> forall i :: 0 <= i < |v| - 1 ==> v[i] > stop)
  {
    var d := Sign(stop - start) * Abs(step);
    if start != stop && step != 0.0 {
      assert d != 0.0;
      var r := Arange(start, stop, d).value;
      var n := Ceil((stop - start) / d);
      assert (stop - start) / d > 0.0;
      assert |r| >= 1;
    }
  }

  /** A/R: the range followed by its reverse. */
  function WithReturn(one: seq<real>, ar: bool): seq<real>
  {
    if ar then one + Reversed(one) else one
  }

  /** from 0: values from 0 toward a non-zero first value, before it. */
  function FromZero(a: seq<real>, step: real): Result<seq<real>>
    requires |a| > 0
  {
    if a[0] == 0.0 then Ok(a)
    else
      var h := Arange(0.0, a[0], Sign(a[0]) * Abs(step));
      if h.Err? then h else Ok(h.value + a)
  }

  /** to 0: values from a non-zero last value toward 0, after it. */
  function ToZero(b: seq<real>, step: real): Result<seq<real>>
    requires |b| > 0
  {
    if b[|b| - 1] == 0.0 then Ok(b)
    else
      var t := Arange(b[|b| - 1], 0.0, -Sign(b[|b| - 1]) * Abs(step));
      if t.Err? then t else Ok(b + t.value)
  }

  /** The values of the range dialog before rounding (parameter.py:276-286). */
  function RangeValues(start: real, stop: real, step: real, ar: bool, from0: bool, to0: bool): Result<seq<real>>
  {
    var one := OneWay(start, stop, step);
    if one.Err? then one
    else
      var a := WithReturn(one.value, ar);
      if |a| == 0 then Err(INDEX_ERROR)
      else
        var b := if from0 then FromZero(a, step) else Ok(a);
        if b.Err? then b
        else if |b.value| == 0 then Err(INDEX_ERROR)
        else if to0 then ToZero(b.value, step) else b
  }

  /** A/R appends the reversed range: a palindrome twice as long. */
  lemma AllerRetour(start: real, stop: real, step: real)
    requires start != stop && step != 0.0
    ensures RangeValues(start, stop, step, true, false, false) == Ok(WithReturn(OneWay(start, stop, step).value, true))
    ensures var v := WithReturn(OneWay(start, stop, step).value, true);
      var one := OneWay(start, stop, step).value;
      && |v| == 2 * |one| && v[..|one|] == one
      && forall i :: 0 <= i < |v| ==> v[i] == v[|v| - 1 - i]
  {
    OneWayShape(start, stop, step);
  }

  /**
   * from 0 prepends 0, |step|, ... toward the first value, without it, when
   * that value is not 0; the values after them are unchanged.
   */
  lemma FromZeroShape(a: seq<real>, step: real)
    requires |a| > 0 && step != 0.0
    ensures FromZero(a, step).Ok?
    ensures var v := FromZero(a, step).value;
      && |v| >= |a| && v[|v| - |a|..] == a
      && (a[0] == 0.0 ==> v == a)
      && (a[0] != 0.0 ==> |v| > |a| && v[0] == 0.0 && forall i :: 0 <= i < |v| - |a| ==> Abs(v[i]) < Abs(a[0]))
  {
    if a[0] != 0.0 {
      var d := Sign(a[0]) * Abs(step);
      assert (a[0] - 0.0) / d > 0.0 by {
        if a[0] > 0.0 { assert d > 0.0; } else { assert d < 0.0; }
      }
      var h := Arange(0.0, a[0], d).value;
      var v := h + a;
      forall i | 0 <= i < |h|
        ensures Abs(h[i]) < Abs(a[0])
      {
        if a[0] > 0.0 {
          assert 0.0 <= i as real * d;
        } else {
          assert i as real * d <= 0.0;
        }
      }
      assert v[|v| - |a|..] == a;
    }
  }

  /**
   * to 0 appends the last value (again), then values toward 0, without 0,
   * when the last value is not 0; the values before them are unchanged.
   */
  lemma ToZeroShape(b: seq<real>, step: real)
    requires |b| > 0 && step != 0.0
    ensures ToZero(b, step).Ok?
    ensures var w := ToZero(b, step).value;
      && |w| >= |b| && w[..|b|] == b
      && (b[|b| - 1] == 0.0 ==> w == b)
      && (b[|b| - 1] != 0.0 ==> |w| > |b| && w[|b|] == b[|b| - 1] && forall i :: |b| <= i < |w| ==> w[i] != 0.0)
  {
    var last := b[|b| - 1];
    if last != 0.0 {
      var d := -Sign(last) * Abs(step);
      assert (0.0 - last) / d > 0.0 by {
        if last > 0.0 { assert d < 0.0; } else { assert d > 0.0; }
      }
      var t := Arange(last, 0.0, d).value;
      assert (b + t)[..|b|] == b;
    }
  }

  /** `np.round(value, 12)` */
  function Rounded(xs: seq<real>): (r: seq<real>)
    ensures |r| == |xs| && forall i :: 0 <= i < |xs| ==> r[i] == RoundTo(xs[i], 12)
  {
    seq(|xs|, i requires 0 <= i < |xs| => RoundTo(xs[i], 12))
  }

  // --------------------------------------------------- the count

  /**
   * What `values_changed` shows for a non-zero step (parameter.py:307-317):
   * the one-way count, doubled under A/R, plus the from-0 and to-0 counts.
   */
  function StepCount(start: real, stop: real, step: real, ar: bool, from0: bool, to0: bool): int
    requires step != 0.0
  {
    var arfactor := if ar then 2 else 1;
    var from0steps := if from0 && start != 0.0 then Trunc(Abs(start / step)) + 1 else 0;
    var to0steps :=
      if to0 && !((!ar && stop == 0.0) || (ar && start == 0.0)) then Trunc(Abs((if ar then start else stop) / step)) + 1
      else 0;
    (Trunc((stop - start) / step) + 1) * arfactor + from0steps + to0steps
  }

  lemma ArangeExact(start: real, stop: real, step: real, n: nat)
    requires n >= 1 && stop - start == n as real * step && step != 0.0
    ensures Arange(start, stop, step).Ok? && |Arange(start, stop, step).value| == n
  {
    assert (stop - start) / step == n as real by {
      assert (n as real * step) / step == n as real;
    }
  }

  lemma ArangeExactLast(start: real, stop: real, step: real, n: nat)
    requires n >= 1 && stop - start == n as real * step && step != 0.0
    ensures Arange(start, stop, step).Ok? && |Arange(start, stop, step).value| == n
    ensures Arange(start, stop, step).value[n - 1] == stop - step
  {
    ArangeExact(start, stop, step, n);
    var r := Arange(start, stop, step).value;
    assert r[n - 1] == start + (n - 1) as real * step;
  }

  /** When the step divides the span n ≥ 1 times exactly, the range has n + 1 values, stop last. */
  lemma ExactOneWay(start: real, stop: real, step: real, n: nat)
    requires n >= 1 && stop - start == n as real * step && Abs(step) >= ZERO
    ensures step != 0.0 && OneWay(start, stop, step).Ok?
    ensures |OneWay(start, stop, step).value| == n + 1
  {
    var d := Sign(stop - start) * Abs(step);
    assert d == step by {
      if step > 0.0 { assert stop - start > 0.0; } else { assert stop - start < 0.0; }
    }
    ArangeExactLast(start, stop, step, n);
    assert Abs(stop - step - stop) == Abs(step);
  }

  /**
   * When the step divides the span n ≥ 1 times exactly, the count shown is
   * the length of the range `apply` builds, and A/R doubles both.
   */
  lemma CountOfExactRange(start: real, stop: real, step: real, n: nat)
    requires n >= 1 && stop - start == n as real * step && Abs(step) >= ZERO
    ensures step != 0.0
    ensures |OneWay(start, stop, step).value| == n + 1 == StepCount(start, stop, step, false, false, false)
    ensures |RangeValues(start, stop, step, true, false, false).value| == 2 * (n + 1) == StepCount(start, stop, step, true, false, false)
  {
    ExactOneWay(start, stop, step, n);
    ExactCount(start, stop, step, n);
    AllerRetour(start, stop, step);
  }

  lemma ExactCount(start: real, stop: real, step: real, n: nat)
    requires n >= 1 && stop - start == n as real * step && step != 0.0
    ensures Trunc((stop - start) / step) == n
  {
    assert (stop - start) / step == n as real by {
      assert (n as real * step) / step == n as real;
    }
  }


  /**
   * When the step does not divide the span the count is one short: for
   * 0 → 1 by 0.3 it shows 4 while the range is 0, 0.3, 0.6, 0.9, 1.
   */
  lemma CountOneShort()
    ensures OneWay(0.0, 1.0, 0.3) == Ok([0.0, 0.3, 0.6, 0.9, 1.0])
    ensures StepCount(0.0, 1.0, 0.3, false, false, false) == 4
  {
    assert Sign(1.0 - 0.0) * Abs(0.3) == 0.3;
    assert Ceil(1.0 / 0.3) == 4;
    assert Trunc(1.0 / 0.3) == 3;
    var r := Arange(0.0, 1.0, 0.3).value;
    assert |r| == 4 && r[0] == 0.0 && r[1] == 0.3 && r[2] == 0.6 && r[3] == 0.9;
    assert r == [0.0, 0.3, 0.6, 0.9];
    assert !(Abs(r[3] - 1.0) < ZERO);
    assert r + [1.0] == [0.0, 0.3, 0.6, 0.9, 1.0];
  }

  // ---------------------------------------------------- Sweep

  /**
   * The sweep dialog: which group is checked, the start, stop and step
   * fields, the A/R, from-0 and to-0 boxes, and the manual text.
   */
  datatype Dialog = Dialog(rangeMode: bool, start: string, stop: string, step: string,
                           ar: bool, from0: bool, to0: bool, manual: string)

  /** A Sweep parameter: its values, what its read-only field shows, the dialog's state and the count it shows. */
  class Sweep {
    const cli: bool
    var value: seq<real>
    var shown: string
    var dialogOpen: bool
    var count: Option<int>

    /**
     * The state `__init__` (parameter.py:141-161) leaves when it returns: the
     * parsed initial value, the field showing the text. `NewSweep` is the
     * call itself, which can raise first.
     */
    constructor (given: Given, eval: string -> Result<PyVal>, fmt: real -> string, cli: bool)
      ensures this.cli == cli && !dialogOpen && count == None
      ensures value == ParseSpec(given, eval, fmt).0
      ensures shown == (if cli then "" else ParseSpec(given, eval, fmt).1)
    {
      this.cli := cli;
      var v, text := ParseValue(given, eval, fmt);
      value := v;
      shown := if cli then "" else text;
      dialogOpen := false;
      count := None;
    }

    /** `setup`: the dialog opens when there is a main window. */
    method Setup(mainWindow: bool)
      modifies this`dialogOpen
      ensures dialogOpen == (old(dialogOpen) || mainWindow)
    {
      if !mainWindow {
        return;
      }
      dialogOpen := true;
    }

    /**
     * `apply` (parameter.py:263-295), `num` being Python's `float()` of a
     * field. In range mode: nothing changes when a field does not parse or
     * numpy raises (the exception is returned), otherwise the rounded range
     * and its listing, and the dialog closes. In manual mode: the parsed
     * text, the dialog staying open exactly on `could not evaluate`.
     */
    method Apply(d: Dialog, eval: string -> Result<PyVal>, fmt: real -> string, num: string -> Option<real>)
      returns (raised: Option<string>)
      modifies this`value, this`shown, this`dialogOpen
      ensures cli ==> raised == None && unchanged(this)
      ensures !cli && d.rangeMode && (num(d.start).None? || num(d.stop).None? || num(d.step).None?) ==>
        raised == None && unchanged(this)
      ensures !cli && d.rangeMode && num(d.start).Some? && num(d.stop).Some? && num(d.step).Some? ==>
        var r := RangeValues(num(d.start).value, num(d.stop).value, num(d.step).value, d.ar, d.from0, d.to0);
        && (r.Err? ==> raised == Some(r.error) && unchanged(this))
        && (r.Ok? ==> raised == None && value == Rounded(r.value) && shown == Listed(value, fmt) && !dialogOpen)
      ensures !cli && !d.rangeMode ==>
        var (v, t) := ParseSpec(Text(d.manual), eval, fmt);
        raised == None && value == v && shown == t && dialogOpen == (old(dialogOpen) && t == COULD_NOT_EVALUATE)
    {
      raised := None;
      if cli {
        return;
      }
      if d.rangeMode {
        var start, stop, step := num(d.start), num(d.stop), num(d.step);
        if start.None? || stop.None? || step.None? {
          return;
        }
        var r := RangeValues(start.value, stop.value, step.value, d.ar, d.from0, d.to0);
        if r.Err? {
          return Some(r.error);
        }
        value := Rounded(r.value);
        shown := Listed(value, fmt);
        dialogOpen := false;
      } else {
        var v, t := ParseValue(Text(d.manual), eval, fmt);
        value := v;
        shown := t;
        if t != COULD_NOT_EVALUATE {
          dialogOpen := false;
        }
      }
    }

    /**
     * `values_changed` (parameter.py:297-317): the count for a non-zero step
     * whose three fields parse; nothing otherwise, and nothing in CLI mode.
     */
    method ValuesChanged(d: Dialog, num: string -> Option<real>)
      modifies this`count
      ensures var start, stop, step := num(d.start), num(d.stop), num(d.step);
        if !cli && start.Some? && stop.Some? && step.Some? && step.value != 0.0 then
          count == Some(StepCount(start.value, stop.value, step.value, d.ar, d.from0, d.to0))
        else count == old(count)
    {
      if cli {
        return;
      }
      var start, stop, step := num(d.start), num(d.stop), num(d.step);
      if start.None? || stop.None? || step.None? || step.value == 0.0 {
        return;
      }
      count := Some(StepCount(start.value, stop.value, step.value, d.ar, d.from0, d.to0));
    }
  }

  /** What `parseValue`'s warning raises during `__init__`: the dialog is created after it. */
  const NO_DIALOG := "AttributeError: 'Sweep' object has no attribute 'dialog'"

  /**
   * `Sweep(value)` (parameter.py:141-164): outside CLI mode a text that does
   * not evaluate makes `parseValue` open a warning on `self.dialog`
   * (parameter.py:240-241), which does not exist yet, so construction raises;
   * otherwise the new parameter holds the parsed value.
   */
  method NewSweep(given: Given, eval: string -> Result<PyVal>, fmt: real -> string, cli: bool) returns (r: Result<Sweep>)
    ensures !cli && given.Text? && TextValues(given.s, eval).None? ==> r == Err(NO_DIALOG)
    ensures cli || !given.Text? || TextValues(given.s, eval).Some? ==>
      && r.Ok? && fresh(r.value) && r.value.cli == cli && !r.value.dialogOpen && r.value.count == None
      && r.value.value == ParseSpec(given, eval, fmt).0
      && r.value.shown == (if cli then "" else ParseSpec(given, eval, fmt).1)
  {
    if !cli && given.Text? && TextValues(given.s, eval).None? {
      return Err(NO_DIALOG);
    }
    var sweep := new Sweep(given, eval, fmt, cli);
    return Ok(sweep);
  }


  // ---------------------------------------------------- Select

  /** `findText`: the first index holding `x`, or -1. */
  function IndexOf(xs: seq<string>, x: string): (r: int)
    ensures -1 <= r && (r == -1 <==> x !in xs)
    ensures r >= 0 ==> r < |xs| && xs[r] == x && x !in xs[..r]
  {
    if |xs| == 0 then -1
    else if xs[0] == x then 0
    else
      var k := IndexOf(xs[1..], x);
      assert forall i :: 0 <= i < |xs| - 1 ==> xs[1..][i] == xs[i + 1];
      if k == -1 then -1
      else
        assert xs[..k + 1] == [xs[0]] + xs[1..][..k];
        k + 1
  }

  predicate Distinct(xs: seq<string>)
  {
    forall i, j :: 0 <= i < j < |xs| ==> xs[i] != xs[j]
  }

  /** Python's `values[i]`, negative indices counting from the end. */
  function PyIndex(xs: seq<string>, i: int): Option<string>
  {
    if 0 <= i < |xs| then Some(xs[i])
    else if -|xs| <= i < 0 then Some(xs[|xs| + i])
    else None
  }

  const DUPLICATE_ITEM := "Exception: Duplicate item in Select()"
  const NOT_IN_LIST := "Exception: Item not part of list"
  const LIST_INDEX := "IndexError: list index out of range"

  /** A Select parameter: the combo box's entries and current index, and the stored value. */
  class Select {
    const cli: bool
    var items: seq<string>
    var index: int
    var stored: Option<string>

    /** A Select before its `__init__` body. */
    constructor (cli: bool)
      ensures this.cli == cli && items == [] && index == -1 && stored == None
    {
      this.cli := cli;
      items := [];
      index := -1;
      stored := None;
    }

    /** The value: the stored one in CLI mode, the combo box's current text otherwise. */
    function Value(): Option<string>
      reads this
    {
      if cli then stored else if 0 <= index < |items| then Some(items[index]) else Some("")
    }

    /**
     * `__init__` (parameter.py:107-120): in CLI mode the default entry, with
     * no further check; otherwise the entries one by one, raising at the
     * first one already added.
     */
    method Init(values: seq<string>, defaultindex: int) returns (raised: Option<string>)
      requires items == [] && index == -1 && stored == None
      modifies this`items, this`index, this`stored
      ensures cli ==> items == [] && index == -1
      ensures cli && PyIndex(values, defaultindex).Some? ==> raised == None && Value() == PyIndex(values, defaultindex)
      ensures cli && PyIndex(values, defaultindex).None? ==> raised == Some(LIST_INDEX) && stored == None
      ensures !cli ==> stored == None && (raised == None <==> Distinct(values))
      ensures !cli && raised == None ==> items == values && index == (if |values| > 0 then 0 else -1)
      ensures !cli ==> Distinct(items) && items <= values
    {
      if cli {
        var v := PyIndex(values, defaultindex);
        if v.None? {
          return Some(LIST_INDEX);
        }
        stored := v;
        return None;
      }
      var i := 0;
      while i < |values|
        invariant i <= |values| && items == values[..i] && Distinct(values[..i]) && stored == None
        invariant index == (if i > 0 then 0 else -1)
      {
        if IndexOf(items, values[i]) != -1 {
          assert !Distinct(values) by {
            var k := IndexOf(items, values[i]);
            assert values[k] == values[i];
          }
          return Some(DUPLICATE_ITEM);
        }
        items := items + [values[i]];
        if index == -1 {
          index := 0;
        }
        i := i + 1;
        assert items == values[..i];
      }
      assert values[..i] == values;
      raised := None;
    }

    /**
     * The `value` setter (parameter.py:127-135): the value is stored; outside
     * CLI mode it must be one of the entries, which becomes the current one.
     */
    method SetValue(val: string) returns (raised: Option<string>)
      modifies this`stored, this`index
      ensures stored == Some(val) && items == old(items)
      ensures cli ==> raised == None && Value() == Some(val) && index == old(index)
      ensures !cli ==> (raised == None <==> val in items)
      ensures !cli && val in items ==> Value() == Some(val) && index == IndexOf(items, val)
      ensures !cli && val !in items ==> raised == Some(NOT_IN_LIST) && index == old(index)
    {
      stored := Some(val);
      if cli {
        return None;
      }
      var i := IndexOf(items, val);
      if i == -1 {
        return Some(NOT_IN_LIST);
      }
      index := i;
      raised := None;
    }
  }

  // ----------------------------------------------- Folder, String, Boolean

  /**
   * A Folder, String or Boolean parameter: the stored value and, outside CLI
   * mode, what the widget holds, which is what the parameter reads.
   */
  class Field<T> {
    const cli: bool
    var stored: T
    var shown: T

    /** `__init__` assigns the initial value through the setter. */
    constructor (v: T, cli: bool)
      ensures this.cli == cli && Value() == v && stored == v
    {
      this.cli := cli;
      stored := v;
      shown := v;
    }

    function Value(): T
      reads this
    {
      if cli then stored else shown
    }

    /** The `value` setter: stores, and fills the widget outside CLI mode; reading gives the value back. */
    method SetValue(v: T)
      modifies this
      ensures stored == v && Value() == v
      ensures cli ==> shown == old(shown)
    {
      stored := v;
      if !cli {
        shown := v;
      }
    }

    /** The user edits the widget: the parameter reads the edit, the stored value stays. */
    method Edit(v: T)
      requires !cli
      modifies this`shown
      ensures Value() == v && stored == old(stored)
    {
      shown := v;
    }
  }

  /** `Folder.browse` (parameter.py:62-65): a chosen directory replaces the widget's text; a cancelled dialog keeps it. */
  method Browse(folder: Field<string>, path: string)
    requires !folder.cli
    modifies folder`shown
    ensures folder.Value() == (if path != "" then path else old(folder.Value()))
    ensures folder.stored == old(folder.stored)
  {
    if path != "" {
      folder.shown := path;
    }
  }
}
