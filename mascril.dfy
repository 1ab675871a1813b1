// MAScriL's measurement framework (P13pt/mascril/measurement.py).
//
// A measurement script binds values to names as it goes (Python's `locals()`),
// and hands those bindings to `save_row`, which writes one tab-separated line
// of the observables and then evaluates the user's alarm expressions on the
// same bindings. The data file is opened in append mode by `prepare_saving`
// and closed by `end_saving`. The acquisition is cooperative: scripts poll the
// `quit_requested` flag, which only an ALARM_QUIT rule (or the GUI's stop
// button, through `quit`) sets.
//
// Besides the file system and the flag, `MeasurementBase` keeps a trace of
// what the acquisition did, in order: set-points sent to sources, quit checks,
// saved rows, emitted alarm lists, spectra written. The scripts' contracts are
// stated over that trace.
module Mascril {
  import opened Common

  // ---------------------------------------------------------------- values

  /**
   * The Python values a script binds to names and alarms compute with.
   * `NonFinite` is the inf or nan numpy gives for a quotient by zero.
   */
  datatype Value = Num(r: real) | Flag(b: bool) | Text(s: string) | NonFinite(repr: string)

  /**
   * `a / b` where one operand is a numpy scalar (sweep values are numpy
   * arrays): a zero divisor gives inf, -inf or nan instead of raising.
   */
  function Quot(a: real, b: real): (r: Value)
    ensures b != 0.0 ==> r == Num(a / b)
    ensures b == 0.0 ==> r.NonFinite?
  {
    if b != 0.0 then Num(a / b)
    else if a > 0.0 then NonFinite("inf")
    else if a < 0.0 then NonFinite("-inf")
    else NonFinite("nan")
  }

  /** What `a / b` raises on two Python floats when `b` is zero. */
  const FLOAT_DIVISION_BY_ZERO := "ZeroDivisionError: float division by zero"
  /** What `prepare_saving` raises while a data file is still open. */
  const NOT_CLOSED := "The last data file has not been properly closed."

  /** The current through a gate resistor `r`: set voltage minus measured voltage, over `r`. */
  function LeakCurrent(v: real, vm: real, r: real): (i: Value)
    ensures r != 0.0 ==> i == Num((v - vm) / r)
    ensures r == 0.0 ==> i.NonFinite?
  {
    Quot(v - vm, r)
  }

  /**
   * The series resistance seen through a drain resistor `rds`: the divider
   * formula rds·Vdsm/(Vds − Vdsm).
   */
  function SeriesResistance(rds: real, vds: real, vdsm: real): (rs: Value)
    ensures vds != vdsm ==> rs == Num(rds * vdsm / (vds - vdsm))
    ensures vds == vdsm ==> rs.NonFinite?
  {
    Quot(rds * vdsm, vds - vdsm)
  }

  /** `locals()` of a measurement script, restricted to scalar bindings. */
  type Env = map<string, Value>

  /** The bindings made by assigning `values[q]` to `names[q]` in order, later assignments winning. */
  function Bind(names: seq<string>, values: seq<Value>): Env
    requires |names| == |values|
  {
    if |names| == 0 then map[]
    else Bind(names[..|names| - 1], values[..|values| - 1])[names[|names| - 1] := values[|values| - 1]]
  }

  predicate Distinct(names: seq<string>)
  {
    forall a, b :: 0 <= a < b < |names| ==> names[a] != names[b]
  }

  /** Exactly the assigned names are bound. */
  lemma {:induction false} BindDomain(names: seq<string>, values: seq<Value>, n: string)
    requires |names| == |values|
    ensures n in Bind(names, values) <==> n in names
  {
    if |names| > 0 {
      var last := |names| - 1;
      BindDomain(names[..last], values[..last], n);
      assert names == names[..last] + [names[last]];
    }
  }

  /** With distinct names, each name is bound to the value assigned to it. */
  lemma {:induction false} BindLookup(names: seq<string>, values: seq<Value>, q: nat)
    requires |names| == |values| && Distinct(names) && q < |names|
    ensures names[q] in Bind(names, values) && Bind(names, values)[names[q]] == values[q]
  {
    var last := |names| - 1;
    if q < last {
      BindLookup(names[..last], values[..last], q);
      assert names[q] != names[last];
    }
  }

  /** Python truthiness. */
  predicate Truthy(v: Value)
  {
    match v
    case Num(r) => r != 0.0
    case Flag(b) => b
    case Text(s) => s != ""
    case NonFinite(_) => true
  }

  /** A numpy float64: a real number, an infinity, or nan. */
  datatype Ext = Fin(r: real) | PosInf | NegInf | NaN

  /** The number a value stands for in arithmetic (`True + 1 == 2`); text is no number. */
  function AsNumber(v: Value): Option<Ext>
  {
    match v
    case Num(r) => Some(Fin(r))
    case Flag(b) => Some(Fin(if b then 1.0 else 0.0))
    case Text(_) => None
    case NonFinite(s) => Some(if s == "inf" then PosInf else if s == "-inf" then NegInf else NaN)
  }

  /** The value a numpy result is bound as. */
  function FromExt(x: Ext): Value
  {
    match x
    case Fin(r) => Num(r)
    case PosInf => NonFinite("inf")
    case NegInf => NonFinite("-inf")
    case NaN => NonFinite("nan")
  }

  /** numpy `<`: the infinities bound every real, and nan is unordered. */
  predicate Less(x: Ext, y: Ext)
  {
    match (x, y)
    case (Fin(a), Fin(b)) => a < b
    case (NegInf, Fin(_)) => true
    case (NegInf, PosInf) => true
    case (Fin(_), PosInf) => true
    case _ => false
  }

  /** numpy `==`: nan equals nothing, itself included. */
  predicate Same(x: Ext, y: Ext)
  {
    x == y && !x.NaN?
  }

  function ExtNeg(x: Ext): Ext
  {
    match x
    case Fin(r) => Fin(-r)
    case PosInf => NegInf
    case NegInf => PosInf
    case NaN => NaN
  }

  function ExtAbs(x: Ext): Ext
  {
    match x
    case Fin(r) => Fin(if r < 0.0 then -r else r)
    case NaN => NaN
    case _ => PosInf
  }

  /** The infinity of the given sign. */
  function Inf(positive: bool): Ext
  {
    if positive then PosInf else NegInf
  }

  /** numpy `+`: opposite infinities give nan. */
  function ExtAdd(x: Ext, y: Ext): Ext
  {
    match (x, y)
    case (NaN, _) => NaN
    case (_, NaN) => NaN
    case (Fin(a), Fin(b)) => Fin(a + b)
    case (Fin(_), _) => y
    case (_, Fin(_)) => x
    case _ => if x == y then x else NaN
  }

  /** numpy `*`: an infinity times zero is nan, otherwise the signs multiply. */
  function ExtMul(x: Ext, y: Ext): Ext
  {
    match (x, y)
    case (NaN, _) => NaN
    case (_, NaN) => NaN
    case (Fin(a), Fin(b)) => Fin(a * b)
    case (Fin(a), _) => if a == 0.0 then NaN else Inf((a > 0.0) == y.PosInf?)
    case (_, Fin(b)) => if b == 0.0 then NaN else Inf((b > 0.0) == x.PosInf?)
    case _ => Inf(x == y)
  }

  /**
   * `/`: two finite numbers divide as Python floats, raising on a zero divisor;
   * with an infinity or nan involved the operand is a numpy scalar, and a
   * finite number over an infinity is 0, an infinity over an infinity nan.
   */
  function ExtDiv(x: Ext, y: Ext): Evaluated
  {
    match (x, y)
    case (Fin(a), Fin(b)) => if b == 0.0 then Raises(ZeroDivisionError) else Returns(Num(a / b))
    case (NaN, _) => Returns(FromExt(NaN))
    case (_, NaN) => Returns(FromExt(NaN))
    case (Fin(_), _) => Returns(Num(0.0))
    case (_, Fin(b)) => Returns(FromExt(if b == 0.0 then x else Inf((b > 0.0) == x.PosInf?)))
    case _ => Returns(FromExt(NaN))
  }

  // ------------------------------------------------- alarm expressions

  datatype BinOp = Add | Sub | Mul | Div | Lt | Le | Gt | Ge | Eq | Ne | And | Or

  /**
   * An alarm condition as Python would parse it; `Unparsable` stands for text
   * that `eval` rejects with a syntax error.
   */
  datatype Expr =
    | Lit(v: Value)
    | Name(n: string)
    | Neg(e: Expr)
    | AbsOf(e: Expr)          // abs(e) or np.abs(e)
    | Not(e: Expr)
    | Bin(op: BinOp, a: Expr, b: Expr)
    | Unparsable(msg: string)

  /** The operations whose operands `eval` can reject. */
  datatype Operation = Negate | Absolute | Binary(op: BinOp)

  /** The exception an alarm evaluation raises; `alarm_data` keeps the exception object. */
  datatype PyError =
    | NameError(name: string)      // a name the locals do not bind
    | TypeError(at: Operation)     // an operand of the wrong type
    | ZeroDivisionError
    | SyntaxError(msg: string)

  /** What `eval` does: return a value or raise. */
  datatype Evaluated = Returns(value: Value) | Raises(exc: PyError)

  function Arith(op: BinOp, x: Ext, y: Ext): Evaluated
    requires op in {Add, Sub, Mul, Div, Lt, Le, Gt, Ge}
  {
    match op
    case Add => Returns(FromExt(ExtAdd(x, y)))
    case Sub => Returns(FromExt(ExtAdd(x, ExtNeg(y))))
    case Mul => Returns(FromExt(ExtMul(x, y)))
    case Div => ExtDiv(x, y)
    case Lt => Returns(Flag(Less(x, y)))
    case Le => Returns(Flag(Less(x, y) || Same(x, y)))
    case Gt => Returns(Flag(Less(y, x)))
    case Ge => Returns(Flag(Less(y, x) || Same(x, y)))
  }

  /** Python `==` between two scalars: numbers (and booleans) compare by value, nan to nothing. */
  predicate PyEqual(u: Value, w: Value)
  {
    if AsNumber(u).Some? && AsNumber(w).Some? then Same(AsNumber(u).value, AsNumber(w).value)
    else u == w
  }

  function Numeric(op: BinOp, u: Value, w: Value): Evaluated
    requires op in {Add, Sub, Mul, Div, Lt, Le, Gt, Ge}
  {
    if AsNumber(u).Some? && AsNumber(w).Some? then Arith(op, AsNumber(u).value, AsNumber(w).value)
    else Raises(TypeError(Binary(op)))
  }

  /** A binary operator applied to its two evaluated operands. */
  function Apply(op: BinOp, u: Value, w: Value): Evaluated
  {
    match op
    case Eq => Returns(Flag(PyEqual(u, w)))
    case Ne => Returns(Flag(!PyEqual(u, w)))
    case And => Returns(w)
    case Or => Returns(w)
    case Add => if u.Text? && w.Text? then Returns(Text(u.s + w.s)) else Numeric(Add, u, w)
    case Sub => Numeric(Sub, u, w)
    case Mul => Numeric(Mul, u, w)
    case Div => Numeric(Div, u, w)
    case Lt => Numeric(Lt, u, w)
    case Le => Numeric(Le, u, w)
    case Gt => Numeric(Gt, u, w)
    case Ge => Numeric(Ge, u, w)
  }

  /** `eval(condition, locals)`: the value, or the exception it raises. */
  function Eval(e: Expr, env: Env): (r: Evaluated)
    ensures e.Name? ==> (r.Returns? <==> e.n in env)
    ensures (e.Neg? || e.AbsOf?) && Eval(e.e, env).Returns? && AsNumber(Eval(e.e, env).value).Some? ==>
              r.Returns? && AsNumber(r.value).Some?
    ensures (e.Bin? && e.op in {Lt, Le, Gt, Ge, Eq, Ne} && Eval(e.a, env).Returns? && Eval(e.b, env).Returns? &&
             AsNumber(Eval(e.a, env).value).Some? && AsNumber(Eval(e.b, env).value).Some?) ==>
              r.Returns? && r.value.Flag?
    decreases e, 1
  {
    match e
    case Lit(v) => Returns(v)
    case Name(n) => if n in env then Returns(env[n]) else Raises(NameError(n))
    case Neg(_) => EvalUnary(e, env)
    case AbsOf(_) => EvalUnary(e, env)
    case Not(_) => EvalUnary(e, env)
    case Bin(_, _, _) => EvalBinary(e, env)
    case Unparsable(m) => Raises(SyntaxError(m))
  }

  /** `-x`, `abs(x)` and `not x`: the operand first, then the operator. */
  function EvalUnary(e: Expr, env: Env): Evaluated
    requires e.Neg? || e.AbsOf? || e.Not?
    decreases e, 0
  {
    match Eval(e.e, env)
    case Raises(x) => Raises(x)
    case Returns(v) =>
      if e.Not? then Returns(Flag(!Truthy(v)))
      else if AsNumber(v).None? then Raises(TypeError(if e.Neg? then Negate else Absolute))
      else if e.Neg? then Returns(FromExt(ExtNeg(AsNumber(v).value)))
      else Returns(FromExt(ExtAbs(AsNumber(v).value)))
  }

  /**
   * A binary operation: the left operand first; `and` and `or` return it
   * without evaluating the right one when it decides the result.
   */
  function EvalBinary(e: Expr, env: Env): Evaluated
    requires e.Bin?
    decreases e, 0
  {
    match Eval(e.a, env)
    case Raises(x) => Raises(x)
    case Returns(u) =>
      if e.op == And && !Truthy(u) then Returns(u)
      else if e.op == Or && Truthy(u) then Returns(u)
      else
        match Eval(e.b, env)
        case Raises(x) => Raises(x)
        case Returns(w) => Apply(e.op, u, w)
  }

  // ------------------------------------------------------------- alarms

  const ALARM_SHOWVALUE := 0
  const ALARM_QUIT := 1
  const ALARM_CALLCOPS := 2

  /** One alarm rule: its text, what the text means, and its action code. */
  datatype Alarm = Alarm(condition: string, expr: Expr, action: int)

  /**
   * One entry of the emitted alarm list: left at 0, the exception raised by
   * the evaluation, or a stored value (the result, or True).
   */
  datatype AlarmEntry = Untouched | Raised(exc: PyError) | Stored(v: Value)

  predicate Blank(a: Alarm)
  {
    Strip(a.condition) == ""
  }

  /** What `evaluate_alarms` leaves in the entry of one alarm. */
  function EntryFor(a: Alarm, env: Env): AlarmEntry
  {
    if Blank(a) then Untouched
    else
      match Eval(a.expr, env)
      case Raises(x) => Raised(x)
      case Returns(v) =>
        if a.action == ALARM_SHOWVALUE then Stored(v)
        else if (a.action == ALARM_CALLCOPS || a.action == ALARM_QUIT) && Truthy(v) then Stored(Flag(true))
        else Untouched
  }

  /** The list `evaluate_alarms` emits. */
  function AlarmData(alarms: seq<Alarm>, env: Env): (r: seq<AlarmEntry>)
    ensures |r| == |alarms|
    ensures forall i :: 0 <= i < |alarms| ==> r[i] == EntryFor(alarms[i], env)
  {
    if |alarms| == 0 then []
    else AlarmData(alarms[..|alarms| - 1], env) + [EntryFor(alarms[|alarms| - 1], env)]
  }

  /** Whether this alarm makes `evaluate_alarms` call `quit()`. */
  predicate Fires(a: Alarm, env: Env)
  {
    !Blank(a) && a.action == ALARM_QUIT && Eval(a.expr, env).Returns? && Truthy(Eval(a.expr, env).value)
  }

  predicate QuitFires(alarms: seq<Alarm>, env: Env)
  {
    exists i :: 0 <= i < |alarms| && Fires(alarms[i], env)
  }

  /** The entry of each alarm, case by case, as measurement.py:86-109 fills it. */
  lemma EntryCases(a: Alarm, env: Env)
    ensures Blank(a) ==> EntryFor(a, env) == Untouched
    ensures !Blank(a) && Eval(a.expr, env).Raises? ==> EntryFor(a, env) == Raised(Eval(a.expr, env).exc)
    ensures !Blank(a) && Eval(a.expr, env).Returns? && a.action == ALARM_SHOWVALUE ==>
      EntryFor(a, env) == Stored(Eval(a.expr, env).value)
    ensures !Blank(a) && Eval(a.expr, env).Returns? && a.action == ALARM_CALLCOPS ==>
      EntryFor(a, env) == (if Truthy(Eval(a.expr, env).value) then Stored(Flag(true)) else Untouched)
    ensures Fires(a, env) <==> a.action == ALARM_QUIT && EntryFor(a, env) == Stored(Flag(true))
  {
  }

  /** numpy's order: inf is above every real and -inf below, and abs(-inf) is inf. */
  lemma InfinitiesBound(r: real, env: Env)
    ensures Apply(Gt, NonFinite("inf"), Num(r)) == Returns(Flag(true))
    ensures Apply(Lt, NonFinite("-inf"), Num(r)) == Returns(Flag(true))
    ensures Apply(Gt, Num(r), NonFinite("inf")) == Returns(Flag(false))
    ensures Eval(AbsOf(Lit(NonFinite("-inf"))), env) == Returns(NonFinite("inf"))
  {
  }

  /** nan is unordered: every comparison with it is false, and it differs even from itself. */
  lemma NanUnordered(op: BinOp, w: Value)
    requires op in {Lt, Le, Gt, Ge, Eq} && AsNumber(w).Some?
    ensures Apply(op, NonFinite("nan"), w) == Returns(Flag(false))
    ensures Apply(op, w, NonFinite("nan")) == Returns(Flag(false))
    ensures Apply(Ne, NonFinite("nan"), w) == Returns(Flag(true))
  {
  }

  /**
   * A CALLCOPS alarm `np.abs(<leak>) > limit` on a leak current through a
   * gate resistor r: it stores True exactly when the current exceeds the
   * limit; with r == 0 the current is inf for distinct voltages (stored
   * True) and nan for equal ones (left at 0).
   */
  lemma LeakAlarmEntry(a: Alarm, n: string, limit: real, env: Env, v: real, vm: real, r: real)
    requires !Blank(a) && a.action == ALARM_CALLCOPS && a.expr == Bin(Gt, AbsOf(Name(n)), Lit(Num(limit)))
    requires n in env && env[n] == LeakCurrent(v, vm, r)
    ensures r != 0.0 ==> (var i := (v - vm) / r;
      EntryFor(a, env) == if (if i < 0.0 then -i else i) > limit then Stored(Flag(true)) else Untouched)
    ensures r == 0.0 ==> EntryFor(a, env) == (if v != vm then Stored(Flag(true)) else Untouched)
  {
    var x := AsNumber(LeakCurrent(v, vm, r)).value;
    assert Eval(Name(n), env) == Returns(LeakCurrent(v, vm, r));
    assert Eval(AbsOf(Name(n)), env) == Returns(FromExt(ExtAbs(x)));
    assert Eval(Lit(Num(limit)), env) == Returns(Num(limit));
    assert Eval(a.expr, env) == Apply(Gt, FromExt(ExtAbs(x)), Num(limit));
  }

  /** No alarm of the list is an ALARM_QUIT rule. */
  predicate NoQuitRule(alarms: seq<Alarm>)
  {
    forall i :: 0 <= i < |alarms| ==> alarms[i].action != ALARM_QUIT
  }

  lemma NoQuitRuleNoQuit(alarms: seq<Alarm>, env: Env)
    requires NoQuitRule(alarms)
    ensures !QuitFires(alarms, env)
  {
  }

  // -------------------------------------------------------- data file

  /** One cell of a data line: a bound value, or Python's None. */
  datatype Cell = Missing | Present(v: Value)

  datatype Line = Header(columns: seq<string>) | Row(cells: seq<Cell>)

  /** The row `save_row` builds: one cell per observable, in order. */
  function RowCells(observables: seq<string>, env: Env): (r: seq<Cell>)
    ensures |r| == |observables|
    ensures forall i :: 0 <= i < |r| ==>
      (observables[i] in env ==> r[i] == Present(env[observables[i]])) &&
      (observables[i] !in env ==> r[i] == Missing)
  {
    seq(|observables|, i requires 0 <= i < |observables| =>
      if observables[i] in env then Present(env[observables[i]]) else Missing)
  }

  /** `str(v)` of a cell, given how the interpreter prints a value. */
  function CellText(c: Cell, show: Value -> string): string
  {
    match c
    case Missing => "None"
    case Present(v) => show(v)
  }

  /** The text of a line as written to the file, without its newline. */
  function LineText(l: Line, show: Value -> string): string
  {
    match l
    case Header(cols) => "#" + Join(cols, "\t")
    case Row(cells) => Join(seq(|cells|, i requires 0 <= i < |cells| => CellText(cells[i], show)), "\t")
  }

  /**
   * The text of every data line splits on tabs into exactly one field per
   * observable, matching the header, whatever names the bindings hold; the
   * fields are the printed cells in observables order (measurement.py:80, 116-123).
   */
  lemma DataLineFields(observables: seq<string>, env: Env, show: Value -> string)
    requires |observables| >= 1
    requires NoSep(observables, '\t')
    requires forall v :: '\t' !in show(v)
    ensures var fields := Split(LineText(Row(RowCells(observables, env)), show), '\t');
      |fields| == |observables| &&
      forall i :: 0 <= i < |observables| ==>
        fields[i] == (if observables[i] in env then show(env[observables[i]]) else "None")
    ensures var header := Split(LineText(Header(observables), show), '\t');
      |header| == |observables| && header[0] == "#" + observables[0] && header[1..] == observables[1..]
  {
    var cells := RowCells(observables, env);
    var texts := seq(|cells|, i requires 0 <= i < |cells| => CellText(cells[i], show));
    SplitJoin(texts, '\t');
    var hs := ["#" + observables[0]] + observables[1..];
    assert Join(hs, "\t") == "#" + Join(observables, "\t") by {
      if |observables| > 1 {
        assert hs[1..] == observables[1..];
      }
    }
    assert '\t' !in "#" + observables[0] by {
      assert '\t' !in observables[0];
    }
    SplitJoin(hs, '\t');
  }

  function FileAt(files: map<string, seq<Line>>, path: string): seq<Line>
  {
    if path in files then files[path] else []
  }

  // ----------------------------------------------------- acquisition trace

  /**
   * An instrument attribute of a script (`self.sourceVg`, `self.vna`, ...),
   * numbered by its place in the order the script assigns them.
   */
  datatype Attr = Attr(rank: nat, name: string)

  datatype Event =
    | Set(source: nat, value: real)      // the source of that rank driven to a set-point
    | Poll                               // quit_requested read
    | Saved(env: Env)                    // save_row wrote the row built from env
    | Alarms(env: Env)                   // evaluate_alarms ran on env, emitting AlarmData(alarms, env)
    | Spectrum(tags: seq<real>)          // one VNA spectrum file written
    | Command(device: string, text: string)  // another instrument command
    | Closed(path: string)               // end_saving closed an open file
    | MakeDir(path: string)              // a folder created for spectra
    | Wrote(path: string)                // another file written whole (an instrument's configuration dump)
    | Tuned(segment: nat, port: nat, power: real)  // a VNA frequency segment's source power on one port
    | Teardown                           // tidy_up started

  // ------------------------------------------------------- loops and traces

  /** What n iterations of a loop produce, the k-th iteration producing body(k). */
  function Concat<T>(n: nat, body: nat -> seq<T>): seq<T>
  {
    if n == 0 then [] else Concat(n - 1, body) + body(n - 1)
  }

  /** A loop that has run n iterations and then runs iteration n has run n + 1. */
  lemma AppendAssoc<T>(a: seq<T>, b: seq<T>, c: seq<T>)
    ensures a + b + c == a + (b + c)
  {
  }

  lemma AppendAssoc4<T>(t0: seq<T>, a: seq<T>, b: seq<T>, c: seq<T>, d: seq<T>)
    ensures (t0 + a) + (b + c + d) == t0 + a + b + c + d
  {
    AppendAssoc(t0 + a, b + c, d);
    AppendAssoc(t0 + a, b, c);
  }

  /** Appending six pieces one by one is appending their concatenation. */
  lemma AppendSix<T>(t0: seq<T>, a: seq<T>, b: seq<T>, c: seq<T>, d: seq<T>, e: seq<T>, f: seq<T>)
    ensures t0 + (a + b + c + d + e + f) == t0 + a + b + c + d + e + f
  {
    AppendAssoc(t0, a + b + c + d + e, f);
    AppendAssoc(t0, a + b + c + d, e);
    AppendAssoc(t0, a + b + c, d);
    AppendAssoc(t0, a + b, c);
    AppendAssoc(t0, a, b);
  }

  lemma ConcatNext<T>(t: seq<T>, t0: seq<T>, n: nat, body: nat -> seq<T>, step: seq<T>)
    requires t == t0 + Concat(n, body) + step && step == body(n)
    ensures t == t0 + Concat(n + 1, body)
  {
  }

  /** The items `f` selects from each event of a trace, in trace order. */
  function Pick<T>(t: seq<Event>, f: Event -> seq<T>): seq<T>
  {
    if |t| == 0 then [] else Pick(t[..|t| - 1], f) + f(t[|t| - 1])
  }

  lemma {:induction false} PickAppend<T>(t: seq<Event>, u: seq<Event>, f: Event -> seq<T>)
    ensures Pick(t + u, f) == Pick(t, f) + Pick(u, f)
    decreases |u|
  {
    if |u| > 0 {
      assert (t + u)[..|t + u| - 1] == t + u[..|u| - 1];
      PickAppend(t, u[..|u| - 1], f);
    } else {
      assert t + u == t;
    }
  }

  lemma PickOne<T>(e: Event, f: Event -> seq<T>)
    ensures Pick([e], f) == f(e)
  {
    assert [e][..0] == [];
  }

  lemma PickTwo<T>(d: Event, e: Event, f: Event -> seq<T>)
    ensures Pick([d, e], f) == f(d) + f(e)
  {
    assert [d, e] == [d] + [e];
    PickAppend([d], [e], f);
    PickOne(d, f);
    PickOne(e, f);
  }

  lemma PickThree<T>(a: seq<Event>, b: seq<Event>, c: seq<Event>, f: Event -> seq<T>)
    ensures Pick(a + b + c, f) == Pick(a, f) + Pick(b, f) + Pick(c, f)
  {
    PickAppend(a + b, c, f);
    PickAppend(a, b, f);
  }

  /** Iterations that each select the same items select them once per iteration. */
  lemma {:induction false} PickConcatRepeat<T>(n: nat, body: nat -> seq<Event>, f: Event -> seq<T>, s: seq<T>)
    requires forall k: nat :: k < n ==> Pick(body(k), f) == s
    ensures Pick(Concat(n, body), f) == Repeat(s, n)
  {
    if n > 0 {
      PickConcatRepeat(n - 1, body, f, s);
      PickAppend(Concat(n - 1, body), body(n - 1), f);
    }
  }

  /** Iterations that select nothing select nothing together. */
  lemma PickConcatNone<T>(n: nat, body: nat -> seq<Event>, f: Event -> seq<T>)
    requires forall k: nat :: k < n ==> Pick(body(k), f) == []
    ensures Pick(Concat(n, body), f) == []
  {
    PickConcatRepeat(n, body, f, []);
    RepeatEmpty<T>(n);
  }

  /** Iterations that each select the item of their own index select the list's prefix, in order. */
  lemma {:induction false} PickConcatEach<T>(n: nat, body: nat -> seq<Event>, f: Event -> seq<T>, s: seq<T>)
    requires n <= |s|
    requires forall k: nat :: k < n ==> Pick(body(k), f) == [s[k]]
    ensures Pick(Concat(n, body), f) == s[..n]
  {
    if n > 0 {
      PickConcatEach(n - 1, body, f, s);
      PickAppend(Concat(n - 1, body), body(n - 1), f);
      assert s[..n] == s[..n - 1] + [s[n - 1]];
    }
  }

  /** What a loop's iterations select is what each iteration selects, iteration after iteration. */
  lemma {:induction false} PickConcat<T>(n: nat, body: nat -> seq<Event>, f: Event -> seq<T>)
    ensures Pick(Concat(n, body), f) == Concat(n, (k: nat) => Pick(body(k), f))
  {
    if n > 0 {
      PickConcat(n - 1, body, f);
      PickAppend(Concat(n - 1, body), body(n - 1), f);
    }
  }

  /** Iterations that each select c items select n·c items. */
  lemma {:induction false} PickConcatCount<T>(n: nat, body: nat -> seq<Event>, f: Event -> seq<T>, c: nat)
    requires forall k: nat :: k < n ==> |Pick(body(k), f)| == c
    ensures |Pick(Concat(n, body), f)| == n * c
  {
    if n > 0 {
      PickConcatCount(n - 1, body, f, c);
      PickAppend(Concat(n - 1, body), body(n - 1), f);
      MulStep(n, c);
    }
  }

  function SavedOf(e: Event): seq<Env>
  {
    if e.Saved? then [e.env] else []
  }

  /** The bindings of the rows saved in a trace, in order. */
  function SavedEnvs(t: seq<Event>): seq<Env>
  {
    Pick(t, SavedOf)
  }

  lemma SavedEnvsAppend(t: seq<Event>, u: seq<Event>)
    ensures SavedEnvs(t + u) == SavedEnvs(t) + SavedEnvs(u)
  {
    PickAppend(t, u, SavedOf);
  }

  function RowsOf(observables: seq<string>, envs: seq<Env>): (r: seq<Line>)
    ensures |r| == |envs|
  {
    seq(|envs|, i requires 0 <= i < |envs| => Row(RowCells(observables, envs[i])))
  }

  /** How `measure` ended: returned normally, returned on a quit request, or raised. */
  datatype Outcome = Completed | Stopped | Failed(error: string)

  /** What `run` prints for the two exceptions it catches (measurement.py:56-66). */
  function RunMessages(measure: Outcome, tidy: Option<string>): (r: seq<string>)
    ensures |r| == (if measure.Failed? then 1 else 0) + (if tidy.Some? then 1 else 0)
  {
    (if measure.Failed? then ["An exception occured during the acquisition\n-------------------------\n" + measure.error] else []) +
    (if tidy.Some? then ["An exception occured during the clean-up\n-------------------------\n" + tidy.value] else [])
  }

  function SetOf(source: nat): Event -> seq<real>
  {
    (e: Event) => if e.Set? && e.source == source then [e.value] else []
  }

  /** The set-points sent to `source` in a trace, in order. */
  function SetValues(t: seq<Event>, source: nat): seq<real>
  {
    Pick(t, SetOf(source))
  }

  function SpectrumOf(e: Event): seq<seq<real>>
  {
    if e.Spectrum? then [e.tags] else []
  }

  function PollOf(e: Event): seq<Event>
  {
    if e.Poll? then [e] else []
  }

  /** Two loops whose iterations agree produce the same sequence. */
  lemma {:induction false} ConcatAgree<T>(n: nat, f: nat -> seq<T>, g: nat -> seq<T>)
    requires forall k: nat :: k < n ==> f(k) == g(k)
    ensures Concat(n, f) == Concat(n, g)
  {
    if n > 0 {
      ConcatAgree(n - 1, f, g);
    }
  }

  lemma MulStep(n: nat, a: nat)
    requires n > 0
    ensures (n - 1) * a + a == n * a
  {
  }

  /** `n` copies of `s` one after the other. */
  function Repeat<T>(s: seq<T>, n: nat): seq<T>
  {
    if n == 0 then [] else Repeat(s, n - 1) + s
  }

  lemma {:induction false} RepeatEmpty<T>(n: nat)
    ensures Repeat<T>([], n) == []
  {
    if n > 0 {
      RepeatEmpty<T>(n - 1);
    }
  }

  lemma {:induction false} RepeatLength<T>(s: seq<T>, n: nat)
    ensures |Repeat(s, n)| == n * |s|
  {
    if n > 0 {
      RepeatLength(s, n - 1);
      MulStep(n, |s|);
    }
  }

  lemma {:induction false} RepeatAdd<T>(s: seq<T>, a: nat, b: nat)
    ensures Repeat(s, a) + Repeat(s, b) == Repeat(s, a + b)
    decreases b
  {
    if b > 0 {
      RepeatAdd(s, a, b - 1);
    }
  }

  /**
   * How the instrument set-up of a `measure` ends: every constructor returns,
   * or the first `after` of them return and the next one raises `error`.
   */
  datatype Setup = Ready | Breaks(after: nat, error: string)

  /** The instrument attributes assigned once the set-up has ended. */
  function Assigned(constructions: seq<Attr>, setup: Setup): set<Attr>
  {
    var n := if setup.Ready? || setup.after > |constructions| then |constructions| else setup.after;
    set k | 0 <= k < n :: constructions[k]
  }

  /** The message of reading an attribute that was never assigned. */
  function NoAttribute(a: Attr): string
  {
    "AttributeError: 'Measurement' object has no attribute '" + a.name + "'"
  }

  /** The length of the longest prefix of `order` whose names are all in `present`. */
  function Covered(order: seq<Attr>, present: set<Attr>): (n: nat)
    ensures n <= |order|
    ensures forall k :: 0 <= k < n ==> order[k] in present
    ensures n < |order| ==> order[n] !in present
  {
    if |order| == 0 || order[0] !in present then 0 else 1 + Covered(order[1..], present)
  }

  /** Each named source driven to 0, in order. */
  function ZeroSets(names: seq<Attr>): (r: seq<Event>)
    ensures |r| == |names|
    ensures forall k :: 0 <= k < |names| ==> r[k] == Set(names[k].rank, 0.0)
  {
    seq(|names|, k requires 0 <= k < |names| => Set(names[k].rank, 0.0))
  }

  // ------------------------------------------------------ MeasurementBase

  lemma SavedEnvsAfterSave(t: seq<Event>, env: Env)
    ensures SavedEnvs(t + [Saved(env), Alarms(env)]) == SavedEnvs(t) + [env]
  {
    PickAppend(t, [Saved(env), Alarms(env)], SavedOf);
    PickTwo(Saved(env), Alarms(env), SavedOf);
  }

  lemma SavedEnvsAfterOther(t: seq<Event>, e: Event)
    requires !e.Saved?
    ensures SavedEnvs(t + [e]) == SavedEnvs(t)
  {
    PickAppend(t, [e], SavedOf);
    PickOne(e, SavedOf);
  }

  lemma RowsOfAppend(observables: seq<string>, envs: seq<Env>, env: Env)
    ensures RowsOf(observables, envs + [env]) == RowsOf(observables, envs) + [Row(RowCells(observables, env))]
  {
  }

  /** The rows a trace saved from position `at` on. */
  function RowsSince(t: seq<Event>, at: nat): seq<Env>
    requires at <= |t|
  {
    SavedEnvs(t[at..])
  }

  lemma RowsSinceSave(t: seq<Event>, at: nat, env: Env)
    requires at <= |t|
    ensures RowsSince(t + [Saved(env), Alarms(env)], at) == RowsSince(t, at) + [env]
  {
    assert (t + [Saved(env), Alarms(env)])[at..] == t[at..] + [Saved(env), Alarms(env)];
    SavedEnvsAfterSave(t[at..], env);
  }

  lemma RowsSinceOther(t: seq<Event>, at: nat, e: Event)
    requires at <= |t| && !e.Saved?
    ensures RowsSince(t + [e], at) == RowsSince(t, at)
  {
    assert (t + [e])[at..] == t[at..] + [e];
    SavedEnvsAfterOther(t[at..], e);
  }

  lemma RowsSinceNone(t: seq<Event>)
    ensures RowsSince(t, |t|) == []
  {
    assert t[|t|..] == [];
  }

  /**
   * The files as a reader sees them: `save_row` flushes after every row, so
   * the open data file holds what it held when opened, the header, and one
   * line per row saved since it was opened at trace position `openedAt`.
   */
  function DiskView(files: map<string, seq<Line>>, dataFile: Option<string>, observables: seq<string>,
                    trace: seq<Event>, openedAt: nat): map<string, seq<Line>>
    requires openedAt <= |trace|
  {
    match dataFile
    case None => files
    case Some(path) =>
      files[path := FileAt(files, path) + [Header(observables)] + RowsOf(observables, RowsSince(trace, openedAt))]
  }

  /**
   * A data file opened at the end of trace `t0`, followed by `run`, holds its
   * earlier lines, the header and one row per `Saved` event of `run`, in order.
   */
  lemma DiskAfter(files: map<string, seq<Line>>, path: string, observables: seq<string>, t0: seq<Event>, run: seq<Event>)
    ensures var disk := DiskView(files, Some(path), observables, t0 + run, |t0|);
      path in disk && disk[path] == FileAt(files, path) + [Header(observables)] + RowsOf(observables, SavedEnvs(run))
  {
    assert (t0 + run)[|t0|..] == run;
  }

  /** The same when a prologue that saves nothing comes between the opening and the run. */
  lemma DiskAfterQuiet(files: map<string, seq<Line>>, path: string, observables: seq<string>,
                       t0: seq<Event>, prologue: seq<Event>, run: seq<Event>)
    requires SavedEnvs(prologue) == []
    ensures var disk := DiskView(files, Some(path), observables, t0 + prologue + run, |t0|);
      path in disk && disk[path] == FileAt(files, path) + [Header(observables)] + RowsOf(observables, SavedEnvs(run))
  {
    AppendAssoc(t0, prologue, run);
    DiskAfter(files, path, observables, t0, prologue + run);
    SavedEnvsAppend(prologue, run);
  }

  class MeasurementBase {
    const observables: seq<string>
    const alarms: seq<Alarm>
    /** The path of the open data file; None when `data_file` is None. */
    var dataFile: Option<string>
    /**
     * The files on disk, line by line, except what was written to the open
     * data file since it was opened: that is kept by the trace (see `Disk`).
     */
    var files: map<string, seq<Line>>
    /** The length of the trace when the open data file was opened. */
    var openedAt: nat
    var quitRequested: bool
    var trace: seq<Event>
    /** What the run printed on its console. */
    var console: seq<string>

    ghost predicate Valid()
      reads this
    {
      openedAt <= |trace|
    }

    /** The files as a reader sees them (see `DiskView`). */
    function Disk(): map<string, seq<Line>>
      requires Valid()
      reads this
    {
      DiskView(files, dataFile, observables, trace, openedAt)
    }

    constructor (observables: seq<string>, alarms: seq<Alarm>, disk: map<string, seq<Line>>)
      ensures this.observables == observables && this.alarms == alarms
      ensures files == disk && dataFile == None && !quitRequested
      ensures trace == [] && console == []
      ensures Valid() && Disk() == disk
    {
      this.observables := observables;
      this.alarms := alarms;
      files := disk;
      dataFile := None;
      openedAt := 0;
      quitRequested := false;
      trace := [];
      console := [];
    }

    /**
     * `prepare_saving(filename)` (measurement.py:70-82): opening in append
     * mode keeps what the file held; the header line follows it.
     */
    method PrepareSaving(path: string) returns (raised: Option<string>)
      requires Valid()
      modifies this`dataFile, this`openedAt
      ensures Valid()
      ensures old(dataFile).Some? ==>
        raised == Some(NOT_CLOSED) &&
        dataFile == old(dataFile) && openedAt == old(openedAt)
      ensures old(dataFile).None? ==>
        raised == None && dataFile == Some(path) && openedAt == |trace| &&
        Disk() == files[path := FileAt(files, path) + [Header(observables)]]
    {
      if dataFile.None? {
        openedAt := |trace|;
        dataFile := Some(path);
        RowsSinceNone(trace);
        assert RowsOf(observables, []) == [];
        assert FileAt(files, path) + [Header(observables)] + [] == FileAt(files, path) + [Header(observables)];
        raised := None;
      } else {
        raised := Some(NOT_CLOSED);
      }
    }

    /** `evaluate_alarms(locals)` (measurement.py:84-110). */
    method EvaluateAlarms(env: Env) returns (emitted: seq<AlarmEntry>)
      modifies this`quitRequested, this`trace
      ensures emitted == AlarmData(alarms, env)
      ensures trace == old(trace) + [Alarms(env)]
      ensures quitRequested == (old(quitRequested) || QuitFires(alarms, env))
    {
      var data := new AlarmEntry[|alarms|](_ => Untouched);
      var i := 0;
      while i < |alarms|
        invariant 0 <= i <= |alarms|
        invariant forall k :: 0 <= k < i ==> data[k] == EntryFor(alarms[k], env)
        invariant forall k :: i <= k < |alarms| ==> data[k] == Untouched
        invariant quitRequested == (old(quitRequested) || exists k :: 0 <= k < i && Fires(alarms[k], env))
        invariant trace == old(trace)
      {
        var alarm := alarms[i];
        if Strip(alarm.condition) != "" {
          var result := Eval(alarm.expr, env);
          if result.Raises? {
            data[i] := Raised(result.exc);
          } else if alarm.action == ALARM_SHOWVALUE {
            data[i] := Stored(result.value);
          } else if alarm.action == ALARM_CALLCOPS {
            if Truthy(result.value) {
              data[i] := Stored(Flag(true));
            }
          } else if alarm.action == ALARM_QUIT {
            if Truthy(result.value) {
              data[i] := Stored(Flag(true));
              quitRequested := true;   // self.quit()
            }
          }
        }
        i := i + 1;
      }
      emitted := data[..];
      assert emitted == AlarmData(alarms, env);
      trace := trace + [Alarms(env)];
    }

    /** `save_row(locals)` (measurement.py:112-127): the row first, the alarms after. */
    method SaveRow(env: Env) returns (raised: Option<string>)
      requires Valid()
      modifies this`quitRequested, this`trace
      ensures Valid()
      ensures old(dataFile).None? ==>
        raised == Some("No data file has been opened.") &&
        quitRequested == old(quitRequested) && trace == old(trace)
      ensures old(dataFile).Some? ==>
        raised == None &&
        trace == old(trace) + [Saved(env), Alarms(env)] &&
        quitRequested == (old(quitRequested) || QuitFires(alarms, env))
      ensures old(dataFile).Some? ==>
        var path := old(dataFile).value;
        Disk() == old(Disk())[path := old(Disk())[path] + [Row(RowCells(observables, env))]]
    {
      if dataFile.None? {
        return Some("No data file has been opened.");
      }
      var row: seq<Cell> := [];
      var i := 0;
      while i < |observables|
        invariant 0 <= i <= |observables|
        invariant row == RowCells(observables, env)[..i]
      {
        var cell := if observables[i] in env then Present(env[observables[i]]) else Missing;
        row := row + [cell];
        i := i + 1;
      }
      assert row == RowCells(observables, env);
      ghost var path := dataFile.value;
      ghost var head := FileAt(files, path) + [Header(observables)];
      ghost var rows := RowsSince(trace, openedAt);
      ghost var before := Disk();
      trace := trace + [Saved(env)];
      var _ := EvaluateAlarms(env);
      raised := None;
      assert trace == old(trace) + [Saved(env), Alarms(env)];
      RowsSinceSave(old(trace), openedAt, env);
      RowsOfAppend(observables, rows, env);
      assert before[path] == head + RowsOf(observables, rows);
      assert head + RowsOf(observables, rows + [env]) == before[path] + [Row(row)];
    }

    /**
     * `end_saving()` (measurement.py:129-132): closing leaves the data file's
     * lines on disk; no file is open afterwards.
     */
    method EndSaving()
      requires Valid()
      modifies this`dataFile, this`files, this`trace
      ensures Valid() && dataFile == None
      ensures files == old(Disk())
      ensures trace == old(trace) + (if old(dataFile).Some? then [Closed(old(dataFile).value)] else [])
    {
      files := Disk();
      if dataFile.Some? {
        trace := trace + [Closed(dataFile.value)];
      }
      dataFile := None;
    }

    /** `quit()` (measurement.py:145-147). */
    method Quit()
      modifies this`quitRequested
      ensures quitRequested
    {
      quitRequested := true;
    }

    /** Appends an instrument event to the trace. */
    method Record(e: Event)
      requires Valid()
      modifies this`trace
      ensures Valid()
      ensures trace == old(trace) + [e]
    {
      trace := trace + [e];
    }

    /**
     * Reads the quit flag, as every script does at its check points; `press`
     * says whether the operator pressed stop since the previous check.
     */
    method PollQuit(press: bool) returns (stop: bool)
      requires Valid()
      modifies this`trace, this`quitRequested
      ensures Valid()
      ensures quitRequested == (old(quitRequested) || press)
      ensures stop == quitRequested
      ensures trace == old(trace) + [Poll]
    {
      if press {
        Quit();
      }
      Record(Poll);
      stop := quitRequested;
    }

    /**
     * The `tidy_up` statements `self.<name>.set_voltage(0.)`, in order: each
     * assigned source goes to 0 until the first attribute that was never
     * assigned, which raises.
     */
    method ZeroSources(order: seq<Attr>, present: set<Attr>) returns (raised: Option<string>)
      requires Valid()
      modifies this`trace
      ensures Valid()
      ensures var n := Covered(order, present);
        trace == old(trace) + ZeroSets(order[..n]) &&
        raised == (if n == |order| then None else Some(NoAttribute(order[n])))
    {
      var i := 0;
      while i < |order| && order[i] in present
        invariant 0 <= i <= |order|
        invariant forall k :: 0 <= k < i ==> order[k] in present
        invariant Valid()
        invariant trace == old(trace) + ZeroSets(order[..i])
      {
        Record(Set(order[i].rank, 0.0));
        assert order[..i + 1] == order[..i] + [order[i]];
        i := i + 1;
      }
      assert i == Covered(order, present);
      raised := if i == |order| then None else Some(NoAttribute(order[i]));
    }

    /** The printing half of `run` (measurement.py:56-66). */
    method Report(measure: Outcome, tidy: Option<string>)
      modifies this`console
      ensures console == old(console) + RunMessages(measure, tidy)
    {
      if measure.Failed? {
        console := console + ["An exception occured during the acquisition\n-------------------------\n" + measure.error];
      }
      if tidy.Some? {
        console := console + ["An exception occured during the clean-up\n-------------------------\n" + tidy.value];
      }
    }
  }
}
