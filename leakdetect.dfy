// modules/MesureCapacitor_Anritsu_Keithley2400_leakdetect.py: the capacitor
// measurement with a leak-detecting gate sweep. After a first point at the
// start voltage, the gate voltage walks by one step at a time; it turns back
// at ±Vmax or when the leak current exceeds a threshold, and the sweep ends
// once it has come back to zero from the negative side.
module LeakDetect {
  import opened Common
  import opened NumPy
  import opened Mascril
  import MesureCapacitor

  const Observables: seq<string> := ["Vg", "Vgm", "Ileak"]

  const VG := MesureCapacitor.VG

  /** The script declares no alarm. */
  function DeclaredAlarms(): seq<Alarm>
  {
    []
  }

  const BAD_DIRECTION := "select valid direction 1. or -1."
  /** What `int(max(1., -np.log10(step)+1.))` raises for a zero step: log10(0) is -inf. */
  const STEP_OVERFLOW := "OverflowError: cannot convert float infinity to integer"

  /** How close to 0 V the sweep must come to end. */
  const ZERO_TOLERANCE: real := 0.000000000001

  /**
   * The parameters; `around` is `np.around(·, decimals)` with `decimals` =
   * `int(max(1., -np.log10(step)+1.))`, which the script computes in floating
   * point from `step`; for a zero step that is `int(inf)`, which raises.
   */
  datatype Params = Params(
    dataDir: string, comment: string, sweep: bool, startpoint: real, direction: real, step: real,
    ithresh: real, vmax: real, around: real -> real, useVna: bool)

  /** What the Keithley reads back at the j-th measured point: the voltage, then the current. */
  datatype Meters = Meters(vgm: nat -> real, ileak: nat -> real)

  // --------------------------------------------------------- measure_point

  /** The bindings `save_row(locals())` reads at the j-th point, taken at gate voltage vg. */
  function PointEnv(m: Meters, vg: real, j: nat): Env
  {
    Bind(Observables, [Num(vg), Num(m.vgm(j)), Num(m.ileak(j))])
  }

  /** A point records the gate voltage it set and both readings. */
  lemma PointRecords(m: Meters, vg: real, j: nat)
    ensures var env := PointEnv(m, vg, j);
      && "Vg" in env && env["Vg"] == Num(vg) && "Vgm" in env && env["Vgm"] == Num(m.vgm(j))
      && "Ileak" in env && env["Ileak"] == Num(m.ileak(j))
  {
    var values := [Num(vg), Num(m.vgm(j)), Num(m.ileak(j))];
    assert Distinct(Observables);
    BindLookup(Observables, values, 0);
    BindLookup(Observables, values, 1);
    BindLookup(Observables, values, 2);
  }

  /** What `measure_point` does: Vg, the row and its (empty) alarm list, then the spectrum with the VNA. */
  function Point(p: Params, m: Meters, vg: real, j: nat): seq<Event>
  {
    [Set(VG, vg), Saved(PointEnv(m, vg, j)), Alarms(PointEnv(m, vg, j))] + (if p.useVna then [Spectrum([vg])] else [])
  }

  /** What `measure_point(Ithresh)` returns for the j-th point. */
  predicate Leaks(p: Params, m: Meters, j: nat)
  {
    Abs(m.ileak(j)) > p.ithresh
  }

  // ------------------------------------------------------ the state machine

  /**
   * The loop's variables, plus the number of points measured so far. The
   * direction, checked to be 1. or -1. before the loop, is `up` for 1.
   */
  datatype Sweeper = Sweeper(vg: real, up: bool, backToZero: bool, points: nat)

  /** `step*direction` */
  function Delta(p: Params, up: bool): real
  {
    if up then p.step else -p.step
  }

  /** `direction*Vg < 0.` */
  function Against(up: bool, vg: real): bool
  {
    if up then vg < 0.0 else vg > 0.0
  }

  /** One iteration past the quit check: the next state, what it did, and whether it breaks out of the loop. */
  datatype Move = Move(next: Sweeper, events: seq<Event>, done: bool)

  /** `back_to_zero` becomes true when the sweep was going down at a negative voltage. */
  function TurnBack(s: Sweeper, vg: real): bool
  {
    s.backToZero || (!s.up && vg < 0.0)
  }

  /**
   * One iteration of the sweep loop
   * (MesureCapacitor_Anritsu_Keithley2400_leakdetect.py:150-165).
   */
  function Next(p: Params, m: Meters, s: Sweeper): (r: Move)
    ensures r.next.vg == p.around(s.vg + Delta(p, s.up))
    ensures Abs(r.next.vg) > p.vmax ==>
      r.events == [] && !r.done && r.next.up == !s.up && r.next.points == s.points &&
      r.next.backToZero == TurnBack(s, r.next.vg)
    ensures Abs(r.next.vg) <= p.vmax ==>
      r.events == Point(p, m, r.next.vg, s.points) && r.next.points == s.points + 1
    ensures Abs(r.next.vg) <= p.vmax && Leaks(p, m, s.points) && Against(s.up, r.next.vg) ==>
      r.next.up == s.up && r.next.backToZero == s.backToZero && !r.done
    ensures Abs(r.next.vg) <= p.vmax && Leaks(p, m, s.points) && !Against(s.up, r.next.vg) ==>
      r.next.up == !s.up && r.next.backToZero == TurnBack(s, r.next.vg)
    ensures Abs(r.next.vg) <= p.vmax && !Leaks(p, m, s.points) ==>
      r.next.up == s.up && r.next.backToZero == s.backToZero
    ensures r.done ==> Abs(r.next.vg) < ZERO_TOLERANCE && r.next.backToZero
  {
    var vg := p.around(s.vg + Delta(p, s.up));
    if Abs(vg) > p.vmax then
      Move(Sweeper(vg, !s.up, TurnBack(s, vg), s.points), [], false)
    else
      var events := Point(p, m, vg, s.points);
      if Leaks(p, m, s.points) && Against(s.up, vg) then
        Move(Sweeper(vg, s.up, s.backToZero, s.points + 1), events, false)
      else
        var next :=
          if Leaks(p, m, s.points) then Sweeper(vg, !s.up, TurnBack(s, vg), s.points + 1)
          else Sweeper(vg, s.up, s.backToZero, s.points + 1);
        Move(next, events, Abs(vg) < ZERO_TOLERANCE && next.backToZero)
  }

  /** The state once the first point, at the start voltage, has been measured and the direction checked. */
  function Initial(p: Params): Sweeper
  {
    Sweeper(p.startpoint, p.direction == 1.0, false, 1)
  }

  /** The state after n iterations of the loop. */
  function State(p: Params, m: Meters, n: nat): Sweeper
  {
    if n == 0 then Initial(p) else Next(p, m, State(p, m, n - 1)).next
  }

  /** What n iterations of the loop do, each starting with its quit check. */
  function Walk(p: Params, m: Meters, n: nat): seq<Event>
  {
    if n == 0 then [] else Walk(p, m, n - 1) + [Poll] + Next(p, m, State(p, m, n - 1)).events
  }

  /** The voltages set by one iteration: the new Vg, unless it lies beyond ±Vmax. */
  lemma MoveSets(p: Params, m: Meters, s: Sweeper)
    ensures var r := Next(p, m, s);
      SetValues(r.events, VG) == if Abs(r.next.vg) <= p.vmax then [r.next.vg] else []
  {
    var r := Next(p, m, s);
    if Abs(r.next.vg) <= p.vmax {
      var vg := r.next.vg;
      var env := PointEnv(m, vg, s.points);
      var spectrum := if p.useVna then [Spectrum([vg])] else [];
      assert r.events == [Set(VG, vg)] + [Saved(env), Alarms(env)] + spectrum;
      PickThree([Set(VG, vg)], [Saved(env), Alarms(env)], spectrum, SetOf(VG));
      PickOne(Set(VG, vg), SetOf(VG));
      PickTwo(Saved(env), Alarms(env), SetOf(VG));
      if p.useVna {
        PickOne(Spectrum([vg]), SetOf(VG));
      }
    }
  }

  predicate WithinVmax(vs: seq<real>, vmax: real)
  {
    forall i :: 0 <= i < |vs| ==> Abs(vs[i]) <= vmax
  }

  lemma WithinVmaxAppend(a: seq<real>, b: seq<real>, vmax: real)
    requires WithinVmax(a, vmax) && WithinVmax(b, vmax)
    ensures WithinVmax(a + b, vmax)
  {
    forall i | 0 <= i < |a + b|
      ensures Abs((a + b)[i]) <= vmax
    {
      if i >= |a| {
        assert (a + b)[i] == b[i - |a|];
      }
    }
  }

  /** None of the first n iterations breaks out of the loop. */
  predicate RunsOn(p: Params, m: Meters, n: nat)
  {
    n == 0 || (RunsOn(p, m, n - 1) && !Next(p, m, State(p, m, n - 1)).done)
  }

  /** No voltage beyond ±Vmax is ever set during the sweep. */
  lemma {:induction false} WalkWithinVmax(p: Params, m: Meters, n: nat)
    ensures WithinVmax(SetValues(Walk(p, m, n), VG), p.vmax)
  {
    if n > 0 {
      WalkWithinVmax(p, m, n - 1);
      var r := Next(p, m, State(p, m, n - 1));
      MoveSets(p, m, State(p, m, n - 1));
      IterationWithin(Walk(p, m, n - 1), r.events, p.vmax);
    }
  }

  /** The voltages set by an iteration, after those set before it. */
  lemma IterationSets(before: seq<Event>, events: seq<Event>)
    ensures SetValues(before + [Poll] + events, VG) == SetValues(before, VG) + SetValues(events, VG)
  {
    PickThree(before, [Poll], events, SetOf(VG));
    PickOne(Poll, SetOf(VG));
  }

  lemma IterationWithin(before: seq<Event>, events: seq<Event>, vmax: real)
    requires WithinVmax(SetValues(before, VG), vmax) && WithinVmax(SetValues(events, VG), vmax)
    ensures WithinVmax(SetValues(before + [Poll] + events, VG), vmax)
  {
    IterationSets(before, events);
    WithinVmaxAppend(SetValues(before, VG), SetValues(events, VG), vmax);
  }

  /** The loop sets Vg once per point it measures: the points counter keeps count. */
  lemma {:induction false} WalkPoints(p: Params, m: Meters, n: nat)
    ensures State(p, m, n).points >= 1
    ensures |SetValues(Walk(p, m, n), VG)| == State(p, m, n).points - 1
  {
    if n > 0 {
      WalkPoints(p, m, n - 1);
      MoveSets(p, m, State(p, m, n - 1));
      IterationSets(Walk(p, m, n - 1), Next(p, m, State(p, m, n - 1)).events);
    }
  }

  /** Once set, `back_to_zero` stays set. */
  lemma {:induction false} BackToZeroKept(p: Params, m: Meters, j: nat, n: nat)
    requires j <= n && State(p, m, j).backToZero
    ensures State(p, m, n).backToZero
    decreases n - j
  {
    if j < n {
      BackToZeroKept(p, m, j + 1, n);
    }
  }

  /** `direction not in [1., -1.]` is false. */
  predicate GoodDirection(p: Params)
  {
    p.direction == 1.0 || p.direction == -1.0
  }

  /** What `measure` does once the data file is open, up to the direction check: the VNA dump, then the first point. */
  function Opening(p: Params, m: Meters, folder: string): seq<Event>
  {
    MesureCapacitor.Prologue(p.useVna, folder) + Point(p, m, p.startpoint, 0)
  }

  /**
   * How the sweep loop left the record t, starting from t0: n iterations
   * ran in full; then either the quit check stopped it, or iteration n
   * broke out of the loop back at 0 V.
   */
  ghost predicate Swept(p: Params, m: Meters, t0: seq<Event>, t: seq<Event>, quit: bool, outcome: Outcome, n: nat)
  {
    && !outcome.Failed?
    && RunsOn(p, m, n)
    && (outcome == Stopped ==> quit && t == t0 + Walk(p, m, n) + [Poll])
    && (outcome == Completed ==>
          && Next(p, m, State(p, m, n)).done
          && Abs(State(p, m, n + 1).vg) < ZERO_TOLERANCE && State(p, m, n + 1).backToZero
          && t == t0 + Walk(p, m, n + 1))
  }

  /** The run's name: timestamp, the power tag with the VNA in use, then the comment. */
  function RunTitle(p: Params, v: MesureCapacitor.VnaState, fmt: real -> string, ts: string): string
  {
    MesureCapacitor.RunName(ts, MesureCapacitor.PowerTag(p.useVna, v, fmt), p.comment)
  }

  // ------------------------------------------------------------ the script

  class Measurement {
    const base: MeasurementBase
    /** The instrument attributes `measure` has assigned. */
    var present: set<Attr>

    ghost predicate Valid()
      reads this, base
    {
      base.Valid() && base.alarms == DeclaredAlarms()
    }

    constructor (disk: map<string, seq<Line>>)
      ensures Valid() && fresh(base) && base.observables == Observables
      ensures base.files == disk && base.dataFile == None && !base.quitRequested && base.trace == []
      ensures present == {}
    {
      base := new MeasurementBase(Observables, DeclaredAlarms(), disk);
      present := {};
    }

    /**
     * `measure_point` (MesureCapacitor_Anritsu_Keithley2400_leakdetect.py:107-136)
     * at gate voltage vg, the j-th point: whether the leak current exceeds the threshold.
     */
    method MeasurePoint(p: Params, m: Meters, vg: real, j: nat) returns (leak: bool)
      requires Valid() && base.dataFile.Some?
      modifies base`trace, base`quitRequested
      ensures Valid()
      ensures base.quitRequested == old(base.quitRequested)
      ensures base.trace == old(base.trace) + Point(p, m, vg, j)
      ensures leak == Leaks(p, m, j)
    {
      base.Record(Set(VG, vg));
      var env := PointEnv(m, vg, j);
      var _ := base.SaveRow(env);
      NoQuitRuleNoQuit(base.alarms, env);
      ghost var row := old(base.trace) + [Set(VG, vg), Saved(env), Alarms(env)];
      assert base.trace == row;
      if p.useVna {
        base.Record(Spectrum([vg]));
      }
      leak := Abs(m.ileak(j)) > p.ithresh;
    }

    /**
     * One iteration of the sweep loop past its quit check
     * (MesureCapacitor_Anritsu_Keithley2400_leakdetect.py:150-165): the loop's
     * variables afterwards, and whether it breaks out of the loop.
     */
    method Advance(p: Params, m: Meters, s: Sweeper) returns (next: Sweeper, done: bool)
      requires Valid() && base.dataFile.Some?
      modifies base`trace, base`quitRequested
      ensures Valid() && base.quitRequested == old(base.quitRequested)
      ensures next == Next(p, m, s).next && done == Next(p, m, s).done
      ensures base.trace == old(base.trace) + Next(p, m, s).events
    {
      var vg := p.around(s.vg + Delta(p, s.up));
      var up := s.up;
      var backToZero := s.backToZero;
      if Abs(vg) > p.vmax {
        if !up && vg < 0.0 {
          backToZero := true;
        }
        return Sweeper(vg, !up, backToZero, s.points), false;
      }
      var leak := MeasurePoint(p, m, vg, s.points);
      if leak {
        if Against(up, vg) {
          return Sweeper(vg, up, backToZero, s.points + 1), false;
        }
        if !up && vg < 0.0 {
          backToZero := true;
        }
        up := !up;
      }
      next := Sweeper(vg, up, backToZero, s.points + 1);
      done := Abs(vg) < ZERO_TOLERANCE && backToZero;
    }

    /**
     * The quit check, then iteration i of the loop
     * (MesureCapacitor_Anritsu_Keithley2400_leakdetect.py:148-165), from the
     * state and the record the first i iterations left behind.
     */
    method Step(p: Params, m: Meters, press: bool, s: Sweeper, ghost i: nat, ghost t0: seq<Event>)
      returns (stop: bool, next: Sweeper, done: bool)
      requires Valid() && base.dataFile.Some?
      requires s == State(p, m, i) && base.trace == t0 + Walk(p, m, i)
      modifies base`trace, base`quitRequested
      ensures Valid()
      ensures base.quitRequested == (old(base.quitRequested) || press) && stop == base.quitRequested
      ensures stop ==> base.trace == t0 + Walk(p, m, i) + [Poll]
      ensures !stop ==>
        next == State(p, m, i + 1) && done == Next(p, m, s).done && base.trace == t0 + Walk(p, m, i + 1)
    {
      next, done := s, false;
      stop := base.PollQuit(press);
      if stop {
        return;
      }
      next, done := Advance(p, m, s);
      AppendAssoc(t0 + Walk(p, m, i), [Poll], Next(p, m, s).events);
      AppendAssoc(t0, Walk(p, m, i) + [Poll], Next(p, m, s).events);
    }

    /**
     * The sweep loop (MesureCapacitor_Anritsu_Keithley2400_leakdetect.py:147-165),
     * from the state after the first point. The loop has no bound of its own:
     * `press(fuel)` says the operator presses stop at the latest before the
     * quit check of iteration `fuel`. `n` is the number of iterations that ran.
     */
    method Sweep(p: Params, m: Meters, press: nat -> bool, ghost fuel: nat) returns (halt: Outcome, ghost n: nat)
      requires Valid() && base.dataFile.Some? && press(fuel)
      modifies base`trace, base`quitRequested
      ensures Valid() && Swept(p, m, old(base.trace), base.trace, base.quitRequested, halt, n)
    {
      ghost var t0 := base.trace;
      var s := Initial(p);
      var i := 0;
      while true
        invariant i <= fuel
        invariant Valid() && base.dataFile.Some?
        invariant s == State(p, m, i)
        invariant base.trace == t0 + Walk(p, m, i)
        invariant RunsOn(p, m, i)
        decreases fuel - i
      {
        var stop, done;
        stop, s, done := Step(p, m, press(i), s, i, t0);
        if stop {
          return Stopped, i;
        }
        if done {
          return Completed, i;
        }
        i := i + 1;
      }
    }

    /**
     * `measure` once the data file is open
     * (MesureCapacitor_Anritsu_Keithley2400_leakdetect.py:97-169): the VNA
     * dump, the first point at the start voltage, the direction check, then
     * the sweep loop when `sweep` is set.
     */
    method Acquire(p: Params, m: Meters, press: nat -> bool, ghost fuel: nat, folder: string)
      returns (outcome: Outcome, ghost n: nat)
      requires Valid() && base.dataFile.Some? && press(fuel)
      modifies base`trace, base`quitRequested
      ensures Valid()
      ensures !GoodDirection(p) ==>
        outcome == Failed(BAD_DIRECTION) && base.trace == old(base.trace) + Opening(p, m, folder)
      ensures GoodDirection(p) && p.step == 0.0 ==>
        outcome == Failed(STEP_OVERFLOW) && base.trace == old(base.trace) + Opening(p, m, folder)
      ensures GoodDirection(p) && p.step != 0.0 && !p.sweep ==>
        outcome == Completed && base.trace == old(base.trace) + Opening(p, m, folder)
      ensures GoodDirection(p) && p.step != 0.0 && p.sweep ==>
        Swept(p, m, old(base.trace) + Opening(p, m, folder), base.trace, base.quitRequested, outcome, n)
    {
      n := 0;
      if p.useVna {
        base.Record(MakeDir(folder));
        base.Record(Wrote(PathJoin(folder, "VNAconfig")));
      }
      var _ := MeasurePoint(p, m, p.startpoint, 0);
      AppendAssoc(old(base.trace), MesureCapacitor.Prologue(p.useVna, folder), Point(p, m, p.startpoint, 0));
      ghost var t0 := base.trace;
      assert t0 == old(base.trace) + Opening(p, m, folder);
      if p.direction != 1.0 && p.direction != -1.0 {
        return Failed(BAD_DIRECTION), n;
      }
      if p.step == 0.0 {
        return Failed(STEP_OVERFLOW), n;
      }
      if !p.sweep {
        return Completed, n;
      }
      outcome, n := Sweep(p, m, press, fuel);
      assert Swept(p, m, t0, base.trace, base.quitRequested, outcome, n);
    }

    /**
     * From the spectra folder on (MesureCapacitor_Anritsu_Keithley2400_leakdetect.py:90-169):
     * the folder is created whether or not the VNA is in use, then the data
     * file is opened and the rest of the acquisition runs.
     */
    method Start(p: Params, m: Meters, press: nat -> bool, ghost fuel: nat, folder: string, path: string)
      returns (outcome: Outcome, ghost n: nat)
      requires Valid() && press(fuel)
      modifies base`trace, base`dataFile, base`openedAt, base`quitRequested
      ensures Valid()
      ensures old(base.dataFile).Some? ==>
        outcome == Failed(NOT_CLOSED) &&
        base.trace == old(base.trace) + [MakeDir(folder)] &&
        base.dataFile == old(base.dataFile) && base.openedAt == old(base.openedAt)
      ensures old(base.dataFile).None? ==>
        var t0 := old(base.trace) + [MakeDir(folder)] + Opening(p, m, folder);
        && base.dataFile == Some(path)
        && base.openedAt == |old(base.trace)| + 1
        && (!GoodDirection(p) ==> outcome == Failed(BAD_DIRECTION) && base.trace == t0)
        && (GoodDirection(p) && p.step == 0.0 ==> outcome == Failed(STEP_OVERFLOW) && base.trace == t0)
        && (GoodDirection(p) && p.step != 0.0 && !p.sweep ==> outcome == Completed && base.trace == t0)
        && (GoodDirection(p) && p.step != 0.0 && p.sweep ==> Swept(p, m, t0, base.trace, base.quitRequested, outcome, n))
    {
      n := 0;
      base.Record(MakeDir(folder));
      var raised := base.PrepareSaving(path);
      if raised.Some? {
        return Failed(raised.value), n;
      }
      outcome, n := Acquire(p, m, press, fuel, folder);
    }

    /**
     * `measure` (MesureCapacitor_Anritsu_Keithley2400_leakdetect.py:39-169): the
     * Keithley, the VNA and its checks when in use, the spectra folder, the
     * data file, then the first point and the sweep. `vna` is what the VNA
     * answers, `fmt` the `{:.0f}` formatting, `press(k)` whether stop was
     * pressed before the quit check of iteration k.
     */
    method Measure(
      p: Params, m: Meters, vna: MesureCapacitor.VnaState, fmt: real -> string, press: nat -> bool, ghost fuel: nat,
      setup: Setup, ts: string)
      returns (outcome: Outcome, ghost n: nat)
      requires Valid() && press(fuel)
      modifies this`present, base`trace, base`dataFile, base`openedAt, base`quitRequested
      ensures Valid()
      ensures present == Assigned(MesureCapacitor.Constructions(p.useVna), setup)
      ensures setup.Breaks? ==>
        outcome == Failed(setup.error) && base.trace == old(base.trace) &&
        base.dataFile == old(base.dataFile) && base.openedAt == old(base.openedAt)
      ensures setup.Ready? && p.useVna && MesureCapacitor.PowerCheck(vna).Err? ==>
        outcome == Failed(MesureCapacitor.PowerCheck(vna).error) && base.trace == old(base.trace) &&
        base.dataFile == old(base.dataFile) && base.openedAt == old(base.openedAt)
      ensures setup.Ready? && (p.useVna ==> MesureCapacitor.PowerCheck(vna).Ok?) ==>
        var title := RunTitle(p, vna, fmt, ts);
        var folder := PathJoin(p.dataDir, title);
        var t0 := old(base.trace) + [MakeDir(folder)] + Opening(p, m, folder);
        && (old(base.dataFile).Some? ==>
              outcome == Failed(NOT_CLOSED) &&
              base.trace == old(base.trace) + [MakeDir(folder)] &&
              base.dataFile == old(base.dataFile) && base.openedAt == old(base.openedAt))
        && (old(base.dataFile).None? ==>
              && base.dataFile == Some(PathJoin(p.dataDir, title + ".txt"))
              && base.openedAt == |old(base.trace)| + 1
              && (!GoodDirection(p) ==> outcome == Failed(BAD_DIRECTION) && base.trace == t0)
              && (GoodDirection(p) && p.step == 0.0 ==> outcome == Failed(STEP_OVERFLOW) && base.trace == t0)
              && (GoodDirection(p) && p.step != 0.0 && !p.sweep ==> outcome == Completed && base.trace == t0)
              && (GoodDirection(p) && p.step != 0.0 && p.sweep ==>
                    Swept(p, m, t0, base.trace, base.quitRequested, outcome, n)))
    {
      present := Assigned(MesureCapacitor.Constructions(p.useVna), setup);
      n := 0;
      if setup.Breaks? {
        return Failed(setup.error), n;
      }
      var tag := "";
      if p.useVna {
        var pow := MesureCapacitor.VnaPower(vna);
        if pow.Err? {
          return Failed(pow.error), n;
        }
        tag := "_pwr=" + fmt(pow.value);
      }
      var name := MesureCapacitor.RunName(ts, tag, p.comment);
      assert name == RunTitle(p, vna, fmt, ts);
      outcome, n := Start(p, m, press, fuel, PathJoin(p.dataDir, name), PathJoin(p.dataDir, name + ".txt"));
    }

    /** `tidy_up` (MesureCapacitor_Anritsu_Keithley2400_leakdetect.py:171-176): close the data file, then Vg to 0. */
    method TidyUp() returns (raised: Option<string>)
      requires Valid()
      modifies base`trace, base`dataFile, base`files
      ensures Valid() && base.dataFile == None && base.files == old(base.Disk())
      ensures var n := Covered(MesureCapacitor.ZeroOrder, present);
        base.trace == old(base.trace) + [Teardown] +
                      (if old(base.dataFile).Some? then [Closed(old(base.dataFile).value)] else []) +
                      ZeroSets(MesureCapacitor.ZeroOrder[..n]) &&
        raised == (if n == |MesureCapacitor.ZeroOrder| then None else Some(NoAttribute(MesureCapacitor.ZeroOrder[n])))
    {
      base.Record(Teardown);
      RowsSinceOther(old(base.trace), base.openedAt, Teardown);
      base.EndSaving();
      raised := base.ZeroSources(MesureCapacitor.ZeroOrder, present);
    }
  }
}
