// modules/lockin2gates.py: two gate voltages swept on Bilt sources in two
// nested loops (Vg2 outer, Vg1 inner), both gates read back on Bilt
// voltmeters and the drain signal read on a lock-in amplifier whose output
// amplitude is the drain excitation; one data row per step.
module Lockin2Gates {
  import opened Common
  import opened Mascril
  import Dc2Gates

  const Observables: seq<string> := ["Vg1", "Vg1m", "Ileak1", "Vg2", "Vg2m", "Ileak2", "Vds", "Vdsm", "Vdsm_std", "Rs"]

  /** The sources, by their rank among the instrument objects. */
  const VG1: nat := 1
  const VG2: nat := 2

  const SourceVg1 := Attr(VG1, "sourceVg1")
  const SourceVg2 := Attr(VG2, "sourceVg2")
  const Lockin := Attr(5, "lockin")

  /** The instrument objects in the order `measure` creates them; `bilt` is only a local. */
  const Constructions: seq<Attr> :=
    [Attr(0, "bilt"), SourceVg1, SourceVg2, Attr(3, "meterVg1"), Attr(4, "meterVg2"), Lockin]

  /** The sources `tidy_up` drives back to zero, in its order. */
  const ZeroOrder: seq<Attr> := [SourceVg1, SourceVg2]

  /** The same two leak-current alerts and gate-to-gate display as the DC two-gate measurement. */
  function DeclaredAlarms(): seq<Alarm>
  {
    Dc2Gates.DeclaredAlarms()
  }

  /** `commongate` is a parameter of the script that the sweep never reads. */
  datatype Params = Params(
    dataDir: string, comment: string, vg1s: seq<real>, vg2s: seq<real>,
    commongate: bool, rg1: real, rg2: real, rds: real, stabiliseTime: real)

  /**
   * What the instruments give: the lock-in's output amplitude, read once
   * before the loops, and at step (j, k) of the Vg2 and Vg1 loops the two
   * gate readings and the lock-in's mean and standard deviation.
   */
  datatype Meters = Meters(
    rmsAmp: real, vg1m: (nat, nat) -> real, vg2m: (nat, nat) -> real,
    vdsm: (nat, nat) -> real, vdsmStd: (nat, nat) -> real)

  /** The lock-in's settings file: a `ZIsettings` folder of the data folder, named after the timestamp. */
  function SettingsPath(p: Params, ts: string): string
  {
    PathJoin(PathJoin(p.dataDir, "ZIsettings"), ts + ".ZIsettings.txt")
  }

  /** The data file: the timestamp alone; the comment does not enter the name. */
  function DataPath(p: Params, ts: string): string
  {
    PathJoin(p.dataDir, ts + ".txt")
  }

  predicate Within(p: Params, j: nat, k: nat)
  {
    j < |p.vg2s| && k < |p.vg1s|
  }

  // ------------------------------------------------------------- a step

  /** The observables' values at step (j, k); Vds is the lock-in amplitude throughout. */
  function StepValues(p: Params, m: Meters, j: nat, k: nat): seq<Value>
    requires Within(p, j, k)
  {
    var vg1 := p.vg1s[k];
    var vg2 := p.vg2s[j];
    [ Num(vg1), Num(m.vg1m(j, k)), LeakCurrent(vg1, m.vg1m(j, k), p.rg1),
      Num(vg2), Num(m.vg2m(j, k)), LeakCurrent(vg2, m.vg2m(j, k), p.rg2),
      Num(m.rmsAmp), Num(m.vdsm(j, k)), Num(m.vdsmStd(j, k)), SeriesResistance(p.rds, m.rmsAmp, m.vdsm(j, k)) ]
  }

  function StepEnv(p: Params, m: Meters, j: nat, k: nat): Env
    requires Within(p, j, k)
  {
    Bind(Observables, StepValues(p, m, j, k))
  }

  /** A step records the two gate voltages it set, the lock-in amplitude as Vds, and the four readings. */
  lemma StepVoltages(p: Params, m: Meters, j: nat, k: nat)
    requires Within(p, j, k)
    ensures var env := StepEnv(p, m, j, k);
      && "Vg1" in env && env["Vg1"] == Num(p.vg1s[k]) && "Vg2" in env && env["Vg2"] == Num(p.vg2s[j])
      && "Vds" in env && env["Vds"] == Num(m.rmsAmp)
      && "Vg1m" in env && env["Vg1m"] == Num(m.vg1m(j, k)) && "Vg2m" in env && env["Vg2m"] == Num(m.vg2m(j, k))
      && "Vdsm" in env && env["Vdsm"] == Num(m.vdsm(j, k)) && "Vdsm_std" in env && env["Vdsm_std"] == Num(m.vdsmStd(j, k))
  {
    var values := StepValues(p, m, j, k);
    assert Distinct(Observables);
    BindLookup(Observables, values, 0);
    BindLookup(Observables, values, 1);
    BindLookup(Observables, values, 3);
    BindLookup(Observables, values, 4);
    BindLookup(Observables, values, 6);
    BindLookup(Observables, values, 7);
    BindLookup(Observables, values, 8);
  }

  /** The leak currents through the two gate resistors and the series resistance against the lock-in amplitude. */
  lemma StepDerived(p: Params, m: Meters, j: nat, k: nat)
    requires Within(p, j, k)
    ensures var env := StepEnv(p, m, j, k);
      && "Ileak1" in env && env["Ileak1"] == LeakCurrent(p.vg1s[k], m.vg1m(j, k), p.rg1)
      && "Ileak2" in env && env["Ileak2"] == LeakCurrent(p.vg2s[j], m.vg2m(j, k), p.rg2)
      && "Rs" in env && env["Rs"] == SeriesResistance(p.rds, m.rmsAmp, m.vdsm(j, k))
  {
    var values := StepValues(p, m, j, k);
    assert Distinct(Observables);
    BindLookup(Observables, values, 2);
    BindLookup(Observables, values, 5);
    BindLookup(Observables, values, 9);
  }

  // ------------------------------------------------------------- the plan

  type Steps = (nat, nat) -> Env

  function StepEnvs(p: Params, m: Meters): Steps
  {
    (j: nat, k: nat) => if Within(p, j, k) then StepEnv(p, m, j, k) else map[]
  }

  /** `envs` gives the bindings of every step; the quantifier fires only where a step's bindings are computed. */
  ghost predicate StepsOf(envs: Steps, p: Params, m: Meters)
  {
    forall j: nat, k: nat {:trigger StepEnv(p, m, j, k)} :: Within(p, j, k) ==> envs(j, k) == StepEnv(p, m, j, k)
  }

  lemma StepEnvsSteps(p: Params, m: Meters)
    ensures StepsOf(StepEnvs(p, m), p, m)
  {
  }

  /** One pass of the Vg1 loop: the quit check, Vg1, the row and its alarms. */
  function Pass(p: Params, envs: Steps, j: nat, k: nat): seq<Event>
  {
    if k < |p.vg1s| then [Poll, Set(VG1, p.vg1s[k]), Saved(envs(j, k)), Alarms(envs(j, k))] else []
  }

  /** The Vg1 loop's first n passes inside Vg2 iteration j. */
  function InnerLoop(p: Params, envs: Steps, j: nat, n: nat): seq<Event>
  {
    Concat(n, (k: nat) => Pass(p, envs, j, k))
  }

  /** What a Vg2 iteration sends before its Vg1 loop. */
  function Head(p: Params, j: nat): seq<Event>
  {
    if j < |p.vg2s| then [Set(VG2, p.vg2s[j])] else []
  }

  /** One Vg2 iteration: Vg2, then the whole Vg1 loop. */
  function OuterPass(p: Params, envs: Steps, j: nat): seq<Event>
  {
    Head(p, j) + InnerLoop(p, envs, j, |p.vg1s|)
  }

  /** The Vg2 loop's first n iterations. */
  function Loop(p: Params, envs: Steps, n: nat): seq<Event>
  {
    Concat(n, (j: nat) => OuterPass(p, envs, j))
  }

  /** Everything the loops did up to the quit check of step (j, k) that saw the flag set. */
  function StoppedAt(p: Params, envs: Steps, j: nat, k: nat): seq<Event>
  {
    Loop(p, envs, j) + Head(p, j) + InnerLoop(p, envs, j, k) + [Poll]
  }

  /** The rows of Vg2 iteration j: one per Vg1 value. */
  function RowsAt(envs: Steps, j: nat, n: nat): seq<Env>
  {
    seq(n, (k: nat) => envs(j, k))
  }

  lemma PassPicks(p: Params, envs: Steps, j: nat, k: nat, src: nat)
    requires k < |p.vg1s|
    ensures SetValues(Pass(p, envs, j, k), src) == if src == VG1 then [p.vg1s[k]] else []
    ensures SavedEnvs(Pass(p, envs, j, k)) == [envs(j, k)]
    ensures Pick(Pass(p, envs, j, k), PollOf) == [Poll]
  {
    var a := [Poll, Set(VG1, p.vg1s[k])];
    var b := [Saved(envs(j, k)), Alarms(envs(j, k))];
    assert Pass(p, envs, j, k) == a + b;
    PickAppend(a, b, SetOf(src));
    PickAppend(a, b, SavedOf);
    PickAppend(a, b, PollOf);
    PickTwo(Poll, Set(VG1, p.vg1s[k]), SetOf(src));
    PickTwo(Poll, Set(VG1, p.vg1s[k]), SavedOf);
    PickTwo(Poll, Set(VG1, p.vg1s[k]), PollOf);
    PickTwo(Saved(envs(j, k)), Alarms(envs(j, k)), SetOf(src));
    PickTwo(Saved(envs(j, k)), Alarms(envs(j, k)), SavedOf);
    PickTwo(Saved(envs(j, k)), Alarms(envs(j, k)), PollOf);
  }

  /** The Vg1 loop sends the Vg1 values in order to sourceVg1 and nothing elsewhere, with one row and one quit check per value. */
  lemma InnerPicks(p: Params, envs: Steps, j: nat, src: nat)
    ensures SetValues(InnerLoop(p, envs, j, |p.vg1s|), src) == if src == VG1 then p.vg1s else []
    ensures SavedEnvs(InnerLoop(p, envs, j, |p.vg1s|)) == RowsAt(envs, j, |p.vg1s|)
    ensures |Pick(InnerLoop(p, envs, j, |p.vg1s|), PollOf)| == |p.vg1s|
  {
    InnerSets(p, envs, j, src);
    InnerRows(p, envs, j);
    InnerPolls(p, envs, j);
  }

  lemma InnerSets(p: Params, envs: Steps, j: nat, src: nat)
    ensures SetValues(InnerLoop(p, envs, j, |p.vg1s|), src) == if src == VG1 then p.vg1s else []
  {
    var n := |p.vg1s|;
    var body := (k: nat) => Pass(p, envs, j, k);
    forall k: nat | k < n
      ensures Pick(body(k), SetOf(src)) == if src == VG1 then [p.vg1s[k]] else []
    {
      PassPicks(p, envs, j, k, src);
    }
    if src == VG1 {
      PickConcatEach(n, body, SetOf(src), p.vg1s);
    } else {
      PickConcatNone(n, body, SetOf(src));
    }
  }

  lemma InnerRows(p: Params, envs: Steps, j: nat)
    ensures SavedEnvs(InnerLoop(p, envs, j, |p.vg1s|)) == RowsAt(envs, j, |p.vg1s|)
  {
    var n := |p.vg1s|;
    var body := (k: nat) => Pass(p, envs, j, k);
    var rows := RowsAt(envs, j, n);
    forall k: nat | k < n
      ensures Pick(body(k), SavedOf) == [rows[k]]
    {
      PassPicks(p, envs, j, k, VG1);
    }
    PickConcatEach(n, body, SavedOf, rows);
  }

  lemma InnerPolls(p: Params, envs: Steps, j: nat)
    ensures |Pick(InnerLoop(p, envs, j, |p.vg1s|), PollOf)| == |p.vg1s|
  {
    var n := |p.vg1s|;
    var body := (k: nat) => Pass(p, envs, j, k);
    forall k: nat | k < n
      ensures |Pick(body(k), PollOf)| == 1
    {
      PassPicks(p, envs, j, k, VG1);
    }
    PickConcatCount(n, body, PollOf, 1);
  }

  /** A Vg2 iteration sends Vg2 once, then the Vg1 values in order, and saves one row per Vg1 value. */
  lemma OuterPicks(p: Params, envs: Steps, j: nat, src: nat)
    requires j < |p.vg2s|
    ensures SetValues(OuterPass(p, envs, j), src) ==
            if src == VG1 then p.vg1s else if src == VG2 then [p.vg2s[j]] else []
    ensures SavedEnvs(OuterPass(p, envs, j)) == RowsAt(envs, j, |p.vg1s|)
    ensures |Pick(OuterPass(p, envs, j), PollOf)| == |p.vg1s|
  {
    var inner := InnerLoop(p, envs, j, |p.vg1s|);
    InnerPicks(p, envs, j, src);
    PickAppend([Set(VG2, p.vg2s[j])], inner, SetOf(src));
    PickAppend([Set(VG2, p.vg2s[j])], inner, SavedOf);
    PickAppend([Set(VG2, p.vg2s[j])], inner, PollOf);
    PickOne(Set(VG2, p.vg2s[j]), SetOf(src));
    PickOne(Set(VG2, p.vg2s[j]), SavedOf);
    PickOne(Set(VG2, p.vg2s[j]), PollOf);
  }

  /**
   * Without a quit request: sourceVg1 runs through the Vg1 values once per
   * Vg2 value, sourceVg2 through the Vg2 values once, in list order, and
   * `commongate` changes nothing; no other instrument receives a set-point.
   */
  lemma PlanSets(p: Params, envs: Steps, src: nat)
    ensures SetValues(Loop(p, envs, |p.vg2s|), src) ==
            if src == VG1 then Repeat(p.vg1s, |p.vg2s|) else if src == VG2 then p.vg2s else []
  {
    var n := |p.vg2s|;
    var body := (j: nat) => OuterPass(p, envs, j);
    if src == VG2 {
      forall j: nat | j < n
        ensures Pick(body(j), SetOf(src)) == [p.vg2s[j]]
      {
        OuterPicks(p, envs, j, src);
      }
      PickConcatEach(n, body, SetOf(src), p.vg2s);
    } else {
      var s := if src == VG1 then p.vg1s else [];
      forall j: nat | j < n
        ensures Pick(body(j), SetOf(src)) == s
      {
        OuterPicks(p, envs, j, src);
      }
      PickConcatRepeat(n, body, SetOf(src), s);
      if s == [] {
        RepeatEmpty<real>(n);
      }
    }
  }

  /**
   * Without a quit request: one row per (Vg2, Vg1) pair, Vg2 outer and Vg1
   * inner, |Vg2s|·|Vg1s| in all, each step preceded by one quit check.
   */
  lemma PlanRows(p: Params, envs: Steps)
    ensures SavedEnvs(Loop(p, envs, |p.vg2s|)) == Concat(|p.vg2s|, (j: nat) => RowsAt(envs, j, |p.vg1s|))
    ensures |SavedEnvs(Loop(p, envs, |p.vg2s|))| == |p.vg2s| * |p.vg1s|
    ensures |Pick(Loop(p, envs, |p.vg2s|), PollOf)| == |p.vg2s| * |p.vg1s|
  {
    var n := |p.vg2s|;
    var body := (j: nat) => OuterPass(p, envs, j);
    var each := (j: nat) => RowsAt(envs, j, |p.vg1s|);
    forall j: nat | j < n
      ensures Pick(body(j), SavedOf) == each(j)
      ensures |Pick(body(j), SavedOf)| == |p.vg1s|
      ensures |Pick(body(j), PollOf)| == |p.vg1s|
    {
      OuterPicks(p, envs, j, 0);
    }
    PickConcat(n, body, SavedOf);
    ConcatAgree(n, (j: nat) => Pick(body(j), SavedOf), each);
    PickConcatCount(n, body, SavedOf, |p.vg1s|);
    PickConcatCount(n, body, PollOf, |p.vg1s|);
  }

  /**
   * After a sweep without a quit request the data file holds its earlier
   * lines, the header and the |Vg2s|·|Vg1s| rows in loop order.
   */
  lemma PlanFile(files: map<string, seq<Line>>, path: string, t0: seq<Event>, p: Params, envs: Steps)
    ensures var disk := DiskView(files, Some(path), Observables, t0 + Loop(p, envs, |p.vg2s|), |t0|);
      && path in disk
      && disk[path] == FileAt(files, path) + [Header(Observables)] +
                       RowsOf(Observables, Concat(|p.vg2s|, (j: nat) => RowsAt(envs, j, |p.vg1s|)))
  {
    DiskAfter(files, path, Observables, t0, Loop(p, envs, |p.vg2s|));
    PlanRows(p, envs);
  }

  // ------------------------------------------------------------ the script

  class Measurement {
    const base: MeasurementBase
    /** The instrument attributes `measure` has assigned. */
    var present: set<Attr>

    ghost predicate Valid()
      reads this, base
    {
      base.Valid() && NoQuitRule(base.alarms)
    }

    constructor (disk: map<string, seq<Line>>)
      ensures Valid() && fresh(base) && base.observables == Observables && base.alarms == DeclaredAlarms()
      ensures base.files == disk && base.dataFile == None && !base.quitRequested && base.trace == []
      ensures present == {}
    {
      base := new MeasurementBase(Observables, DeclaredAlarms(), disk);
      present := {};
    }

    /** Vg1 set, then the row saved and its alarms checked (lockin2gates.py:75-91). */
    method MeasurePoint(p: Params, m: Meters, ghost envs: Steps, j: nat, k: nat)
      requires Valid() && StepsOf(envs, p, m) && Within(p, j, k) && base.dataFile.Some?
      modifies base`trace, base`quitRequested
      ensures Valid()
      ensures base.quitRequested == old(base.quitRequested)
      ensures base.trace == old(base.trace) + [Set(VG1, p.vg1s[k]), Saved(envs(j, k)), Alarms(envs(j, k))]
    {
      base.Record(Set(VG1, p.vg1s[k]));
      var env := StepEnv(p, m, j, k);
      assert env == envs(j, k);
      var _ := base.SaveRow(env);
      NoQuitRuleNoQuit(base.alarms, env);
    }

    /** One pass of the Vg1 loop body (lockin2gates.py:71-91); true when it stopped at the quit check. */
    method Step(p: Params, m: Meters, ghost envs: Steps, press: bool, j: nat, k: nat) returns (quit: bool)
      requires Valid() && StepsOf(envs, p, m) && Within(p, j, k) && base.dataFile.Some?
      modifies base`trace, base`quitRequested
      ensures Valid()
      ensures quit == base.quitRequested == (old(base.quitRequested) || press)
      ensures base.trace == old(base.trace) + if quit then [Poll] else Pass(p, envs, j, k)
    {
      quit := base.PollQuit(press);
      if quit {
        return;
      }
      MeasurePoint(p, m, envs, j, k);
    }

    /** The Vg1 loop inside Vg2 iteration j (lockin2gates.py:71-91). */
    method SweepVg1(p: Params, m: Meters, ghost envs: Steps, press: (nat, nat) -> bool, j: nat)
      returns (quit: bool, ghost k: nat)
      requires Valid() && StepsOf(envs, p, m) && j < |p.vg2s| && base.dataFile.Some?
      modifies base`trace, base`quitRequested
      ensures Valid()
      ensures !quit ==>
        (base.quitRequested ==> old(base.quitRequested)) && base.trace == old(base.trace) + InnerLoop(p, envs, j, |p.vg1s|)
      ensures quit ==>
        k < |p.vg1s| && base.quitRequested && base.trace == old(base.trace) + InnerLoop(p, envs, j, k) + [Poll]
      ensures !old(base.quitRequested) && (forall n: nat :: !press(j, n)) ==> !quit
    {
      ghost var t0 := base.trace;
      var n := 0;
      k := 0;
      quit := false;
      while n < |p.vg1s|
        invariant n <= |p.vg1s| && k == n && !quit
        invariant Valid()
        invariant base.trace == t0 + InnerLoop(p, envs, j, n)
        invariant base.quitRequested ==> old(base.quitRequested)
      {
        quit := Step(p, m, envs, press(j, n), j, n);
        if quit {
          return;
        }
        AppendAssoc(t0, InnerLoop(p, envs, j, n), Pass(p, envs, j, n));
        n := n + 1;
        k := n;
      }
    }

    /**
     * One Vg2 iteration (lockin2gates.py:69-91), after the first j have added
     * their events to `t0`: Vg2, then the Vg1 loop.
     */
    method StepVg2(p: Params, m: Meters, ghost envs: Steps, press: (nat, nat) -> bool, j: nat, ghost t0: seq<Event>)
      returns (quit: bool, ghost k: nat)
      requires Valid() && StepsOf(envs, p, m) && j < |p.vg2s| && base.dataFile.Some?
      requires base.trace == t0 + Loop(p, envs, j)
      modifies base`trace, base`quitRequested
      ensures Valid()
      ensures !quit ==>
        (base.quitRequested ==> old(base.quitRequested)) && base.trace == t0 + Loop(p, envs, j + 1)
      ensures quit ==>
        k < |p.vg1s| && base.quitRequested && base.trace == t0 + StoppedAt(p, envs, j, k)
      ensures !old(base.quitRequested) && (forall n: nat :: !press(j, n)) ==> !quit
    {
      base.Record(Set(VG2, p.vg2s[j]));
      assert base.trace == t0 + Loop(p, envs, j) + Head(p, j);
      quit, k := SweepVg1(p, m, envs, press, j);
      if quit {
        AppendAssoc4(t0, Loop(p, envs, j), Head(p, j), InnerLoop(p, envs, j, k), [Poll]);
      } else {
        AppendAssoc4(t0, Loop(p, envs, j), Head(p, j), InnerLoop(p, envs, j, |p.vg1s|), []);
      }
    }

    /** The Vg2 loop (lockin2gates.py:69-91), with the data file open; it stopped at step `stop`. */
    method Sweep(p: Params, m: Meters, ghost envs: Steps, press: (nat, nat) -> bool)
      returns (quit: bool, ghost stop: (nat, nat))
      requires Valid() && StepsOf(envs, p, m) && base.dataFile.Some?
      modifies base`trace, base`quitRequested
      ensures Valid()
      ensures !quit ==>
        (base.quitRequested ==> old(base.quitRequested)) && base.trace == old(base.trace) + Loop(p, envs, |p.vg2s|)
      ensures quit ==>
        Within(p, stop.0, stop.1) && base.quitRequested &&
        base.trace == old(base.trace) + StoppedAt(p, envs, stop.0, stop.1)
      ensures !old(base.quitRequested) && (forall a: nat, b: nat :: !press(a, b)) ==> !quit
    {
      ghost var t0 := base.trace;
      stop := (0, 0);
      var j := 0;
      quit := false;
      while j < |p.vg2s|
        invariant j <= |p.vg2s| && !quit
        invariant Valid()
        invariant base.trace == t0 + Loop(p, envs, j)
        invariant base.quitRequested ==> old(base.quitRequested)
      {
        ghost var k;
        quit, k := StepVg2(p, m, envs, press, j, t0);
        if quit {
          stop := (j, k);
          return;
        }
        j := j + 1;
      }
    }

    /**
     * `measure` (lockin2gates.py:33-95): the Bilt sources and meters, the
     * lock-in, its settings file, the data file, then the two loops. `m.rmsAmp`
     * is the lock-in's amplitude, read once; `press(j, k)` says whether stop
     * was pressed before the quit check of step (j, k).
     */
    method Measure(p: Params, m: Meters, press: (nat, nat) -> bool, setup: Setup, ts: string)
      returns (outcome: Outcome, ghost stop: (nat, nat))
      requires Valid()
      modifies this`present, base`trace, base`dataFile, base`openedAt, base`quitRequested
      ensures Valid()
      ensures present == Assigned(Constructions, setup)
      ensures setup.Breaks? ==>
        outcome == Failed(setup.error) && base.trace == old(base.trace) &&
        base.dataFile == old(base.dataFile) && base.openedAt == old(base.openedAt)
      ensures setup.Ready? && old(base.dataFile).Some? ==>
        outcome == Failed(NOT_CLOSED) &&
        base.trace == old(base.trace) + [Wrote(SettingsPath(p, ts))] &&
        base.dataFile == old(base.dataFile) && base.openedAt == old(base.openedAt)
      ensures setup.Ready? && old(base.dataFile).None? ==>
        var envs := StepEnvs(p, m);
        var t0 := old(base.trace) + [Wrote(SettingsPath(p, ts))];
        && base.dataFile == Some(DataPath(p, ts))
        && base.openedAt == |t0|
        && (outcome == Completed || outcome == Stopped)
        && (outcome == Completed ==> base.trace == t0 + Loop(p, envs, |p.vg2s|))
        && (outcome == Stopped ==>
              Within(p, stop.0, stop.1) && base.quitRequested && base.trace == t0 + StoppedAt(p, envs, stop.0, stop.1))
        && (!old(base.quitRequested) && (forall a: nat, b: nat :: !press(a, b)) ==> outcome == Completed)
    {
      present := Assigned(Constructions, setup);
      stop := (0, 0);
      if setup.Breaks? {
        return Failed(setup.error), stop;
      }
      base.Record(Wrote(SettingsPath(p, ts)));
      var raised := base.PrepareSaving(DataPath(p, ts));
      if raised.Some? {
        return Failed(raised.value), stop;
      }
      StepEnvsSteps(p, m);
      var quit;
      quit, stop := Sweep(p, m, StepEnvs(p, m), press);
      outcome := if quit then Stopped else Completed;
    }

    /** `tidy_up` (lockin2gates.py:97-105): close the data file, Vg1 then Vg2 to 0, then the lock-in's own clean-up. */
    method TidyUp() returns (raised: Option<string>)
      requires Valid()
      modifies base`trace, base`dataFile, base`files
      ensures Valid() && base.dataFile == None && base.files == old(base.Disk())
      ensures var n := Covered(ZeroOrder, present);
        var zeroed := old(base.trace) + [Teardown] +
                      (if old(base.dataFile).Some? then [Closed(old(base.dataFile).value)] else []) +
                      ZeroSets(ZeroOrder[..n]);
        && (n < |ZeroOrder| ==> base.trace == zeroed && raised == Some(NoAttribute(ZeroOrder[n])))
        && (n == |ZeroOrder| && Lockin !in present ==> base.trace == zeroed && raised == Some(NoAttribute(Lockin)))
        && (n == |ZeroOrder| && Lockin in present ==>
              base.trace == zeroed + [Command("lockin", "tidy_up")] && raised == None)
    {
      base.Record(Teardown);
      RowsSinceOther(old(base.trace), base.openedAt, Teardown);
      base.EndSaving();
      raised := base.ZeroSources(ZeroOrder, present);
      if raised.Some? {
        return;
      }
      if Lockin !in present {
        return Some(NoAttribute(Lockin));
      }
      base.Record(Command("lockin", "tidy_up"));
    }
  }
}
