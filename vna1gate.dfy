// modules/vna1gate.py: one gate voltage swept on a Bilt source at a fixed
// drain voltage, two Bilt voltmeters read and one VNA spectrum taken at every
// step, one data row per step.
module Vna1Gate {
  import opened Common
  import opened Mascril

  const Observables: seq<string> := ["Vg", "Vgm", "Ileak", "Vds", "Vdsm", "Rs"]

  /** The sources, by their rank among the instrument objects. */
  const VG: nat := 1
  const VDS: nat := 2

  const SourceVg := Attr(VG, "sourceVg")
  const SourceVds := Attr(VDS, "sourceVds")

  /** The instrument objects in the order `measure` creates them; `bilt` and `vna` are locals. */
  const Constructions: seq<Attr> :=
    [Attr(0, "bilt"), SourceVg, SourceVds, Attr(3, "meterVg"), Attr(4, "meterVds"), Attr(5, "vna")]

  /** The sources `tidy_up` drives back to zero, in its order. */
  const ZeroOrder: seq<Attr> := [SourceVg, SourceVds]

  /** One leak-current alert. */
  function DeclaredAlarms(): seq<Alarm>
  {
    [ Alarm("np.abs(Ileak) > 1e-8", Bin(Gt, AbsOf(Name("Ileak")), Lit(Num(0.00000001))), ALARM_CALLCOPS) ]
  }

  datatype Params = Params(dataDir: string, comment: string, vgs: seq<real>, vds: real, rg: real, rds: real)

  /** What the two voltmeters read at step k. */
  datatype Meters = Meters(vgm: nat -> real, vdsm: nat -> real)

  /** The run's name: the timestamp, then `_comment` only for a non-empty comment. */
  function RunName(timestamp: string, comment: string): string
  {
    timestamp + (if comment != "" then "_" + comment else "")
  }

  function DataPath(p: Params, ts: string): string
  {
    PathJoin(p.dataDir, RunName(ts, p.comment) + ".txt")
  }

  /** The folder the spectra go to, named after the run. */
  function SpectraFolder(p: Params, ts: string): string
  {
    PathJoin(p.dataDir, RunName(ts, p.comment))
  }

  lemma RunNameComment(timestamp: string, comment: string)
    ensures comment == "" ==> RunName(timestamp, comment) == timestamp
    ensures comment != "" ==> RunName(timestamp, comment) == timestamp + "_" + comment
  {
  }

  // ------------------------------------------------------------- a step

  /**
   * Whether step k raises computing Rs: Vds and the reading Vdsm are Python
   * floats, so Vds − Vdsm = 0 raises instead of giving inf.
   */
  predicate RsRaises(p: Params, m: Meters, k: nat)
  {
    p.vds == m.vdsm(k)
  }

  /** Step k reaches `save_row`. */
  predicate Saves(p: Params, m: Meters, k: nat)
  {
    k < |p.vgs| && !RsRaises(p, m, k)
  }

  /** The observables' values at step k; Ileak is a numpy quotient since Vg comes from a numpy array. */
  function StepValues(p: Params, m: Meters, k: nat): seq<Value>
    requires Saves(p, m, k)
  {
    var vg := p.vgs[k];
    [ Num(vg), Num(m.vgm(k)), LeakCurrent(vg, m.vgm(k), p.rg),
      Num(p.vds), Num(m.vdsm(k)), Num(p.rds * m.vdsm(k) / (p.vds - m.vdsm(k))) ]
  }

  /** The bindings `save_row(locals())` reads at step k. */
  function StepEnv(p: Params, m: Meters, k: nat): Env
    requires Saves(p, m, k)
  {
    Bind(Observables, StepValues(p, m, k))
  }

  /**
   * A step records the gate voltage it set, the fixed drain voltage, both
   * readings, the leak current through Rg and the series resistance.
   */
  lemma StepRecords(p: Params, m: Meters, k: nat)
    requires Saves(p, m, k)
    ensures var env := StepEnv(p, m, k);
      && "Vg" in env && env["Vg"] == Num(p.vgs[k]) && "Vgm" in env && env["Vgm"] == Num(m.vgm(k))
      && "Ileak" in env && env["Ileak"] == LeakCurrent(p.vgs[k], m.vgm(k), p.rg)
      && "Vds" in env && env["Vds"] == Num(p.vds) && "Vdsm" in env && env["Vdsm"] == Num(m.vdsm(k))
      && "Rs" in env && env["Rs"] == Num(p.rds * m.vdsm(k) / (p.vds - m.vdsm(k)))
  {
    var values := StepValues(p, m, k);
    assert Distinct(Observables);
    BindLookup(Observables, values, 0);
    BindLookup(Observables, values, 1);
    BindLookup(Observables, values, 2);
    BindLookup(Observables, values, 3);
    BindLookup(Observables, values, 4);
    BindLookup(Observables, values, 5);
  }

  // ------------------------------------------------------------- the plan

  type Steps = nat -> Env

  function StepEnvs(p: Params, m: Meters): Steps
  {
    (k: nat) => if Saves(p, m, k) then StepEnv(p, m, k) else map[]
  }

  /** `envs` gives the bindings of every step; the quantifier fires only where a step's bindings are computed. */
  ghost predicate StepsOf(envs: Steps, p: Params, m: Meters)
  {
    forall k: nat {:trigger StepEnv(p, m, k)} :: Saves(p, m, k) ==> envs(k) == StepEnv(p, m, k)
  }

  lemma StepEnvsSteps(p: Params, m: Meters)
    ensures StepsOf(StepEnvs(p, m), p, m)
  {
  }

  /** A measured point: Vg, the row and its alarms, the spectrum tagged with Vg and Vds. */
  function Point(p: Params, envs: Steps, k: nat): seq<Event>
    requires k < |p.vgs|
  {
    [Set(VG, p.vgs[k]), Saved(envs(k)), Alarms(envs(k)), Spectrum([p.vgs[k], p.vds])]
  }

  /** One iteration: the quit check, then the point. */
  function Pass(p: Params, envs: Steps, k: nat): seq<Event>
  {
    if k < |p.vgs| then [Poll] + Point(p, envs, k) else []
  }

  /** What `measure` does once the data file is open, before the Vg loop. */
  function Prologue(p: Params, ts: string): seq<Event>
  {
    [MakeDir(SpectraFolder(p, ts)), Set(VDS, p.vds)]
  }

  /** The Vg loop's first n iterations. */
  function Loop(p: Params, envs: Steps, n: nat): seq<Event>
  {
    Concat(n, (k: nat) => Pass(p, envs, k))
  }

  lemma PassPicks(p: Params, envs: Steps, k: nat, src: nat)
    requires k < |p.vgs|
    ensures SetValues(Pass(p, envs, k), src) == if src == VG then [p.vgs[k]] else []
    ensures SavedEnvs(Pass(p, envs, k)) == [envs(k)]
    ensures Pick(Pass(p, envs, k), SpectrumOf) == [[p.vgs[k], p.vds]]
  {
    var a := [Poll, Set(VG, p.vgs[k])];
    var b := [Saved(envs(k)), Alarms(envs(k))];
    var c := [Spectrum([p.vgs[k], p.vds])];
    assert Pass(p, envs, k) == a + b + c by {
      assert Point(p, envs, k) == [Set(VG, p.vgs[k])] + b + c;
    }
    PickThree(a, b, c, SetOf(src));
    PickThree(a, b, c, SavedOf);
    PickThree(a, b, c, SpectrumOf);
    PickTwo(Poll, Set(VG, p.vgs[k]), SetOf(src));
    PickTwo(Poll, Set(VG, p.vgs[k]), SavedOf);
    PickTwo(Poll, Set(VG, p.vgs[k]), SpectrumOf);
    PickTwo(Saved(envs(k)), Alarms(envs(k)), SetOf(src));
    PickTwo(Saved(envs(k)), Alarms(envs(k)), SavedOf);
    PickTwo(Saved(envs(k)), Alarms(envs(k)), SpectrumOf);
    PickOne(Spectrum([p.vgs[k], p.vds]), SetOf(src));
    PickOne(Spectrum([p.vgs[k], p.vds]), SavedOf);
    PickOne(Spectrum([p.vgs[k], p.vds]), SpectrumOf);
  }

  /**
   * Without a quit request Vds is set once, before the loop, and never again,
   * and Vg takes the values in list order.
   */
  lemma PlanSets(p: Params, envs: Steps, ts: string)
    ensures SetValues(Prologue(p, ts) + Loop(p, envs, |p.vgs|), VDS) == [p.vds]
    ensures SetValues(Loop(p, envs, |p.vgs|), VG) == p.vgs
  {
    var n := |p.vgs|;
    var body := (k: nat) => Pass(p, envs, k);
    forall k: nat | k < n
      ensures Pick(body(k), SetOf(VG)) == [p.vgs[k]]
      ensures Pick(body(k), SetOf(VDS)) == []
    {
      PassPicks(p, envs, k, VG);
      PassPicks(p, envs, k, VDS);
    }
    PickConcatEach(n, body, SetOf(VG), p.vgs);
    PickConcatNone(n, body, SetOf(VDS));
    PickAppend(Prologue(p, ts), Loop(p, envs, n), SetOf(VDS));
    PickTwo(MakeDir(SpectraFolder(p, ts)), Set(VDS, p.vds), SetOf(VDS));
  }

  /** Without a quit request: one row per Vg value, in order, each followed by one spectrum tagged with that Vg and Vds. */
  lemma PlanRows(p: Params, envs: Steps)
    ensures SavedEnvs(Loop(p, envs, |p.vgs|)) == seq(|p.vgs|, (k: nat) => envs(k))
    ensures Pick(Loop(p, envs, |p.vgs|), SpectrumOf) == seq(|p.vgs|, k requires 0 <= k < |p.vgs| => [p.vgs[k], p.vds])
  {
    var n := |p.vgs|;
    var body := (k: nat) => Pass(p, envs, k);
    var rows := seq(n, (k: nat) => envs(k));
    var tags := seq(n, k requires 0 <= k < n => [p.vgs[k], p.vds]);
    forall k: nat | k < n
      ensures Pick(body(k), SavedOf) == [rows[k]]
      ensures Pick(body(k), SpectrumOf) == [tags[k]]
    {
      PassPicks(p, envs, k, VG);
    }
    PickConcatEach(n, body, SavedOf, rows);
    PickConcatEach(n, body, SpectrumOf, tags);
  }

  /**
   * After a sweep without a quit request or a failure the data file holds its
   * earlier lines, the header and one row per Vg value, in order.
   */
  lemma PlanFile(files: map<string, seq<Line>>, path: string, t0: seq<Event>, p: Params, envs: Steps, ts: string)
    ensures var disk := DiskView(files, Some(path), Observables, t0 + Prologue(p, ts) + Loop(p, envs, |p.vgs|), |t0|);
      && path in disk
      && disk[path] == FileAt(files, path) + [Header(Observables)] + RowsOf(Observables, seq(|p.vgs|, (k: nat) => envs(k)))
  {
    PickTwo(MakeDir(SpectraFolder(p, ts)), Set(VDS, p.vds), SavedOf);
    DiskAfterQuiet(files, path, Observables, t0, Prologue(p, ts), Loop(p, envs, |p.vgs|));
    PlanRows(p, envs);
  }

  // ------------------------------------------------------------ the script

  class Measurement {
    const base: MeasurementBase
    /** The instrument attributes `measure` has assigned. */
    var present: set<Attr>

    ghost predicate Valid()
      reads this, base
    {
      base.Valid() && NoQuitRule(base.alarms)
    }

    constructor (disk: map<string, seq<Line>>)
      ensures Valid() && fresh(base) && base.observables == Observables && base.alarms == DeclaredAlarms()
      ensures base.files == disk && base.dataFile == None && !base.quitRequested && base.trace == []
      ensures present == {}
    {
      base := new MeasurementBase(Observables, DeclaredAlarms(), disk);
      present := {};
    }

    /** A point of the Vg loop once the quit check has passed (vna1gate.py:77-102). */
    method MeasurePoint(p: Params, m: Meters, ghost envs: Steps, k: nat) returns (raised: Option<string>)
      requires Valid() && StepsOf(envs, p, m) && k < |p.vgs| && base.dataFile.Some?
      modifies base`trace, base`quitRequested
      ensures Valid()
      ensures base.quitRequested == old(base.quitRequested)
      ensures RsRaises(p, m, k) ==> raised == Some(FLOAT_DIVISION_BY_ZERO) && base.trace == old(base.trace) + [Set(VG, p.vgs[k])]
      ensures !RsRaises(p, m, k) ==> raised == None && base.trace == old(base.trace) + Point(p, envs, k)
    {
      base.Record(Set(VG, p.vgs[k]));
      if p.vds == m.vdsm(k) {
        return Some(FLOAT_DIVISION_BY_ZERO);
      }
      var env := StepEnv(p, m, k);
      assert env == envs(k);
      var _ := base.SaveRow(env);
      NoQuitRuleNoQuit(base.alarms, env);
      base.Record(Spectrum([p.vgs[k], p.vds]));
      raised := None;
    }

    /**
     * One pass of the Vg loop body (vna1gate.py:73-102): Stopped at the quit
     * check, Failed when computing Rs raises, Completed otherwise.
     */
    method Step(p: Params, m: Meters, ghost envs: Steps, press: bool, k: nat) returns (halt: Outcome)
      requires Valid() && StepsOf(envs, p, m) && k < |p.vgs| && base.dataFile.Some?
      modifies base`trace, base`quitRequested
      ensures Valid()
      ensures base.quitRequested == (old(base.quitRequested) || press)
      ensures halt == Stopped <==> base.quitRequested
      ensures halt == Stopped ==> base.trace == old(base.trace) + [Poll]
      ensures halt.Failed? <==> !base.quitRequested && RsRaises(p, m, k)
      ensures halt.Failed? ==>
        halt.error == FLOAT_DIVISION_BY_ZERO && base.trace == old(base.trace) + [Poll, Set(VG, p.vgs[k])]
      ensures halt == Completed ==> base.trace == old(base.trace) + Pass(p, envs, k)
    {
      var quit := base.PollQuit(press);
      if quit {
        return Stopped;
      }
      var raised := MeasurePoint(p, m, envs, k);
      if raised.Some? {
        return Failed(raised.value);
      }
      AppendAssoc(old(base.trace), [Poll], Point(p, envs, k));
      halt := Completed;
    }

    /** The Vg loop (vna1gate.py:72-102); `k` is the step it ended at. */
    method Sweep(p: Params, m: Meters, ghost envs: Steps, press: nat -> bool) returns (halt: Outcome, ghost k: nat)
      requires Valid() && StepsOf(envs, p, m) && base.dataFile.Some?
      modifies base`trace, base`quitRequested
      ensures Valid()
      ensures halt == Completed ==>
        && (base.quitRequested ==> old(base.quitRequested))
        && (forall j: nat :: j < |p.vgs| ==> !RsRaises(p, m, j))
        && base.trace == old(base.trace) + Loop(p, envs, |p.vgs|)
      ensures halt != Completed ==> k < |p.vgs| && forall j: nat :: j < k ==> !RsRaises(p, m, j)
      ensures halt == Stopped ==> base.quitRequested && base.trace == old(base.trace) + Loop(p, envs, k) + [Poll]
      ensures halt.Failed? ==>
        halt.error == FLOAT_DIVISION_BY_ZERO && RsRaises(p, m, k) &&
        base.trace == old(base.trace) + Loop(p, envs, k) + [Poll, Set(VG, p.vgs[k])]
      ensures !old(base.quitRequested) && (forall n: nat :: !press(n)) ==> halt != Stopped
    {
      ghost var t0 := base.trace;
      var n := 0;
      k := 0;
      while n < |p.vgs|
        invariant n <= |p.vgs| && k == n
        invariant Valid()
        invariant base.trace == t0 + Loop(p, envs, n)
        invariant base.quitRequested ==> old(base.quitRequested)
        invariant forall j: nat :: j < n ==> !RsRaises(p, m, j)
      {
        halt := Step(p, m, envs, press(n), n);
        if halt != Completed {
          return;
        }
        n := n + 1;
        k := n;
      }
      halt := Completed;
    }

    /** What `measure` does once the data file is open (vna1gate.py:63-102). */
    method Acquire(p: Params, m: Meters, press: nat -> bool, ts: string) returns (halt: Outcome, ghost k: nat)
      requires Valid() && base.dataFile.Some?
      modifies base`trace, base`quitRequested
      ensures Valid()
      ensures halt == Completed ==> base.trace == old(base.trace) + Prologue(p, ts) + Loop(p, StepEnvs(p, m), |p.vgs|)
      ensures halt != Completed ==> k < |p.vgs| && forall j: nat :: j < k ==> !RsRaises(p, m, j)
      ensures halt == Stopped ==>
        base.quitRequested && base.trace == old(base.trace) + Prologue(p, ts) + Loop(p, StepEnvs(p, m), k) + [Poll]
      ensures halt.Failed? ==>
        halt.error == FLOAT_DIVISION_BY_ZERO && RsRaises(p, m, k) &&
        base.trace == old(base.trace) + Prologue(p, ts) + Loop(p, StepEnvs(p, m), k) + [Poll, Set(VG, p.vgs[k])]
      ensures !old(base.quitRequested) && (forall n: nat :: !press(n)) ==> halt != Stopped
      ensures (forall j: nat :: j < |p.vgs| ==> !RsRaises(p, m, j)) ==> !halt.Failed?
    {
      base.Record(MakeDir(SpectraFolder(p, ts)));
      base.Record(Set(VDS, p.vds));
      assert base.trace == old(base.trace) + Prologue(p, ts);
      StepEnvsSteps(p, m);
      halt, k := Sweep(p, m, StepEnvs(p, m), press);
    }

    /**
     * `measure` (vna1gate.py:29-106): instrument and VNA set-up, the data file,
     * the spectra folder, Vds, then the Vg loop. `press(k)` says whether the
     * operator pressed stop before the quit check of step k.
     */
    method Measure(p: Params, m: Meters, press: nat -> bool, setup: Setup, ts: string)
      returns (outcome: Outcome, ghost k: nat)
      requires Valid()
      modifies this`present, base`trace, base`dataFile, base`openedAt, base`quitRequested
      ensures Valid()
      ensures present == Assigned(Constructions, setup)
      ensures setup.Breaks? ==>
        outcome == Failed(setup.error) && base.trace == old(base.trace) &&
        base.dataFile == old(base.dataFile) && base.openedAt == old(base.openedAt)
      ensures setup.Ready? && old(base.dataFile).Some? ==>
        outcome == Failed(NOT_CLOSED) &&
        base.trace == old(base.trace) && base.dataFile == old(base.dataFile) && base.openedAt == old(base.openedAt)
      ensures setup.Ready? && old(base.dataFile).None? ==>
        && base.dataFile == Some(DataPath(p, ts))
        && base.openedAt == |old(base.trace)|
        && (outcome == Completed ==>
              base.trace == old(base.trace) + Prologue(p, ts) + Loop(p, StepEnvs(p, m), |p.vgs|))
        && (outcome == Stopped ==>
              k < |p.vgs| && base.quitRequested &&
              base.trace == old(base.trace) + Prologue(p, ts) + Loop(p, StepEnvs(p, m), k) + [Poll])
        && (outcome.Failed? ==>
              k < |p.vgs| && outcome.error == FLOAT_DIVISION_BY_ZERO && RsRaises(p, m, k) &&
              base.trace == old(base.trace) + Prologue(p, ts) + Loop(p, StepEnvs(p, m), k) + [Poll, Set(VG, p.vgs[k])])
        && ((!old(base.quitRequested) && (forall n: nat :: !press(n)) &&
             (forall j: nat :: j < |p.vgs| ==> !RsRaises(p, m, j))) ==> outcome == Completed)
    {
      present := Assigned(Constructions, setup);
      k := 0;
      if setup.Breaks? {
        return Failed(setup.error), k;
      }
      var raised := base.PrepareSaving(DataPath(p, ts));
      if raised.Some? {
        return Failed(raised.value), k;
      }
      outcome, k := Acquire(p, m, press, ts);
    }

    /** `tidy_up` (vna1gate.py:108-114): close the data file, then Vg and Vds to 0. */
    method TidyUp() returns (raised: Option<string>)
      requires Valid()
      modifies base`trace, base`dataFile, base`files
      ensures Valid() && base.dataFile == None && base.files == old(base.Disk())
      ensures var n := Covered(ZeroOrder, present);
        base.trace == old(base.trace) + [Teardown] +
                      (if old(base.dataFile).Some? then [Closed(old(base.dataFile).value)] else []) +
                      ZeroSets(ZeroOrder[..n]) &&
        raised == (if n == |ZeroOrder| then None else Some(NoAttribute(ZeroOrder[n])))
    {
      base.Record(Teardown);
      RowsSinceOther(old(base.trace), base.openedAt, Teardown);
      base.EndSaving();
      raised := base.ZeroSources(ZeroOrder, present);
    }
  }
}
