// modules/cascade2600_panhui.py: one gate voltage swept on channel B of a
// Keithley 2600 at a fixed drain voltage on channel A; both channels are read
// back at every step, one data row per step.
module Cascade {
  import opened Common
  import opened Mascril

  const Observables: seq<string> := ["Vg", "Vgm", "Ileak", "Vds", "Vdsm", "Ids", "Rds"]

  /** The sources, by their rank among the instrument objects. */
  const VG: nat := 0
  const VDS: nat := 1

  const SourceVg := Attr(VG, "sourceVg")
  const SourceVds := Attr(VDS, "sourceVds")

  /** The instrument objects in the order `measure` creates them. */
  const Constructions: seq<Attr> := [SourceVg, SourceVds]

  /** The sources `tidy_up` drives back to zero, in its order. */
  const ZeroOrder: seq<Attr> := [SourceVds, SourceVg]

  /** How `measure` constructs a Keithley 2600 channel. */
  datatype SmuSetup = SmuSetup(channel: string, slope: real, initialise: bool, reset: bool)

  /** The gate on channel B at the chosen slope, the drain on channel A at 5 mV/ms, never reset. */
  function SmuSetups(vgSpeed: real, init: bool): seq<SmuSetup>
  {
    [SmuSetup("B", vgSpeed, init, true), SmuSetup("A", 0.005, init, false)]
  }

  /** One leak-current alert. */
  function DeclaredAlarms(): seq<Alarm>
  {
    [ Alarm("np.abs(Ileak) > 1e-8", Bin(Gt, AbsOf(Name("Ileak")), Lit(Num(0.00000001))), ALARM_CALLCOPS) ]
  }

  datatype Params = Params(dataDir: string, comment: string, vds: real, vgs: seq<real>, vgSpeed: real, init: bool)

  /** What the two channels read back at step k. */
  datatype Meters = Meters(vgm: nat -> real, ileak: nat -> real, vdsm: nat -> real, ids: nat -> real)

  /** The data file's name: the underscore is there even for an empty comment. */
  function DataName(timestamp: string, comment: string): string
  {
    timestamp + "_" + comment + ".txt"
  }

  function DataPath(p: Params, ts: string): string
  {
    PathJoin(p.dataDir, DataName(ts, p.comment))
  }

  // ------------------------------------------------------------- a step

  /**
   * Whether step k raises computing Rds: Vds is a Python float and so is the
   * current read back, so a zero current raises instead of giving inf.
   */
  predicate RdsRaises(m: Meters, k: nat)
  {
    m.ids(k) == 0.0
  }

  /** Step k reaches `save_row`. */
  predicate Saves(p: Params, m: Meters, k: nat)
  {
    k < |p.vgs| && !RdsRaises(m, k)
  }

  /** The observables' values at step k: Rds from the set Vds, not the reading. */
  function StepValues(p: Params, m: Meters, k: nat): seq<Value>
    requires Saves(p, m, k)
  {
    [ Num(p.vgs[k]), Num(m.vgm(k)), Num(m.ileak(k)), Num(p.vds), Num(m.vdsm(k)), Num(m.ids(k)),
      Num(p.vds / m.ids(k)) ]
  }

  /** The bindings `save_row(locals())` reads at step k. */
  function StepEnv(p: Params, m: Meters, k: nat): Env
    requires Saves(p, m, k)
  {
    Bind(Observables, StepValues(p, m, k))
  }

  /**
   * A step records the gate voltage it set, the fixed drain voltage, the four
   * read-backs, and Rds = Vds/Ids computed from the SET drain voltage.
   */
  lemma StepRecords(p: Params, m: Meters, k: nat)
    requires Saves(p, m, k)
    ensures var env := StepEnv(p, m, k);
      && "Vg" in env && env["Vg"] == Num(p.vgs[k]) && "Vgm" in env && env["Vgm"] == Num(m.vgm(k))
      && "Ileak" in env && env["Ileak"] == Num(m.ileak(k))
      && "Vds" in env && env["Vds"] == Num(p.vds) && "Vdsm" in env && env["Vdsm"] == Num(m.vdsm(k))
      && "Ids" in env && env["Ids"] == Num(m.ids(k))
      && "Rds" in env && env["Rds"] == Num(p.vds / m.ids(k))
  {
    var values := StepValues(p, m, k);
    assert Distinct(Observables);
    BindLookup(Observables, values, 0);
    BindLookup(Observables, values, 1);
    BindLookup(Observables, values, 2);
    BindLookup(Observables, values, 3);
    BindLookup(Observables, values, 4);
    BindLookup(Observables, values, 5);
    BindLookup(Observables, values, 6);
  }

  // ------------------------------------------------------------- the plan

  type Steps = nat -> Env

  function StepEnvs(p: Params, m: Meters): Steps
  {
    (k: nat) => if Saves(p, m, k) then StepEnv(p, m, k) else map[]
  }

  /** `envs` gives the bindings of every step; the quantifier fires only where a step's bindings are computed. */
  ghost predicate StepsOf(envs: Steps, p: Params, m: Meters)
  {
    forall k: nat {:trigger StepEnv(p, m, k)} :: Saves(p, m, k) ==> envs(k) == StepEnv(p, m, k)
  }

  lemma StepEnvsSteps(p: Params, m: Meters)
    ensures StepsOf(StepEnvs(p, m), p, m)
  {
  }

  /** A measured point: Vg, then the row and its alarms. */
  function Point(p: Params, envs: Steps, k: nat): seq<Event>
    requires k < |p.vgs|
  {
    [Set(VG, p.vgs[k]), Saved(envs(k)), Alarms(envs(k))]
  }

  /** One iteration: the quit check, then the point. */
  function Pass(p: Params, envs: Steps, k: nat): seq<Event>
  {
    if k < |p.vgs| then [Poll] + Point(p, envs, k) else []
  }

  /** The Vg loop's first n iterations. */
  function Loop(p: Params, envs: Steps, n: nat): seq<Event>
  {
    Concat(n, (k: nat) => Pass(p, envs, k))
  }

  lemma PassPicks(p: Params, envs: Steps, k: nat, src: nat)
    requires k < |p.vgs|
    ensures SetValues(Pass(p, envs, k), src) == if src == VG then [p.vgs[k]] else []
    ensures SavedEnvs(Pass(p, envs, k)) == [envs(k)]
  {
    var a := [Poll, Set(VG, p.vgs[k])];
    var b := [Saved(envs(k)), Alarms(envs(k))];
    assert Pass(p, envs, k) == a + b;
    PickAppend(a, b, SetOf(src));
    PickAppend(a, b, SavedOf);
    PickTwo(Poll, Set(VG, p.vgs[k]), SetOf(src));
    PickTwo(Poll, Set(VG, p.vgs[k]), SavedOf);
    PickTwo(Saved(envs(k)), Alarms(envs(k)), SetOf(src));
    PickTwo(Saved(envs(k)), Alarms(envs(k)), SavedOf);
  }

  /**
   * Without a quit request or a failure: Vds is set once, before the loop,
   * and never again; Vg takes the values in list order; one row per Vg value.
   */
  lemma PlanSweeps(p: Params, envs: Steps)
    ensures SetValues([Set(VDS, p.vds)] + Loop(p, envs, |p.vgs|), VDS) == [p.vds]
    ensures SetValues(Loop(p, envs, |p.vgs|), VG) == p.vgs
    ensures SavedEnvs(Loop(p, envs, |p.vgs|)) == seq(|p.vgs|, (k: nat) => envs(k))
  {
    var n := |p.vgs|;
    var body := (k: nat) => Pass(p, envs, k);
    var rows := seq(n, (k: nat) => envs(k));
    forall k: nat | k < n
      ensures Pick(body(k), SetOf(VG)) == [p.vgs[k]]
      ensures Pick(body(k), SetOf(VDS)) == []
      ensures Pick(body(k), SavedOf) == [rows[k]]
    {
      PassPicks(p, envs, k, VG);
      PassPicks(p, envs, k, VDS);
    }
    PickConcatEach(n, body, SetOf(VG), p.vgs);
    PickConcatNone(n, body, SetOf(VDS));
    PickConcatEach(n, body, SavedOf, rows);
    PickAppend([Set(VDS, p.vds)], Loop(p, envs, n), SetOf(VDS));
    PickOne(Set(VDS, p.vds), SetOf(VDS));
  }

  // ------------------------------------------------------------ the script

  class Measurement {
    const base: MeasurementBase
    /** The instrument attributes `measure` has assigned. */
    var present: set<Attr>

    ghost predicate Valid()
      reads this, base
    {
      base.Valid() && NoQuitRule(base.alarms)
    }

    constructor (disk: map<string, seq<Line>>)
      ensures Valid() && fresh(base) && base.observables == Observables && base.alarms == DeclaredAlarms()
      ensures base.files == disk && base.dataFile == None && !base.quitRequested && base.trace == []
      ensures present == {}
    {
      base := new MeasurementBase(Observables, DeclaredAlarms(), disk);
      present := {};
    }

    /** A point of the Vg loop once the quit check has passed (cascade2600_panhui.py:55-83). */
    method MeasurePoint(p: Params, m: Meters, ghost envs: Steps, k: nat) returns (raised: Option<string>)
      requires Valid() && StepsOf(envs, p, m) && k < |p.vgs| && base.dataFile.Some?
      modifies base`trace, base`quitRequested
      ensures Valid()
      ensures base.quitRequested == old(base.quitRequested)
      ensures RdsRaises(m, k) ==> raised == Some(FLOAT_DIVISION_BY_ZERO) && base.trace == old(base.trace) + [Set(VG, p.vgs[k])]
      ensures !RdsRaises(m, k) ==> raised == None && base.trace == old(base.trace) + Point(p, envs, k)
    {
      base.Record(Set(VG, p.vgs[k]));
      if m.ids(k) == 0.0 {
        return Some(FLOAT_DIVISION_BY_ZERO);
      }
      var env := StepEnv(p, m, k);
      assert env == envs(k);
      var _ := base.SaveRow(env);
      NoQuitRuleNoQuit(base.alarms, env);
      raised := None;
    }

    /**
     * One pass of the Vg loop body (cascade2600_panhui.py:51-83): Stopped at
     * the quit check, Failed when computing Rds raises, Completed otherwise.
     */
    method Step(p: Params, m: Meters, ghost envs: Steps, press: bool, k: nat) returns (halt: Outcome)
      requires Valid() && StepsOf(envs, p, m) && k < |p.vgs| && base.dataFile.Some?
      modifies base`trace, base`quitRequested
      ensures Valid()
      ensures base.quitRequested == (old(base.quitRequested) || press)
      ensures halt == Stopped <==> base.quitRequested
      ensures halt == Stopped ==> base.trace == old(base.trace) + [Poll]
      ensures halt.Failed? <==> !base.quitRequested && RdsRaises(m, k)
      ensures halt.Failed? ==>
        halt.error == FLOAT_DIVISION_BY_ZERO && base.trace == old(base.trace) + [Poll, Set(VG, p.vgs[k])]
      ensures halt == Completed ==> base.trace == old(base.trace) + Pass(p, envs, k)
    {
      var quit := base.PollQuit(press);
      if quit {
        return Stopped;
      }
      var raised := MeasurePoint(p, m, envs, k);
      if raised.Some? {
        return Failed(raised.value);
      }
      AppendAssoc(old(base.trace), [Poll], Point(p, envs, k));
      halt := Completed;
    }

    /** The Vg loop (cascade2600_panhui.py:50-83); `k` is the step it ended at. */
    method Sweep(p: Params, m: Meters, ghost envs: Steps, press: nat -> bool) returns (halt: Outcome, ghost k: nat)
      requires Valid() && StepsOf(envs, p, m) && base.dataFile.Some?
      modifies base`trace, base`quitRequested
      ensures Valid()
      ensures halt == Completed ==>
        && (base.quitRequested ==> old(base.quitRequested))
        && (forall j: nat :: j < |p.vgs| ==> !RdsRaises(m, j))
        && base.trace == old(base.trace) + Loop(p, envs, |p.vgs|)
      ensures halt != Completed ==> k < |p.vgs| && forall j: nat :: j < k ==> !RdsRaises(m, j)
      ensures halt == Stopped ==> base.quitRequested && base.trace == old(base.trace) + Loop(p, envs, k) + [Poll]
      ensures halt.Failed? ==>
        halt.error == FLOAT_DIVISION_BY_ZERO && RdsRaises(m, k) &&
        base.trace == old(base.trace) + Loop(p, envs, k) + [Poll, Set(VG, p.vgs[k])]
      ensures !old(base.quitRequested) && (forall n: nat :: !press(n)) ==> halt != Stopped
    {
      ghost var t0 := base.trace;
      var n := 0;
      k := 0;
      while n < |p.vgs|
        invariant n <= |p.vgs| && k == n
        invariant Valid()
        invariant base.trace == t0 + Loop(p, envs, n)
        invariant base.quitRequested ==> old(base.quitRequested)
        invariant forall j: nat :: j < n ==> !RdsRaises(m, j)
      {
        halt := Step(p, m, envs, press(n), n);
        if halt != Completed {
          return;
        }
        n := n + 1;
        k := n;
      }
      halt := Completed;
    }

    /** What `measure` does once the data file is open (cascade2600_panhui.py:48-83). */
    method Acquire(p: Params, m: Meters, press: nat -> bool) returns (halt: Outcome, ghost k: nat)
      requires Valid() && base.dataFile.Some?
      modifies base`trace, base`quitRequested
      ensures Valid()
      ensures halt == Completed ==> base.trace == old(base.trace) + [Set(VDS, p.vds)] + Loop(p, StepEnvs(p, m), |p.vgs|)
      ensures halt != Completed ==> k < |p.vgs| && forall j: nat :: j < k ==> !RdsRaises(m, j)
      ensures halt == Stopped ==>
        base.quitRequested && base.trace == old(base.trace) + [Set(VDS, p.vds)] + Loop(p, StepEnvs(p, m), k) + [Poll]
      ensures halt.Failed? ==>
        halt.error == FLOAT_DIVISION_BY_ZERO && RdsRaises(m, k) &&
        base.trace == old(base.trace) + [Set(VDS, p.vds)] + Loop(p, StepEnvs(p, m), k) + [Poll, Set(VG, p.vgs[k])]
      ensures !old(base.quitRequested) && (forall n: nat :: !press(n)) ==> halt != Stopped
      ensures (forall j: nat :: j < |p.vgs| ==> !RdsRaises(m, j)) ==> !halt.Failed?
    {
      base.Record(Set(VDS, p.vds));
      StepEnvsSteps(p, m);
      halt, k := Sweep(p, m, StepEnvs(p, m), press);
    }

    /**
     * `measure` (cascade2600_panhui.py:26-88): the two channels, the data
     * file, Vds, then the Vg loop. `press(k)` says whether the operator
     * pressed stop before the quit check of step k.
     */
    method Measure(p: Params, m: Meters, press: nat -> bool, setup: Setup, ts: string)
      returns (outcome: Outcome, ghost k: nat)
      requires Valid()
      modifies this`present, base`trace, base`dataFile, base`openedAt, base`quitRequested
      ensures Valid()
      ensures present == Assigned(Constructions, setup)
      ensures setup.Breaks? ==>
        outcome == Failed(setup.error) && base.trace == old(base.trace) &&
        base.dataFile == old(base.dataFile) && base.openedAt == old(base.openedAt)
      ensures setup.Ready? && old(base.dataFile).Some? ==>
        outcome == Failed(NOT_CLOSED) &&
        base.trace == old(base.trace) && base.dataFile == old(base.dataFile) && base.openedAt == old(base.openedAt)
      ensures setup.Ready? && old(base.dataFile).None? ==>
        && base.dataFile == Some(DataPath(p, ts))
        && base.openedAt == |old(base.trace)|
        && (outcome == Completed ==>
              base.trace == old(base.trace) + [Set(VDS, p.vds)] + Loop(p, StepEnvs(p, m), |p.vgs|))
        && (outcome == Stopped ==>
              k < |p.vgs| && base.quitRequested &&
              base.trace == old(base.trace) + [Set(VDS, p.vds)] + Loop(p, StepEnvs(p, m), k) + [Poll])
        && (outcome.Failed? ==>
              k < |p.vgs| && outcome.error == FLOAT_DIVISION_BY_ZERO && RdsRaises(m, k) &&
              base.trace == old(base.trace) + [Set(VDS, p.vds)] + Loop(p, StepEnvs(p, m), k) + [Poll, Set(VG, p.vgs[k])])
        && ((!old(base.quitRequested) && (forall n: nat :: !press(n)) &&
             (forall j: nat :: j < |p.vgs| ==> !RdsRaises(m, j))) ==> outcome == Completed)
    {
      present := Assigned(Constructions, setup);
      k := 0;
      if setup.Breaks? {
        return Failed(setup.error), k;
      }
      var raised := base.PrepareSaving(DataPath(p, ts));
      if raised.Some? {
        return Failed(raised.value), k;
      }
      outcome, k := Acquire(p, m, press);
    }

    /** `tidy_up` (cascade2600_panhui.py:90-96): close the data file, then Vds and Vg to 0. */
    method TidyUp() returns (raised: Option<string>)
      requires Valid()
      modifies base`trace, base`dataFile, base`files
      ensures Valid() && base.dataFile == None && base.files == old(base.Disk())
      ensures var n := Covered(ZeroOrder, present);
        base.trace == old(base.trace) + [Teardown] +
                      (if old(base.dataFile).Some? then [Closed(old(base.dataFile).value)] else []) +
                      ZeroSets(ZeroOrder[..n]) &&
        raised == (if n == |ZeroOrder| then None else Some(NoAttribute(ZeroOrder[n])))
    {
      base.Record(Teardown);
      RowsSinceOther(old(base.trace), base.openedAt, Teardown);
      base.EndSaving();
      raised := base.ZeroSources(ZeroOrder, present);
    }
  }
}
