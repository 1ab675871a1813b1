// modules/breakdown2400_ZVA67.py: the capacitor measurement on a Keithley 2400
// with a Rohde & Schwarz ZVA 67 network analyser. The run's folder holds both
// the data file and the spectra; the analyser must use one power on every
// segment and fixed, equal attenuators.
module Breakdown {
  import opened Common
  import opened Mascril
  import MesureCapacitor

  /** The parameters, observables, alarms and points are those of the capacitor measurement. */
  type Params = MesureCapacitor.Params
  type Meters = MesureCapacitor.Meters

  const Observables := MesureCapacitor.Observables
  const VG := MesureCapacitor.VG
  const SourceVg := MesureCapacitor.SourceVg

  /** The instrument objects in the order `measure` creates them; `self.vna` only with the VNA in use. */
  function Constructions(useVna: bool): seq<Attr>
  {
    [SourceVg] + (if useVna then [Attr(1, "vna")] else [])
  }

  const ZeroOrder: seq<Attr> := [SourceVg]

  // ------------------------------------------------------ the VNA set-up

  /**
   * What the ZVA answers during set-up: its sweep type, each segment's power,
   * the automatic-attenuator flag of each port and the two attenuations.
   */
  datatype VnaState = VnaState(sweepType: string, powers: seq<real>, autoAtt1: int, autoAtt2: int, att1: real, att2: real)

  const SEGMENTED_ONLY := MesureCapacitor.SEGMENTED_ONLY
  const SAME_POWER_ONLY := MesureCapacitor.SAME_POWER_ONLY
  const SAME_ATTENUATORS_ONLY := MesureCapacitor.SAME_ATTENUATORS_ONLY
  const NONE_MINUS_FLOAT := MesureCapacitor.NONE_MINUS_FLOAT
  const NO_AUTO_ATTENUATORS := "Please do not use automatic attenuators"

  /** Every segment has the first segment's power. */
  predicate Uniform(powers: seq<real>)
  {
    forall i :: 0 <= i < |powers| ==> powers[i] == powers[0]
  }

  /**
   * The segment loop (breakdown2400_ZVA67.py:68-77): the first segment fixes
   * `vna_pow`, every later one must repeat it. None when there is no segment.
   */
  method CheckSegments(powers: seq<real>) returns (r: Result<Option<real>>)
    ensures r.Ok? <==> Uniform(powers)
    ensures r.Ok? ==> r.value == (if |powers| == 0 then None else Some(powers[0]))
    ensures r.Err? ==> r.error == SAME_POWER_ONLY
  {
    var vnaPow: Option<real> := None;
    var i := 0;
    while i < |powers|
      invariant 0 <= i <= |powers|
      invariant vnaPow == (if i == 0 then None else Some(powers[0]))
      invariant forall j :: 0 <= j < i ==> powers[j] == powers[0]
    {
      var segPow := powers[i];
      if vnaPow.None? {
        vnaPow := Some(segPow);
      } else if segPow == vnaPow.value {
      } else {
        return Err(SAME_POWER_ONLY);
      }
      i := i + 1;
    }
    r := Ok(vnaPow);
  }

  /**
   * The power the run reports, or the exception of the set-up: the sweep
   * type, the segments, the automatic attenuators, then the attenuations.
   */
  function PowerCheck(v: VnaState): (r: Result<real>)
    ensures r.Ok? <==>
      v.sweepType == "SEGM" && Uniform(v.powers) && v.autoAtt1 == 0 && v.autoAtt2 == 0 &&
      v.att1 == v.att2 && |v.powers| > 0
    ensures r.Ok? ==> forall i :: 0 <= i < |v.powers| ==> v.powers[i] - v.att1 == r.value && v.powers[i] - v.att2 == r.value
    ensures r.Err? ==>
      r.error in {SEGMENTED_ONLY, SAME_POWER_ONLY, NO_AUTO_ATTENUATORS, SAME_ATTENUATORS_ONLY, NONE_MINUS_FLOAT}
  {
    if v.sweepType != "SEGM" then Err(SEGMENTED_ONLY)
    else if !Uniform(v.powers) then Err(SAME_POWER_ONLY)
    else if v.autoAtt1 != 0 || v.autoAtt2 != 0 then Err(NO_AUTO_ATTENUATORS)
    else if v.att1 != v.att2 then Err(SAME_ATTENUATORS_ONLY)
    else if |v.powers| == 0 then Err(NONE_MINUS_FLOAT)
    else Ok(v.powers[0] - v.att1)
  }

  /** The VNA checks of `measure` (breakdown2400_ZVA67.py:64-89), in the source's order. */
  method VnaPower(v: VnaState) returns (r: Result<real>)
    ensures r == PowerCheck(v)
  {
    if v.sweepType != "SEGM" {
      return Err(SEGMENTED_ONLY);
    }
    var pow := CheckSegments(v.powers);
    if pow.Err? {
      return Err(pow.error);
    }
    if v.autoAtt1 != 0 || v.autoAtt2 != 0 {
      return Err(NO_AUTO_ATTENUATORS);
    }
    if v.att1 == v.att2 {
      if pow.value.None? {
        return Err(NONE_MINUS_FLOAT);
      }
      r := Ok(pow.value.value - v.att1);
    } else {
      r := Err(SAME_ATTENUATORS_ONLY);
    }
  }

  // ------------------------------------------------------------ names

  function PowerTag(useVna: bool, v: VnaState, fmt: real -> string): string
  {
    if useVna && PowerCheck(v).Ok? then "_pwr=" + fmt(PowerCheck(v).value) else ""
  }

  /** The run's name: timestamp, the power tag with the VNA in use, then `_comment` for a non-empty comment. */
  function RunTitle(p: Params, v: VnaState, fmt: real -> string, ts: string): string
  {
    MesureCapacitor.RunName(ts, PowerTag(p.useVna, v, fmt), p.comment)
  }

  /** The run's folder, under the data directory. */
  function Folder(p: Params, v: VnaState, fmt: real -> string, ts: string): string
  {
    PathJoin(p.dataDir, RunTitle(p, v, fmt, ts))
  }

  /** The data file sits inside the run's folder, named after the run. */
  function DataPath(p: Params, v: VnaState, fmt: real -> string, ts: string): string
  {
    PathJoin(Folder(p, v, fmt, ts), RunTitle(p, v, fmt, ts) + ".txt")
  }

  // ------------------------------------------------------------- the plan

  /** What `measure` does once the data file is open, before the Vg loop: with the VNA, the configuration dump. */
  function Prologue(useVna: bool, folder: string): seq<Event>
  {
    if useVna then [Wrote(PathJoin(folder, "VNAconfig"))] else []
  }

  function Loop(p: Params, m: Meters, n: nat): seq<Event>
  {
    MesureCapacitor.Loop(p, MesureCapacitor.StepEnvs(p, m), n)
  }

  /**
   * Without a quit request the data file, inside the run's folder, holds its
   * earlier lines, the header and one row per Vg value, in order; Vg takes
   * the values in list order, and with the VNA each row is followed by one
   * spectrum tagged with its Vg.
   */
  lemma PlanFile(files: map<string, seq<Line>>, path: string, t0: seq<Event>, p: Params, m: Meters, folder: string)
    ensures var disk := DiskView(files, Some(path), Observables, t0 + Prologue(p.useVna, folder) + Loop(p, m, |p.vgs|), |t0|);
      && path in disk
      && disk[path] == FileAt(files, path) + [Header(Observables)] +
                       RowsOf(Observables, seq(|p.vgs|, (k: nat) => MesureCapacitor.StepEnvs(p, m)(k)))
    ensures SetValues(Prologue(p.useVna, folder) + Loop(p, m, |p.vgs|), VG) == p.vgs
  {
    PlanFileRows(files, path, t0, p, m, folder);
    PlanVoltages(p, m, folder);
  }

  lemma PlanFileRows(files: map<string, seq<Line>>, path: string, t0: seq<Event>, p: Params, m: Meters, folder: string)
    ensures var disk := DiskView(files, Some(path), Observables, t0 + Prologue(p.useVna, folder) + Loop(p, m, |p.vgs|), |t0|);
      && path in disk
      && disk[path] == FileAt(files, path) + [Header(Observables)] +
                       RowsOf(Observables, seq(|p.vgs|, (k: nat) => MesureCapacitor.StepEnvs(p, m)(k)))
  {
    var envs := MesureCapacitor.StepEnvs(p, m);
    var loop := Loop(p, m, |p.vgs|);
    if p.useVna {
      PickOne(Wrote(PathJoin(folder, "VNAconfig")), SavedOf);
    }
    DiskAfterQuiet(files, path, Observables, t0, Prologue(p.useVna, folder), loop);
    MesureCapacitor.PlanRows(p, envs);
    assert SavedEnvs(loop) == seq(|p.vgs|, (k: nat) => envs(k));
  }

  lemma PlanVoltages(p: Params, m: Meters, folder: string)
    ensures SetValues(Prologue(p.useVna, folder) + Loop(p, m, |p.vgs|), VG) == p.vgs
  {
    if p.useVna {
      PickOne(Wrote(PathJoin(folder, "VNAconfig")), SetOf(VG));
    }
    PickAppend(Prologue(p.useVna, folder), Loop(p, m, |p.vgs|), SetOf(VG));
    MesureCapacitor.PlanRows(p, MesureCapacitor.StepEnvs(p, m));
  }

  // ------------------------------------------------------------ the script

  class Measurement {
    const base: MeasurementBase
    /** The instrument attributes `measure` has assigned. */
    var present: set<Attr>

    ghost predicate Valid()
      reads this, base
    {
      base.Valid() && NoQuitRule(base.alarms)
    }

    constructor (disk: map<string, seq<Line>>)
      ensures Valid() && fresh(base) && base.observables == Observables
      ensures base.alarms == MesureCapacitor.DeclaredAlarms()
      ensures base.files == disk && base.dataFile == None && !base.quitRequested && base.trace == []
      ensures present == {}
    {
      base := new MeasurementBase(Observables, MesureCapacitor.DeclaredAlarms(), disk);
      present := {};
    }

    /** A point of the Vg loop once the quit check has passed (breakdown2400_ZVA67.py:134-153). */
    method MeasurePoint(p: Params, m: Meters, ghost envs: MesureCapacitor.Steps, k: nat)
      requires Valid() && MesureCapacitor.StepsOf(envs, p, m) && k < |p.vgs| && base.dataFile.Some?
      modifies base`trace, base`quitRequested
      ensures Valid()
      ensures base.quitRequested == old(base.quitRequested)
      ensures base.trace == old(base.trace) + MesureCapacitor.Point(p, envs, k)
    {
      base.Record(Set(VG, p.vgs[k]));
      var env := MesureCapacitor.StepEnv(p, m, k);
      assert env == envs(k);
      var _ := base.SaveRow(env);
      NoQuitRuleNoQuit(base.alarms, env);
      ghost var row := old(base.trace) + [Set(VG, p.vgs[k]), Saved(env), Alarms(env)];
      assert base.trace == row;
      if p.useVna {
        base.Record(Spectrum([p.vgs[k]]));
      }
      assert base.trace == row + MesureCapacitor.SpectrumAt(p, k);
    }

    /** One pass of the Vg loop body (breakdown2400_ZVA67.py:130-153); true when it stopped at the quit check. */
    method Step(p: Params, m: Meters, ghost envs: MesureCapacitor.Steps, press: bool, k: nat) returns (stop: bool)
      requires Valid() && MesureCapacitor.StepsOf(envs, p, m) && k < |p.vgs| && base.dataFile.Some?
      modifies base`trace, base`quitRequested
      ensures Valid()
      ensures base.quitRequested == (old(base.quitRequested) || press)
      ensures stop == base.quitRequested
      ensures stop ==> base.trace == old(base.trace) + [Poll]
      ensures !stop ==> base.trace == old(base.trace) + MesureCapacitor.Pass(p, envs, k)
    {
      stop := base.PollQuit(press);
      if stop {
        return;
      }
      MeasurePoint(p, m, envs, k);
      AppendAssoc(old(base.trace), [Poll], MesureCapacitor.Point(p, envs, k));
    }

    /** The Vg loop (breakdown2400_ZVA67.py:130-153); `k` is the step it stopped at. */
    method Sweep(p: Params, m: Meters, ghost envs: MesureCapacitor.Steps, press: nat -> bool)
      returns (stopped: bool, ghost k: nat)
      requires Valid() && MesureCapacitor.StepsOf(envs, p, m) && base.dataFile.Some?
      modifies base`trace, base`quitRequested
      ensures Valid()
      ensures !stopped ==>
        (base.quitRequested ==> old(base.quitRequested)) &&
        base.trace == old(base.trace) + MesureCapacitor.Loop(p, envs, |p.vgs|)
      ensures stopped ==>
        k < |p.vgs| && base.quitRequested && base.trace == old(base.trace) + MesureCapacitor.Loop(p, envs, k) + [Poll]
      ensures !old(base.quitRequested) && (forall n: nat :: !press(n)) ==> !stopped
    {
      ghost var t0 := base.trace;
      var n := 0;
      k := 0;
      stopped := false;
      while n < |p.vgs|
        invariant n <= |p.vgs| && k == n && !stopped
        invariant Valid()
        invariant base.trace == t0 + MesureCapacitor.Loop(p, envs, n)
        invariant base.quitRequested ==> old(base.quitRequested)
      {
        stopped := Step(p, m, envs, press(n), n);
        if stopped {
          return;
        }
        n := n + 1;
        k := n;
      }
    }

    /** What `measure` does once the data file is open (breakdown2400_ZVA67.py:108-153). */
    method Acquire(p: Params, m: Meters, press: nat -> bool, folder: string) returns (outcome: Outcome, ghost k: nat)
      requires Valid() && base.dataFile.Some?
      modifies base`trace, base`quitRequested
      ensures Valid() && !outcome.Failed?
      ensures outcome == Completed ==> base.trace == old(base.trace) + Prologue(p.useVna, folder) + Loop(p, m, |p.vgs|)
      ensures outcome == Stopped ==>
        k < |p.vgs| && base.quitRequested &&
        base.trace == old(base.trace) + Prologue(p.useVna, folder) + Loop(p, m, k) + [Poll]
      ensures !old(base.quitRequested) && (forall n: nat :: !press(n)) ==> outcome == Completed
    {
      if p.useVna {
        base.Record(Wrote(PathJoin(folder, "VNAconfig")));
      }
      assert base.trace == old(base.trace) + Prologue(p.useVna, folder);
      MesureCapacitor.StepEnvsSteps(p, m);
      var stopped;
      stopped, k := Sweep(p, m, MesureCapacitor.StepEnvs(p, m), press);
      outcome := if stopped then Stopped else Completed;
    }

    /**
     * From the run's folder on (breakdown2400_ZVA67.py:101-153): the folder is
     * created, the data file is opened inside it and the rest of the
     * acquisition runs.
     */
    method Start(p: Params, m: Meters, press: nat -> bool, folder: string, path: string) returns (outcome: Outcome, ghost k: nat)
      requires Valid()
      modifies base`trace, base`dataFile, base`openedAt, base`quitRequested
      ensures Valid()
      ensures old(base.dataFile).Some? ==>
        outcome == Failed(NOT_CLOSED) &&
        base.trace == old(base.trace) + [MakeDir(folder)] &&
        base.dataFile == old(base.dataFile) && base.openedAt == old(base.openedAt)
      ensures old(base.dataFile).None? ==>
        && base.dataFile == Some(path)
        && base.openedAt == |old(base.trace)| + 1
        && !outcome.Failed?
        && (outcome == Completed ==>
              base.trace == old(base.trace) + [MakeDir(folder)] + Prologue(p.useVna, folder) + Loop(p, m, |p.vgs|))
        && (outcome == Stopped ==>
              k < |p.vgs| && base.quitRequested &&
              base.trace == old(base.trace) + [MakeDir(folder)] + Prologue(p.useVna, folder) + Loop(p, m, k) + [Poll])
        && ((!old(base.quitRequested) && forall n: nat :: !press(n)) ==> outcome == Completed)
    {
      k := 0;
      base.Record(MakeDir(folder));
      var raised := base.PrepareSaving(path);
      if raised.Some? {
        return Failed(raised.value), k;
      }
      outcome, k := Acquire(p, m, press, folder);
    }

    /**
     * `measure` (breakdown2400_ZVA67.py:34-158): the Keithley, the VNA and its
     * checks when in use, the run's folder, the data file inside it, then the
     * Vg loop. `vna` is what the ZVA answers, `fmt` the `{:.0f}` formatting,
     * `press(k)` whether stop was pressed before the quit check of step k.
     */
    method Measure(p: Params, m: Meters, vna: VnaState, fmt: real -> string, press: nat -> bool, setup: Setup, ts: string)
      returns (outcome: Outcome, ghost k: nat)
      requires Valid()
      modifies this`present, base`trace, base`dataFile, base`openedAt, base`quitRequested
      ensures Valid()
      ensures present == Assigned(Constructions(p.useVna), setup)
      ensures setup.Breaks? ==>
        outcome == Failed(setup.error) && base.trace == old(base.trace) &&
        base.dataFile == old(base.dataFile) && base.openedAt == old(base.openedAt)
      ensures setup.Ready? && p.useVna && PowerCheck(vna).Err? ==>
        outcome == Failed(PowerCheck(vna).error) && base.trace == old(base.trace) &&
        base.dataFile == old(base.dataFile) && base.openedAt == old(base.openedAt)
      ensures setup.Ready? && (p.useVna ==> PowerCheck(vna).Ok?) ==>
        var folder := Folder(p, vna, fmt, ts);
        && (old(base.dataFile).Some? ==>
              outcome == Failed(NOT_CLOSED) &&
              base.trace == old(base.trace) + [MakeDir(folder)] &&
              base.dataFile == old(base.dataFile) && base.openedAt == old(base.openedAt))
        && (old(base.dataFile).None? ==>
              && base.dataFile == Some(DataPath(p, vna, fmt, ts))
              && base.openedAt == |old(base.trace)| + 1
              && !outcome.Failed?
              && (outcome == Completed ==>
                    base.trace == old(base.trace) + [MakeDir(folder)] + Prologue(p.useVna, folder) + Loop(p, m, |p.vgs|))
              && (outcome == Stopped ==>
                    k < |p.vgs| && base.quitRequested &&
                    base.trace == old(base.trace) + [MakeDir(folder)] + Prologue(p.useVna, folder) + Loop(p, m, k) + [Poll])
              && ((!old(base.quitRequested) && forall n: nat :: !press(n)) ==> outcome == Completed))
    {
      present := Assigned(Constructions(p.useVna), setup);
      k := 0;
      if setup.Breaks? {
        return Failed(setup.error), k;
      }
      var tag := "";
      if p.useVna {
        var pow := VnaPower(vna);
        if pow.Err? {
          return Failed(pow.error), k;
        }
        tag := "_pwr=" + fmt(pow.value);
      }
      var name := MesureCapacitor.RunName(ts, tag, p.comment);
      assert name == RunTitle(p, vna, fmt, ts);
      var folder := PathJoin(p.dataDir, name);
      outcome, k := Start(p, m, press, folder, PathJoin(folder, name + ".txt"));
    }

    /** `tidy_up` (breakdown2400_ZVA67.py:160-165): close the data file, then Vg to 0. */
    method TidyUp() returns (raised: Option<string>)
      requires Valid()
      modifies base`trace, base`dataFile, base`files
      ensures Valid() && base.dataFile == None && base.files == old(base.Disk())
      ensures var n := Covered(ZeroOrder, present);
        base.trace == old(base.trace) + [Teardown] +
                      (if old(base.dataFile).Some? then [Closed(old(base.dataFile).value)] else []) +
                      ZeroSets(ZeroOrder[..n]) &&
        raised == (if n == |ZeroOrder| then None else Some(NoAttribute(ZeroOrder[n])))
    {
      base.Record(Teardown);
      RowsSinceOther(old(base.trace), base.openedAt, Teardown);
      base.EndSaving();
      raised := base.ZeroSources(ZeroOrder, present);
    }
  }
}
