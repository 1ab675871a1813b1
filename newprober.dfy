// modules/vna_capa_RohdeSchwarz_newprober.py: a gate voltage swept on a Bilt
// source and read back on a Bilt voltmeter, the chuck voltage recorded from a
// Yokogawa, one Rohde & Schwarz spectrum per step. The analyser must be
// corrected, segmented, at one power and with fixed, equal attenuators.
module NewProber {
  import opened Common
  import opened Mascril
  import MesureCapacitor

  const Observables: seq<string> := ["Vg", "Vgm", "Ileak"]

  /** The one source, by its rank among the instrument objects. */
  const VG: nat := 1

  const SourceVg := Attr(VG, "sourceVg")
  const Vna := Attr(4, "vna")

  /**
   * The instrument objects in the order `measure` creates them: the Bilt frame
   * (a local), its source and voltmeter, the Yokogawa (a local) when the chuck
   * voltage is recorded, the VNA when in use.
   */
  function Constructions(useChuck: bool, useVna: bool): seq<Attr>
  {
    [Attr(0, "bilt"), SourceVg, Attr(2, "meterVg")] +
    (if useChuck then [Attr(3, "yoko")] else []) + (if useVna then [Vna] else [])
  }

  const ZeroOrder: seq<Attr> := [SourceVg]

  /** The leak-current alert, as in the capacitor measurement. */
  function DeclaredAlarms(): seq<Alarm>
  {
    MesureCapacitor.DeclaredAlarms()
  }

  /** `init_bilt` only chooses how the Bilt source is set up, and is not part of the model. */
  datatype Params = Params(dataDir: string, comment: string, vgs: seq<real>, rg: real, useVna: bool, useChuck: bool)

  /** What the Bilt voltmeter reads at step k. */
  datatype Meters = Meters(vgm: nat -> real)

  // ------------------------------------------------------ the VNA set-up

  /**
   * What the analyser's channel 1 answers during set-up: whether correction is
   * on, the sweep type, the power column of its segment table, the
   * automatic-attenuator flag and the attenuation of each port.
   */
  datatype VnaState = VnaState(
    corrected: bool, sweepType: string, powers: seq<real>, autoAtt1: bool, autoAtt2: bool, att1: real, att2: real)

  const NOT_CORRECTED := "Please calibrate or switch on correction."
  const SEGMENTED_ONLY := MesureCapacitor.SEGMENTED_ONLY
  const SAME_POWER_ONLY := MesureCapacitor.SAME_POWER_ONLY
  const SAME_ATTENUATORS_ONLY := MesureCapacitor.SAME_ATTENUATORS_ONLY
  const NO_AUTO_ATTENUATORS := "Please do not use automatic attenuators"
  /** Taking column 5 of an empty segment table, which numpy sees as one-dimensional. */
  const EMPTY_TABLE := "IndexError: too many indices for array: array is 1-dimensional, but 2 were indexed"

  /** `np.unique` of the power column, as a set. */
  function UniquePowers(powers: seq<real>): set<real>
  {
    set x | x in powers
  }

  /** Every segment has the first segment's power. */
  predicate Uniform(powers: seq<real>)
  {
    forall i :: 0 <= i < |powers| ==> powers[i] == powers[0]
  }

  /** A non-empty table has more than one distinct power exactly when some segment differs from the first. */
  lemma UniquePowersCount(powers: seq<real>)
    requires |powers| > 0
    ensures |UniquePowers(powers)| > 1 <==> !Uniform(powers)
    ensures Uniform(powers) ==> UniquePowers(powers) == {powers[0]}
  {
    var u := UniquePowers(powers);
    if Uniform(powers) {
      assert u == {powers[0]};
    } else {
      var i :| 0 <= i < |powers| && powers[i] != powers[0];
      assert {powers[0], powers[i]} <= u;
      assert |{powers[0], powers[i]}| == 2;
      SubsetCard({powers[0], powers[i]}, u);
    }
  }

  lemma SubsetCard<T>(a: set<T>, b: set<T>)
    requires a <= b
    ensures |a| <= |b|
  {
    assert b == a + (b - a);
  }

  /**
   * The power the run reports, or the exception of the set-up: correction,
   * the sweep type, the segment powers, the automatic attenuators, then the
   * attenuations.
   */
  function PowerCheck(v: VnaState): (r: Result<real>)
    ensures r.Ok? <==>
      v.corrected && v.sweepType == "SEGM" && |v.powers| > 0 && Uniform(v.powers) &&
      !v.autoAtt1 && !v.autoAtt2 && v.att1 == v.att2
    ensures r.Ok? ==> forall i :: 0 <= i < |v.powers| ==> v.powers[i] - v.att1 == r.value && v.powers[i] - v.att2 == r.value
    ensures r.Err? ==>
      r.error in {NOT_CORRECTED, SEGMENTED_ONLY, EMPTY_TABLE, SAME_POWER_ONLY, NO_AUTO_ATTENUATORS, SAME_ATTENUATORS_ONLY}
  {
    if !v.corrected then Err(NOT_CORRECTED)
    else if v.sweepType != "SEGM" then Err(SEGMENTED_ONLY)
    else if |v.powers| == 0 then Err(EMPTY_TABLE)
    else
      UniquePowersCount(v.powers);
      if |UniquePowers(v.powers)| > 1 then Err(SAME_POWER_ONLY)
      else if v.autoAtt1 || v.autoAtt2 then Err(NO_AUTO_ATTENUATORS)
      else if v.att1 == v.att2 then Ok(v.powers[0] - v.att1)
      else Err(SAME_ATTENUATORS_ONLY)
  }

  // ------------------------------------------------------------ names

  /** The power tag with the VNA in use, then the chuck tag when the chuck voltage is recorded. */
  function Tags(p: Params, v: VnaState, fmt0: real -> string, chuck: real, fmt1: real -> string): string
  {
    (if p.useVna && PowerCheck(v).Ok? then "_pwr=" + fmt0(PowerCheck(v).value) else "") +
    (if p.useChuck then "_Vchuck=" + fmt1(chuck) else "")
  }

  /** The run's name: timestamp, the tags, then `_comment` for a non-empty comment. */
  function RunTitle(p: Params, v: VnaState, fmt0: real -> string, chuck: real, fmt1: real -> string, ts: string): string
  {
    MesureCapacitor.RunName(ts, Tags(p, v, fmt0, chuck, fmt1), p.comment)
  }

  lemma RunTitleParts(p: Params, v: VnaState, fmt0: real -> string, chuck: real, fmt1: real -> string, ts: string)
    requires p.useVna ==> PowerCheck(v).Ok?
    ensures var pwr := if p.useVna then "_pwr=" + fmt0(PowerCheck(v).value) else "";
      var vchuck := if p.useChuck then "_Vchuck=" + fmt1(chuck) else "";
      RunTitle(p, v, fmt0, chuck, fmt1, ts) == ts + pwr + vchuck + (if p.comment != "" then "_" + p.comment else "")
  {
  }

  // ------------------------------------------------------------- a step

  /**
   * The bindings of one gate step: Vg as set, the reading Vgm, and Ileak
   * through Rg, a numpy quotient since Vg comes from a numpy array. The
   * power-sweep script binds the same three names the same way.
   */
  function GateEnv(vg: real, vgm: real, rg: real): Env
  {
    Bind(Observables, [Num(vg), Num(vgm), LeakCurrent(vg, vgm, rg)])
  }

  /** The observables' values at step k. */
  function StepEnv(p: Params, m: Meters, k: nat): Env
    requires k < |p.vgs|
  {
    GateEnv(p.vgs[k], m.vgm(k), p.rg)
  }

  /** A step records the gate voltage it set, the reading and the leak current through Rg. */
  lemma StepRecords(vg: real, vgm: real, rg: real)
    ensures var env := GateEnv(vg, vgm, rg);
      && "Vg" in env && env["Vg"] == Num(vg) && "Vgm" in env && env["Vgm"] == Num(vgm)
      && "Ileak" in env && env["Ileak"] == LeakCurrent(vg, vgm, rg)
  {
    var values := [Num(vg), Num(vgm), LeakCurrent(vg, vgm, rg)];
    assert Distinct(Observables);
    BindLookup(Observables, values, 0);
    BindLookup(Observables, values, 1);
    BindLookup(Observables, values, 2);
  }

  // ------------------------------------------------------------- the plan

  type Steps = nat -> Env

  function StepEnvs(p: Params, m: Meters): Steps
  {
    (k: nat) => if k < |p.vgs| then StepEnv(p, m, k) else map[]
  }

  /** `envs` gives the bindings of every step; the quantifier fires only where a step's bindings are computed. */
  ghost predicate StepsOf(envs: Steps, p: Params, m: Meters)
  {
    forall k: nat {:trigger StepEnv(p, m, k)} :: k < |p.vgs| ==> envs(k) == StepEnv(p, m, k)
  }

  lemma StepEnvsSteps(p: Params, m: Meters)
    ensures StepsOf(StepEnvs(p, m), p, m)
  {
  }

  /** With the VNA: the spectrum tagged with Vg. */
  function SpectrumAt(p: Params, k: nat): seq<Event>
    requires k < |p.vgs|
  {
    if p.useVna then [Spectrum([p.vgs[k]])] else []
  }

  /** A measured point: Vg, the row and its alarms, then the spectrum with the VNA. */
  function Point(p: Params, envs: Steps, k: nat): seq<Event>
    requires k < |p.vgs|
  {
    [Set(VG, p.vgs[k]), Saved(envs(k)), Alarms(envs(k))] + SpectrumAt(p, k)
  }

  /** One iteration: the quit check, then the point. */
  function Pass(p: Params, envs: Steps, k: nat): seq<Event>
  {
    if k < |p.vgs| then [Poll] + Point(p, envs, k) else []
  }

  /** The Vg loop's first n iterations. */
  function Loop(p: Params, envs: Steps, n: nat): seq<Event>
  {
    Concat(n, (k: nat) => Pass(p, envs, k))
  }

  lemma PassPicks(p: Params, envs: Steps, k: nat)
    requires k < |p.vgs|
    ensures SetValues(Pass(p, envs, k), VG) == [p.vgs[k]]
    ensures SavedEnvs(Pass(p, envs, k)) == [envs(k)]
    ensures Pick(Pass(p, envs, k), SpectrumOf) == if p.useVna then [[p.vgs[k]]] else []
  {
    var a := [Poll, Set(VG, p.vgs[k])];
    var b := [Saved(envs(k)), Alarms(envs(k))];
    var c := SpectrumAt(p, k);
    assert Pass(p, envs, k) == a + b + c;
    PickThree(a, b, c, SetOf(VG));
    PickThree(a, b, c, SavedOf);
    PickThree(a, b, c, SpectrumOf);
    PickTwo(Poll, Set(VG, p.vgs[k]), SetOf(VG));
    PickTwo(Poll, Set(VG, p.vgs[k]), SavedOf);
    PickTwo(Poll, Set(VG, p.vgs[k]), SpectrumOf);
    PickTwo(Saved(envs(k)), Alarms(envs(k)), SetOf(VG));
    PickTwo(Saved(envs(k)), Alarms(envs(k)), SavedOf);
    PickTwo(Saved(envs(k)), Alarms(envs(k)), SpectrumOf);
    if p.useVna {
      PickOne(Spectrum([p.vgs[k]]), SetOf(VG));
      PickOne(Spectrum([p.vgs[k]]), SavedOf);
      PickOne(Spectrum([p.vgs[k]]), SpectrumOf);
    }
  }

  /** Without a quit request: Vg takes the values in list order, one row per value. */
  lemma PlanRows(p: Params, envs: Steps)
    ensures SetValues(Loop(p, envs, |p.vgs|), VG) == p.vgs
    ensures SavedEnvs(Loop(p, envs, |p.vgs|)) == seq(|p.vgs|, (k: nat) => envs(k))
  {
    var n := |p.vgs|;
    var body := (k: nat) => Pass(p, envs, k);
    var rows := seq(n, (k: nat) => envs(k));
    forall k: nat | k < n
      ensures Pick(body(k), SetOf(VG)) == [p.vgs[k]]
      ensures Pick(body(k), SavedOf) == [rows[k]]
    {
      PassPicks(p, envs, k);
    }
    PickConcatEach(n, body, SetOf(VG), p.vgs);
    PickConcatEach(n, body, SavedOf, rows);
  }

  /** Without a quit request and with the VNA, exactly one spectrum per row, tagged with its Vg; none without. */
  lemma PlanSpectra(p: Params, envs: Steps)
    ensures Pick(Loop(p, envs, |p.vgs|), SpectrumOf) ==
      if p.useVna then seq(|p.vgs|, k requires 0 <= k < |p.vgs| => [p.vgs[k]]) else []
  {
    var n := |p.vgs|;
    var body := (k: nat) => Pass(p, envs, k);
    var tags := seq(n, k requires 0 <= k < n => [p.vgs[k]]);
    forall k: nat | k < n
      ensures Pick(body(k), SpectrumOf) == if p.useVna then [tags[k]] else []
    {
      PassPicks(p, envs, k);
    }
    if p.useVna {
      PickConcatEach(n, body, SpectrumOf, tags);
    } else {
      PickConcatNone(n, body, SpectrumOf);
    }
  }

  /**
   * After a sweep without a quit request the data file holds its earlier
   * lines, the header and one row per Vg value, in order.
   */
  lemma PlanFile(files: map<string, seq<Line>>, path: string, t0: seq<Event>, p: Params, envs: Steps, folder: string)
    ensures var disk := DiskView(files, Some(path), Observables,
                                 t0 + MesureCapacitor.Prologue(p.useVna, folder) + Loop(p, envs, |p.vgs|), |t0|);
      && path in disk
      && disk[path] == FileAt(files, path) + [Header(Observables)] + RowsOf(Observables, seq(|p.vgs|, (k: nat) => envs(k)))
  {
    var prologue := MesureCapacitor.Prologue(p.useVna, folder);
    var loop := Loop(p, envs, |p.vgs|);
    MesureCapacitor.PrologueSavesNothing(p.useVna, folder);
    DiskAfterQuiet(files, path, Observables, t0, prologue, loop);
    PlanRows(p, envs);
    assert SavedEnvs(loop) == seq(|p.vgs|, (k: nat) => envs(k));
  }


  // ------------------------------------------------------------ the script

  class Measurement {
    const base: MeasurementBase
    /** The instrument attributes `measure` has assigned. */
    var present: set<Attr>

    ghost predicate Valid()
      reads this, base
    {
      base.Valid() && NoQuitRule(base.alarms)
    }

    constructor (disk: map<string, seq<Line>>)
      ensures Valid() && fresh(base) && base.observables == Observables && base.alarms == DeclaredAlarms()
      ensures base.files == disk && base.dataFile == None && !base.quitRequested && base.trace == []
      ensures present == {}
    {
      base := new MeasurementBase(Observables, DeclaredAlarms(), disk);
      present := {};
    }

    /** A point of the Vg loop once the quit check has passed (vna_capa_RohdeSchwarz_newprober.py:121-152). */
    method MeasurePoint(p: Params, m: Meters, ghost envs: Steps, k: nat)
      requires Valid() && StepsOf(envs, p, m) && k < |p.vgs| && base.dataFile.Some?
      modifies base`trace, base`quitRequested
      ensures Valid()
      ensures base.quitRequested == old(base.quitRequested)
      ensures base.trace == old(base.trace) + Point(p, envs, k)
    {
      base.Record(Set(VG, p.vgs[k]));
      var env := StepEnv(p, m, k);
      assert env == envs(k);
      var _ := base.SaveRow(env);
      NoQuitRuleNoQuit(base.alarms, env);
      ghost var row := old(base.trace) + [Set(VG, p.vgs[k]), Saved(env), Alarms(env)];
      assert base.trace == row;
      if p.useVna {
        base.Record(Spectrum([p.vgs[k]]));
      }
      assert base.trace == row + SpectrumAt(p, k);
    }

    /** One pass of the Vg loop body (vna_capa_RohdeSchwarz_newprober.py:116-152); true when it stopped at the quit check. */
    method Step(p: Params, m: Meters, ghost envs: Steps, press: bool, k: nat) returns (stop: bool)
      requires Valid() && StepsOf(envs, p, m) && k < |p.vgs| && base.dataFile.Some?
      modifies base`trace, base`quitRequested
      ensures Valid()
      ensures base.quitRequested == (old(base.quitRequested) || press)
      ensures stop == base.quitRequested
      ensures stop ==> base.trace == old(base.trace) + [Poll]
      ensures !stop ==> base.trace == old(base.trace) + Pass(p, envs, k)
    {
      stop := base.PollQuit(press);
      if stop {
        return;
      }
      MeasurePoint(p, m, envs, k);
      AppendAssoc(old(base.trace), [Poll], Point(p, envs, k));
    }

    /** The Vg loop (vna_capa_RohdeSchwarz_newprober.py:116-152); `k` is the step it stopped at. */
    method Sweep(p: Params, m: Meters, ghost envs: Steps, press: nat -> bool) returns (stopped: bool, ghost k: nat)
      requires Valid() && StepsOf(envs, p, m) && base.dataFile.Some?
      modifies base`trace, base`quitRequested
      ensures Valid()
      ensures !stopped ==>
        (base.quitRequested ==> old(base.quitRequested)) && base.trace == old(base.trace) + Loop(p, envs, |p.vgs|)
      ensures stopped ==>
        k < |p.vgs| && base.quitRequested && base.trace == old(base.trace) + Loop(p, envs, k) + [Poll]
      ensures !old(base.quitRequested) && (forall n: nat :: !press(n)) ==> !stopped
    {
      ghost var t0 := base.trace;
      var n := 0;
      k := 0;
      stopped := false;
      while n < |p.vgs|
        invariant n <= |p.vgs| && k == n && !stopped
        invariant Valid()
        invariant base.trace == t0 + Loop(p, envs, n)
        invariant base.quitRequested ==> old(base.quitRequested)
      {
        stopped := Step(p, m, envs, press(n), n);
        if stopped {
          return;
        }
        n := n + 1;
        k := n;
      }
    }

    /** What `measure` does once the data file is open (vna_capa_RohdeSchwarz_newprober.py:109-152). */
    method Acquire(p: Params, m: Meters, press: nat -> bool, folder: string) returns (outcome: Outcome, ghost k: nat)
      requires Valid() && base.dataFile.Some?
      modifies base`trace, base`quitRequested
      ensures Valid() && !outcome.Failed?
      ensures outcome == Completed ==>
        base.trace == old(base.trace) + MesureCapacitor.Prologue(p.useVna, folder) + Loop(p, StepEnvs(p, m), |p.vgs|)
      ensures outcome == Stopped ==>
        k < |p.vgs| && base.quitRequested &&
        base.trace == old(base.trace) + MesureCapacitor.Prologue(p.useVna, folder) + Loop(p, StepEnvs(p, m), k) + [Poll]
      ensures !old(base.quitRequested) && (forall n: nat :: !press(n)) ==> outcome == Completed
    {
      if p.useVna {
        base.Record(MakeDir(folder));
        base.Record(Wrote(PathJoin(folder, "VNAconfig")));
      }
      assert base.trace == old(base.trace) + MesureCapacitor.Prologue(p.useVna, folder);
      StepEnvsSteps(p, m);
      var stopped;
      stopped, k := Sweep(p, m, StepEnvs(p, m), press);
      outcome := if stopped then Stopped else Completed;
    }

    /**
     * `measure` (vna_capa_RohdeSchwarz_newprober.py:44-156): the Bilt source
     * and meter, the Yokogawa's chuck voltage when recorded, the VNA and its
     * checks when in use, the data file, then the spectra folder and the Vg
     * loop. `vna` is what the analyser answers, `chuck` what the Yokogawa
     * reads, `fmt0` and `fmt1` the `{:.0f}` and `{:.1f}` formatting,
     * `press(k)` whether stop was pressed before the quit check of step k.
     */
    method Measure(
      p: Params, m: Meters, vna: VnaState, fmt0: real -> string, chuck: real, fmt1: real -> string,
      press: nat -> bool, setup: Setup, ts: string)
      returns (outcome: Outcome, ghost k: nat)
      requires Valid()
      modifies this`present, base`trace, base`dataFile, base`openedAt, base`quitRequested
      ensures Valid()
      ensures present == Assigned(Constructions(p.useChuck, p.useVna), setup)
      ensures setup.Breaks? ==>
        outcome == Failed(setup.error) && base.trace == old(base.trace) &&
        base.dataFile == old(base.dataFile) && base.openedAt == old(base.openedAt)
      ensures setup.Ready? && p.useVna && PowerCheck(vna).Err? ==>
        outcome == Failed(PowerCheck(vna).error) && base.trace == old(base.trace) &&
        base.dataFile == old(base.dataFile) && base.openedAt == old(base.openedAt)
      ensures setup.Ready? && (p.useVna ==> PowerCheck(vna).Ok?) && old(base.dataFile).Some? ==>
        outcome == Failed(NOT_CLOSED) &&
        base.trace == old(base.trace) && base.dataFile == old(base.dataFile) && base.openedAt == old(base.openedAt)
      ensures setup.Ready? && (p.useVna ==> PowerCheck(vna).Ok?) && old(base.dataFile).None? ==>
        var title := RunTitle(p, vna, fmt0, chuck, fmt1, ts);
        var prologue := MesureCapacitor.Prologue(p.useVna, PathJoin(p.dataDir, title));
        && base.dataFile == Some(PathJoin(p.dataDir, title + ".txt"))
        && base.openedAt == |old(base.trace)|
        && !outcome.Failed?
        && (outcome == Completed ==> base.trace == old(base.trace) + prologue + Loop(p, StepEnvs(p, m), |p.vgs|))
        && (outcome == Stopped ==>
              k < |p.vgs| && base.quitRequested &&
              base.trace == old(base.trace) + prologue + Loop(p, StepEnvs(p, m), k) + [Poll])
        && ((!old(base.quitRequested) && forall n: nat :: !press(n)) ==> outcome == Completed)
    {
      present := Assigned(Constructions(p.useChuck, p.useVna), setup);
      k := 0;
      if setup.Breaks? {
        return Failed(setup.error), k;
      }
      var chuckTag := "";
      if p.useChuck {
        chuckTag := "_Vchuck=" + fmt1(chuck);
      }
      var vnaTag := "";
      if p.useVna {
        var pow := PowerCheck(vna);
        if pow.Err? {
          return Failed(pow.error), k;
        }
        vnaTag := "_pwr=" + fmt0(pow.value);
      }
      var name := MesureCapacitor.RunName(ts, vnaTag + chuckTag, p.comment);
      assert name == RunTitle(p, vna, fmt0, chuck, fmt1, ts);
      var raised := base.PrepareSaving(PathJoin(p.dataDir, name + ".txt"));
      if raised.Some? {
        return Failed(raised.value), k;
      }
      outcome, k := Acquire(p, m, press, PathJoin(p.dataDir, name));
    }

    /**
     * `tidy_up` (vna_capa_RohdeSchwarz_newprober.py:158-162): close the VNA,
     * then the data file, then Vg to 0. Without the VNA `self.vna` was never
     * assigned: reading it raises, and the data file stays open.
     */
    method TidyUp() returns (raised: Option<string>)
      requires Valid()
      modifies base`trace, base`dataFile, base`files
      ensures Valid()
      ensures Vna !in present ==>
        raised == Some(NoAttribute(Vna)) && base.trace == old(base.trace) + [Teardown] &&
        base.dataFile == old(base.dataFile) && base.files == old(base.files)
      ensures Vna in present ==>
        var n := Covered(ZeroOrder, present);
        && base.dataFile == None && base.files == old(base.Disk())
        && base.trace == old(base.trace) + [Teardown, Command("vna", "close")] +
                         (if old(base.dataFile).Some? then [Closed(old(base.dataFile).value)] else []) +
                         ZeroSets(ZeroOrder[..n])
        && raised == (if n == |ZeroOrder| then None else Some(NoAttribute(ZeroOrder[n])))
    {
      base.Record(Teardown);
      RowsSinceOther(old(base.trace), base.openedAt, Teardown);
      if Vna !in present {
        return Some(NoAttribute(Vna));
      }
      ghost var t1 := base.trace;
      base.Record(Command("vna", "close"));
      RowsSinceOther(t1, base.openedAt, Command("vna", "close"));
      base.EndSaving();
      raised := base.ZeroSources(ZeroOrder, present);
    }
  }
}
