// modules/MesureCapacitor_Anritsu_Keithley2400.py: a gate voltage swept on a
// Keithley 2400, which also reads back the voltage and the leak current; with
// the VNA in use, its segmented-sweep power is validated first and one spectrum
// is taken after every row.
module MesureCapacitor {
  import opened Common
  import opened Mascril

  const Observables: seq<string> := ["Vg", "Ileak"]

  /** The one source, by its rank among the instrument objects. */
  const VG: nat := 0

  const SourceVg := Attr(VG, "sourceVg")

  /** The instrument objects in the order `measure` creates them; `vna` is a local, created only with the VNA in use. */
  function Constructions(useVna: bool): seq<Attr>
  {
    [SourceVg] + (if useVna then [Attr(1, "vna")] else [])
  }

  /** The sources `tidy_up` drives back to zero. */
  const ZeroOrder: seq<Attr> := [SourceVg]

  /** One leak-current alert. */
  function DeclaredAlarms(): seq<Alarm>
  {
    [ Alarm("np.abs(Ileak) > 1e-8", Bin(Gt, AbsOf(Name("Ileak")), Lit(Num(0.00000001))), ALARM_CALLCOPS) ]
  }

  datatype Params = Params(dataDir: string, comment: string, vgs: seq<real>, useVna: bool)

  /** What the Keithley reads back at step k: the voltage, then the current. */
  datatype Meters = Meters(vgm: nat -> real, ileak: nat -> real)

  // ------------------------------------------------------ the VNA set-up

  /** The source power one frequency segment applies on port 1 and on port 2. */
  datatype SegmentPower = SegmentPower(port1: real, port2: real)

  /** What the VNA answers during set-up: its sweep type, its segments' powers, its two source attenuators. */
  datatype VnaState = VnaState(sweepType: string, segments: seq<SegmentPower>, att1: real, att2: real)

  const SEGMENTED_ONLY := "Please use segmented frequency sweep"
  const SAME_POWER_ONLY := "Please select the same power for all ports and frequency segments"
  const SAME_ATTENUATORS_ONLY := "Please select the same attenuators for both ports"
  /** `vna_pow -= port1att` with `vna_pow` still None, when the VNA reports no segment. */
  const NONE_MINUS_FLOAT := "TypeError: unsupported operand type(s) for -=: 'NoneType' and 'float'"

  /** Every segment drives both ports at the first segment's power. */
  predicate SamePower(segments: seq<SegmentPower>)
  {
    forall i :: 0 <= i < |segments| ==>
      segments[i].port1 == segments[0].port1 && segments[i].port2 == segments[0].port1
  }

  /**
   * The segment loop (MesureCapacitor_Anritsu_Keithley2400.py:62-72): the
   * first segment with equal port powers fixes `vna_pow`, every later segment
   * must repeat it on both ports. None when there is no segment.
   */
  method CheckSegments(segments: seq<SegmentPower>) returns (r: Result<Option<real>>)
    ensures r.Ok? <==> SamePower(segments)
    ensures r.Ok? ==> r.value == (if |segments| == 0 then None else Some(segments[0].port1))
    ensures r.Err? ==> r.error == SAME_POWER_ONLY
  {
    var vnaPow: Option<real> := None;
    var i := 0;
    while i < |segments|
      invariant 0 <= i <= |segments|
      invariant vnaPow == (if i == 0 then None else Some(segments[0].port1))
      invariant forall j :: 0 <= j < i ==>
        segments[j].port1 == segments[0].port1 && segments[j].port2 == segments[0].port1
    {
      var port1pow := segments[i].port1;
      var port2pow := segments[i].port2;
      if vnaPow.None? && port1pow == port2pow {
        vnaPow := Some(port1pow);
      } else if vnaPow.Some? && port1pow == port2pow && port1pow == vnaPow.value {
      } else {
        return Err(SAME_POWER_ONLY);
      }
      i := i + 1;
    }
    r := Ok(vnaPow);
  }

  /**
   * The power the run reports, or the exception of the set-up: the sweep
   * type first, then the segments, then the attenuators.
   */
  function PowerCheck(v: VnaState): (r: Result<real>)
    ensures r.Ok? <==> v.sweepType == "FSEGM" && SamePower(v.segments) && v.att1 == v.att2 && |v.segments| > 0
    ensures r.Ok? ==> forall i :: 0 <= i < |v.segments| ==>
      v.segments[i].port1 - v.att1 == r.value && v.segments[i].port2 - v.att2 == r.value
    ensures r.Err? ==> r.error in {SEGMENTED_ONLY, SAME_POWER_ONLY, SAME_ATTENUATORS_ONLY, NONE_MINUS_FLOAT}
  {
    if v.sweepType != "FSEGM" then Err(SEGMENTED_ONLY)
    else if !SamePower(v.segments) then Err(SAME_POWER_ONLY)
    else if v.att1 != v.att2 then Err(SAME_ATTENUATORS_ONLY)
    else if |v.segments| == 0 then Err(NONE_MINUS_FLOAT)
    else Ok(v.segments[0].port1 - v.att1)
  }

  /** The VNA checks of `measure` (MesureCapacitor_Anritsu_Keithley2400.py:57-78), in the source's order. */
  method VnaPower(v: VnaState) returns (r: Result<real>)
    ensures r == PowerCheck(v)
  {
    if v.sweepType != "FSEGM" {
      return Err(SEGMENTED_ONLY);
    }
    var pow := CheckSegments(v.segments);
    if pow.Err? {
      return Err(pow.error);
    }
    if v.att1 == v.att2 {
      if pow.value.None? {
        return Err(NONE_MINUS_FLOAT);
      }
      r := Ok(pow.value.value - v.att1);
    } else {
      r := Err(SAME_ATTENUATORS_ONLY);
    }
  }

  // ------------------------------------------------------------ names

  /**
   * The run's name: the timestamp, the power tag (empty without the VNA), then
   * `_comment` only for a non-empty comment.
   */
  function RunName(timestamp: string, tag: string, comment: string): string
  {
    timestamp + tag + (if comment != "" then "_" + comment else "")
  }

  /** `'_pwr={:.0f}'.format(vna_pow)` with the VNA in use, given the formatting `fmt`; empty otherwise. */
  function PowerTag(useVna: bool, v: VnaState, fmt: real -> string): string
  {
    if useVna && PowerCheck(v).Ok? then "_pwr=" + fmt(PowerCheck(v).value) else ""
  }

  /** The name of the run's folder and data file (without `.txt`). */
  function RunTitle(p: Params, v: VnaState, fmt: real -> string, ts: string): string
  {
    RunName(ts, PowerTag(p.useVna, v, fmt), p.comment)
  }

  /** The power tag is there only with the VNA in use; the comment only when non-empty, after an underscore. */
  lemma RunTitleParts(p: Params, v: VnaState, fmt: real -> string, ts: string)
    ensures !p.useVna && p.comment == "" ==> RunTitle(p, v, fmt, ts) == ts
    ensures !p.useVna && p.comment != "" ==> RunTitle(p, v, fmt, ts) == ts + "_" + p.comment
    ensures p.useVna && PowerCheck(v).Ok? && p.comment == "" ==>
      RunTitle(p, v, fmt, ts) == ts + "_pwr=" + fmt(PowerCheck(v).value)
    ensures p.useVna && PowerCheck(v).Ok? && p.comment != "" ==>
      RunTitle(p, v, fmt, ts) == ts + "_pwr=" + fmt(PowerCheck(v).value) + "_" + p.comment
  {
  }

  // ------------------------------------------------------------- a step

  /** The observables' values at step k: the set Vg and the current the Keithley reads. */
  function StepEnv(p: Params, m: Meters, k: nat): Env
    requires k < |p.vgs|
  {
    Bind(Observables, [Num(p.vgs[k]), Num(m.ileak(k))])
  }

  /** A step records the gate voltage it set and the leak current read back. */
  lemma StepRecords(p: Params, m: Meters, k: nat)
    requires k < |p.vgs|
    ensures var env := StepEnv(p, m, k);
      "Vg" in env && env["Vg"] == Num(p.vgs[k]) && "Ileak" in env && env["Ileak"] == Num(m.ileak(k))
  {
    var values := [Num(p.vgs[k]), Num(m.ileak(k))];
    assert Distinct(Observables);
    BindLookup(Observables, values, 0);
    BindLookup(Observables, values, 1);
  }

  // ------------------------------------------------------------- the plan

  type Steps = nat -> Env

  function StepEnvs(p: Params, m: Meters): Steps
  {
    (k: nat) => if k < |p.vgs| then StepEnv(p, m, k) else map[]
  }

  /** `envs` gives the bindings of every step; the quantifier fires only where a step's bindings are computed. */
  ghost predicate StepsOf(envs: Steps, p: Params, m: Meters)
  {
    forall k: nat {:trigger StepEnv(p, m, k)} :: k < |p.vgs| ==> envs(k) == StepEnv(p, m, k)
  }

  lemma StepEnvsSteps(p: Params, m: Meters)
    ensures StepsOf(StepEnvs(p, m), p, m)
  {
  }

  /** With the VNA: the spectrum tagged with Vg. */
  function SpectrumAt(p: Params, k: nat): seq<Event>
    requires k < |p.vgs|
  {
    if p.useVna then [Spectrum([p.vgs[k]])] else []
  }

  /** A measured point: Vg, the row and its alarms, then the spectrum with the VNA. */
  function Point(p: Params, envs: Steps, k: nat): seq<Event>
    requires k < |p.vgs|
  {
    [Set(VG, p.vgs[k]), Saved(envs(k)), Alarms(envs(k))] + SpectrumAt(p, k)
  }

  /** One iteration: the quit check, then the point. */
  function Pass(p: Params, envs: Steps, k: nat): seq<Event>
  {
    if k < |p.vgs| then [Poll] + Point(p, envs, k) else []
  }

  /** The Vg loop's first n iterations. */
  function Loop(p: Params, envs: Steps, n: nat): seq<Event>
  {
    Concat(n, (k: nat) => Pass(p, envs, k))
  }

  /** What `measure` does once the data file is open: with the VNA, the folder again and the segment table dump. */
  function Prologue(useVna: bool, folder: string): seq<Event>
  {
    if useVna then [MakeDir(folder), Wrote(PathJoin(folder, "VNAconfig"))] else []
  }

  lemma PrologueSavesNothing(useVna: bool, folder: string)
    ensures SavedEnvs(Prologue(useVna, folder)) == []
  {
    if useVna {
      PickTwo(MakeDir(folder), Wrote(PathJoin(folder, "VNAconfig")), SavedOf);
    }
  }

  lemma PassPicks(p: Params, envs: Steps, k: nat)
    requires k < |p.vgs|
    ensures SetValues(Pass(p, envs, k), VG) == [p.vgs[k]]
    ensures SavedEnvs(Pass(p, envs, k)) == [envs(k)]
    ensures Pick(Pass(p, envs, k), SpectrumOf) == if p.useVna then [[p.vgs[k]]] else []
  {
    var a := [Poll, Set(VG, p.vgs[k])];
    var b := [Saved(envs(k)), Alarms(envs(k))];
    var c := SpectrumAt(p, k);
    assert Pass(p, envs, k) == a + b + c;
    PickThree(a, b, c, SetOf(VG));
    PickThree(a, b, c, SavedOf);
    PickThree(a, b, c, SpectrumOf);
    PickTwo(Poll, Set(VG, p.vgs[k]), SetOf(VG));
    PickTwo(Poll, Set(VG, p.vgs[k]), SavedOf);
    PickTwo(Poll, Set(VG, p.vgs[k]), SpectrumOf);
    PickTwo(Saved(envs(k)), Alarms(envs(k)), SetOf(VG));
    PickTwo(Saved(envs(k)), Alarms(envs(k)), SavedOf);
    PickTwo(Saved(envs(k)), Alarms(envs(k)), SpectrumOf);
    if p.useVna {
      PickOne(Spectrum([p.vgs[k]]), SetOf(VG));
      PickOne(Spectrum([p.vgs[k]]), SavedOf);
      PickOne(Spectrum([p.vgs[k]]), SpectrumOf);
    }
  }

  /** Without a quit request: Vg takes the values in list order, one row per value. */
  lemma PlanRows(p: Params, envs: Steps)
    ensures SetValues(Loop(p, envs, |p.vgs|), VG) == p.vgs
    ensures SavedEnvs(Loop(p, envs, |p.vgs|)) == seq(|p.vgs|, (k: nat) => envs(k))
  {
    var n := |p.vgs|;
    var body := (k: nat) => Pass(p, envs, k);
    var rows := seq(n, (k: nat) => envs(k));
    forall k: nat | k < n
      ensures Pick(body(k), SetOf(VG)) == [p.vgs[k]]
      ensures Pick(body(k), SavedOf) == [rows[k]]
    {
      PassPicks(p, envs, k);
    }
    PickConcatEach(n, body, SetOf(VG), p.vgs);
    PickConcatEach(n, body, SavedOf, rows);
  }

  /** Without a quit request and with the VNA, exactly one spectrum per row, tagged with its Vg; none without. */
  lemma PlanSpectra(p: Params, envs: Steps)
    ensures Pick(Loop(p, envs, |p.vgs|), SpectrumOf) ==
      if p.useVna then seq(|p.vgs|, k requires 0 <= k < |p.vgs| => [p.vgs[k]]) else []
  {
    var n := |p.vgs|;
    var body := (k: nat) => Pass(p, envs, k);
    var tags := seq(n, k requires 0 <= k < n => [p.vgs[k]]);
    forall k: nat | k < n
      ensures Pick(body(k), SpectrumOf) == if p.useVna then [tags[k]] else []
    {
      PassPicks(p, envs, k);
    }
    if p.useVna {
      PickConcatEach(n, body, SpectrumOf, tags);
    } else {
      PickConcatNone(n, body, SpectrumOf);
    }
  }

  /**
   * After a sweep without a quit request the data file holds its earlier
   * lines, the header and one row per Vg value, in order.
   */
  lemma PlanFile(files: map<string, seq<Line>>, path: string, t0: seq<Event>, p: Params, envs: Steps, folder: string)
    ensures var disk := DiskView(files, Some(path), Observables, t0 + Prologue(p.useVna, folder) + Loop(p, envs, |p.vgs|), |t0|);
      && path in disk
      && disk[path] == FileAt(files, path) + [Header(Observables)] + RowsOf(Observables, seq(|p.vgs|, (k: nat) => envs(k)))
  {
    var prologue := Prologue(p.useVna, folder);
    var loop := Loop(p, envs, |p.vgs|);
    PrologueSavesNothing(p.useVna, folder);
    DiskAfterQuiet(files, path, Observables, t0, prologue, loop);
    PlanRows(p, envs);
    assert SavedEnvs(loop) == seq(|p.vgs|, (k: nat) => envs(k));
  }


  // ------------------------------------------------------------ the script

  class Measurement {
    const base: MeasurementBase
    /** The instrument attributes `measure` has assigned. */
    var present: set<Attr>

    ghost predicate Valid()
      reads this, base
    {
      base.Valid() && NoQuitRule(base.alarms)
    }

    constructor (disk: map<string, seq<Line>>)
      ensures Valid() && fresh(base) && base.observables == Observables && base.alarms == DeclaredAlarms()
      ensures base.files == disk && base.dataFile == None && !base.quitRequested && base.trace == []
      ensures present == {}
    {
      base := new MeasurementBase(Observables, DeclaredAlarms(), disk);
      present := {};
    }

    /** A point of the Vg loop once the quit check has passed (MesureCapacitor_Anritsu_Keithley2400.py:107-131). */
    method MeasurePoint(p: Params, m: Meters, ghost envs: Steps, k: nat)
      requires Valid() && StepsOf(envs, p, m) && k < |p.vgs| && base.dataFile.Some?
      modifies base`trace, base`quitRequested
      ensures Valid()
      ensures base.quitRequested == old(base.quitRequested)
      ensures base.trace == old(base.trace) + Point(p, envs, k)
    {
      base.Record(Set(VG, p.vgs[k]));
      var env := StepEnv(p, m, k);
      assert env == envs(k);
      var _ := base.SaveRow(env);
      NoQuitRuleNoQuit(base.alarms, env);
      ghost var row := old(base.trace) + [Set(VG, p.vgs[k]), Saved(env), Alarms(env)];
      assert base.trace == row;
      if p.useVna {
        base.Record(Spectrum([p.vgs[k]]));
      }
      assert base.trace == row + SpectrumAt(p, k);
    }

    /** One pass of the Vg loop body (MesureCapacitor_Anritsu_Keithley2400.py:104-131); true when it stopped at the quit check. */
    method Step(p: Params, m: Meters, ghost envs: Steps, press: bool, k: nat) returns (stop: bool)
      requires Valid() && StepsOf(envs, p, m) && k < |p.vgs| && base.dataFile.Some?
      modifies base`trace, base`quitRequested
      ensures Valid()
      ensures base.quitRequested == (old(base.quitRequested) || press)
      ensures stop == base.quitRequested
      ensures stop ==> base.trace == old(base.trace) + [Poll]
      ensures !stop ==> base.trace == old(base.trace) + Pass(p, envs, k)
    {
      stop := base.PollQuit(press);
      if stop {
        return;
      }
      MeasurePoint(p, m, envs, k);
      AppendAssoc(old(base.trace), [Poll], Point(p, envs, k));
    }

    /** The Vg loop (MesureCapacitor_Anritsu_Keithley2400.py:103-131); `k` is the step it stopped at. */
    method Sweep(p: Params, m: Meters, ghost envs: Steps, press: nat -> bool) returns (stopped: bool, ghost k: nat)
      requires Valid() && StepsOf(envs, p, m) && base.dataFile.Some?
      modifies base`trace, base`quitRequested
      ensures Valid()
      ensures !stopped ==>
        (base.quitRequested ==> old(base.quitRequested)) && base.trace == old(base.trace) + Loop(p, envs, |p.vgs|)
      ensures stopped ==>
        k < |p.vgs| && base.quitRequested && base.trace == old(base.trace) + Loop(p, envs, k) + [Poll]
      ensures !old(base.quitRequested) && (forall n: nat :: !press(n)) ==> !stopped
    {
      ghost var t0 := base.trace;
      var n := 0;
      k := 0;
      stopped := false;
      while n < |p.vgs|
        invariant n <= |p.vgs| && k == n && !stopped
        invariant Valid()
        invariant base.trace == t0 + Loop(p, envs, n)
        invariant base.quitRequested ==> old(base.quitRequested)
      {
        stopped := Step(p, m, envs, press(n), n);
        if stopped {
          return;
        }
        n := n + 1;
        k := n;
      }
    }

    /** What `measure` does once the data file is open (MesureCapacitor_Anritsu_Keithley2400.py:94-131). */
    method Acquire(p: Params, m: Meters, press: nat -> bool, folder: string) returns (outcome: Outcome, ghost k: nat)
      requires Valid() && base.dataFile.Some?
      modifies base`trace, base`quitRequested
      ensures Valid() && !outcome.Failed?
      ensures outcome == Completed ==>
        base.trace == old(base.trace) + Prologue(p.useVna, folder) + Loop(p, StepEnvs(p, m), |p.vgs|)
      ensures outcome == Stopped ==>
        k < |p.vgs| && base.quitRequested &&
        base.trace == old(base.trace) + Prologue(p.useVna, folder) + Loop(p, StepEnvs(p, m), k) + [Poll]
      ensures !old(base.quitRequested) && (forall n: nat :: !press(n)) ==> outcome == Completed
    {
      if p.useVna {
        base.Record(MakeDir(folder));
        base.Record(Wrote(PathJoin(folder, "VNAconfig")));
      }
      assert base.trace == old(base.trace) + Prologue(p.useVna, folder);
      StepEnvsSteps(p, m);
      var stopped;
      stopped, k := Sweep(p, m, StepEnvs(p, m), press);
      outcome := if stopped then Stopped else Completed;
    }

    /**
     * From the spectra folder on (MesureCapacitor_Anritsu_Keithley2400.py:88-131):
     * the folder is created whether or not the VNA is in use, then the data
     * file is opened and the rest of the acquisition runs.
     */
    method Start(p: Params, m: Meters, press: nat -> bool, folder: string, path: string) returns (outcome: Outcome, ghost k: nat)
      requires Valid()
      modifies base`trace, base`dataFile, base`openedAt, base`quitRequested
      ensures Valid()
      ensures old(base.dataFile).Some? ==>
        outcome == Failed(NOT_CLOSED) &&
        base.trace == old(base.trace) + [MakeDir(folder)] &&
        base.dataFile == old(base.dataFile) && base.openedAt == old(base.openedAt)
      ensures old(base.dataFile).None? ==>
        && base.dataFile == Some(path)
        && base.openedAt == |old(base.trace)| + 1
        && !outcome.Failed?
        && (outcome == Completed ==>
              base.trace == old(base.trace) + [MakeDir(folder)] + Prologue(p.useVna, folder) + Loop(p, StepEnvs(p, m), |p.vgs|))
        && (outcome == Stopped ==>
              k < |p.vgs| && base.quitRequested &&
              base.trace == old(base.trace) + [MakeDir(folder)] + Prologue(p.useVna, folder) + Loop(p, StepEnvs(p, m), k) + [Poll])
        && ((!old(base.quitRequested) && forall n: nat :: !press(n)) ==> outcome == Completed)
    {
      k := 0;
      base.Record(MakeDir(folder));
      var raised := base.PrepareSaving(path);
      if raised.Some? {
        return Failed(raised.value), k;
      }
      outcome, k := Acquire(p, m, press, folder);
    }

    /**
     * `measure` (MesureCapacitor_Anritsu_Keithley2400.py:36-136): the Keithley,
     * the VNA and its checks when in use, the spectra folder (always), the data
     * file, then the Vg loop. `vna` is what the VNA answers, `fmt` the `{:.0f}`
     * formatting, `press(k)` whether stop was pressed before the quit check of step k.
     */
    method Measure(p: Params, m: Meters, vna: VnaState, fmt: real -> string, press: nat -> bool, setup: Setup, ts: string)
      returns (outcome: Outcome, ghost k: nat)
      requires Valid()
      modifies this`present, base`trace, base`dataFile, base`openedAt, base`quitRequested
      ensures Valid()
      ensures present == Assigned(Constructions(p.useVna), setup)
      ensures setup.Breaks? ==>
        outcome == Failed(setup.error) && base.trace == old(base.trace) &&
        base.dataFile == old(base.dataFile) && base.openedAt == old(base.openedAt)
      ensures setup.Ready? && p.useVna && PowerCheck(vna).Err? ==>
        outcome == Failed(PowerCheck(vna).error) && base.trace == old(base.trace) &&
        base.dataFile == old(base.dataFile) && base.openedAt == old(base.openedAt)
      ensures setup.Ready? && (p.useVna ==> PowerCheck(vna).Ok?) ==>
        var folder := PathJoin(p.dataDir, RunTitle(p, vna, fmt, ts));
        && (old(base.dataFile).Some? ==>
              outcome == Failed(NOT_CLOSED) &&
              base.trace == old(base.trace) + [MakeDir(folder)] &&
              base.dataFile == old(base.dataFile) && base.openedAt == old(base.openedAt))
        && (old(base.dataFile).None? ==>
              && base.dataFile == Some(PathJoin(p.dataDir, RunTitle(p, vna, fmt, ts) + ".txt"))
              && base.openedAt == |old(base.trace)| + 1
              && !outcome.Failed?
              && (outcome == Completed ==>
                    base.trace == old(base.trace) + [MakeDir(folder)] + Prologue(p.useVna, folder) + Loop(p, StepEnvs(p, m), |p.vgs|))
              && (outcome == Stopped ==>
                    k < |p.vgs| && base.quitRequested &&
                    base.trace == old(base.trace) + [MakeDir(folder)] + Prologue(p.useVna, folder) + Loop(p, StepEnvs(p, m), k) + [Poll])
              && ((!old(base.quitRequested) && forall n: nat :: !press(n)) ==> outcome == Completed))
    {
      present := Assigned(Constructions(p.useVna), setup);
      k := 0;
      if setup.Breaks? {
        return Failed(setup.error), k;
      }
      var tag := "";
      if p.useVna {
        var pow := VnaPower(vna);
        if pow.Err? {
          return Failed(pow.error), k;
        }
        tag := "_pwr=" + fmt(pow.value);
      }
      var name := RunName(ts, tag, p.comment);
      assert name == RunTitle(p, vna, fmt, ts);
      outcome, k := Start(p, m, press, PathJoin(p.dataDir, name), PathJoin(p.dataDir, name + ".txt"));
    }

    /** `tidy_up` (MesureCapacitor_Anritsu_Keithley2400.py:138-143): close the data file, then Vg to 0. */
    method TidyUp() returns (raised: Option<string>)
      requires Valid()
      modifies base`trace, base`dataFile, base`files
      ensures Valid() && base.dataFile == None && base.files == old(base.Disk())
      ensures var n := Covered(ZeroOrder, present);
        base.trace == old(base.trace) + [Teardown] +
                      (if old(base.dataFile).Some? then [Closed(old(base.dataFile).value)] else []) +
                      ZeroSets(ZeroOrder[..n]) &&
        raised == (if n == |ZeroOrder| then None else Some(NoAttribute(ZeroOrder[n])))
    {
      base.Record(Teardown);
      RowsSinceOther(old(base.trace), base.openedAt, Teardown);
      base.EndSaving();
      raised := base.ZeroSources(ZeroOrder, present);
    }
  }
}
