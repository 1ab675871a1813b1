// modules/vna_capa_Anritsu_powersweep.py: a gate voltage swept on a Bilt
// source and read back on a Bilt voltmeter; at every gate voltage, one data
// row, then with the VNA a sweep of the source power, written to both ports
// of every frequency segment, with one spectrum per power.
module PowerSweep {
  import opened Common
  import opened Mascril
  import MesureCapacitor
  import NewProber

  /** The same three observables as the prober script, bound by NewProber.GateEnv. */
  const Observables: seq<string> := NewProber.Observables

  /** The one source, by its rank among the instrument objects. */
  const VG: nat := 1

  const SourceVg := Attr(VG, "sourceVg")

  /**
   * The instrument objects in the order `measure` creates them: the Bilt frame
   * (a local), its source and voltmeter, the Yokogawa (a local) when the chuck
   * voltage is recorded, then the VNA (a local).
   */
  function Constructions(useChuck: bool): seq<Attr>
  {
    [Attr(0, "bilt"), SourceVg, Attr(2, "meterVg")] + (if useChuck then [Attr(3, "yoko")] else []) + [Attr(4, "vna")]
  }

  const ZeroOrder: seq<Attr> := [SourceVg]

  /** The leak-current alert, as in the capacitor measurement. */
  function DeclaredAlarms(): seq<Alarm>
  {
    MesureCapacitor.DeclaredAlarms()
  }

  /** A bare `raise Exception`: its message is empty. */
  const BARE_EXCEPTION := ""

  /** `init_bilt` only chooses how the Bilt source is set up, and is not part of the model. */
  datatype Params = Params(
    dataDir: string, comment: string, vgs: seq<real>, pwrs: seq<real>, rg: real, useVna: bool, useChuck: bool)

  /** What the Bilt voltmeter reads at step k. */
  datatype Meters = Meters(vgm: nat -> real)

  /** What the VNA answers: its two source attenuations, its sweep type and its number of frequency segments. */
  datatype VnaState = VnaState(att1: real, att2: real, sweepType: string, segments: nat)

  // ------------------------------------------------------------ names

  /** The run's name: timestamp, the chuck tag when recorded, then `_comment` for a non-empty comment. */
  function RunTitle(p: Params, chuck: real, fmt1: real -> string, ts: string): string
  {
    MesureCapacitor.RunName(ts, if p.useChuck then "_Vchuck=" + fmt1(chuck) else "", p.comment)
  }

  // ------------------------------------------------------------- a step

  /** The observables' values at gate step k (see NewProber.StepRecords for what they bind). */
  function StepEnv(p: Params, m: Meters, k: nat): Env
    requires k < |p.vgs|
  {
    NewProber.GateEnv(p.vgs[k], m.vgm(k), p.rg)
  }

  // ------------------------------------------------------------- the plan

  type Steps = nat -> Env

  function StepEnvs(p: Params, m: Meters): Steps
  {
    (k: nat) => if k < |p.vgs| then StepEnv(p, m, k) else map[]
  }

  /** `envs` gives the bindings of every step; the quantifier fires only where a step's bindings are computed. */
  ghost predicate StepsOf(envs: Steps, p: Params, m: Meters)
  {
    forall k: nat {:trigger StepEnv(p, m, k)} :: k < |p.vgs| ==> envs(k) == StepEnv(p, m, k)
  }

  lemma StepEnvsSteps(p: Params, m: Meters)
    ensures StepsOf(StepEnvs(p, m), p, m)
  {
  }

  /** Segment i + 1 of the VNA gets power x on port 1, then on port 2. */
  function TuneSegment(x: real, i: nat): seq<Event>
  {
    [Tuned(i + 1, 1, x), Tuned(i + 1, 2, x)]
  }

  /** The first n segments tuned to power x. */
  function Tunes(n: nat, x: real): seq<Event>
  {
    Concat(n, (i: nat) => TuneSegment(x, i))
  }

  /** The power actually written for `pwr`: the attenuation is added back. */
  function PowerToSet(v: VnaState, pwr: real): real
  {
    pwr + v.att1
  }

  /** One power step at gate step k: the quit check, every segment tuned, then the spectrum tagged with Vg and the power. */
  function PowerPass(p: Params, v: VnaState, k: nat, j: nat): seq<Event>
  {
    if k < |p.vgs| && j < |p.pwrs| then
      [Poll] + Tunes(v.segments, PowerToSet(v, p.pwrs[j])) + [Spectrum([p.vgs[k], p.pwrs[j]])]
    else []
  }

  /** The first j power steps at gate step k. */
  function PowerLoop(p: Params, v: VnaState, k: nat, j: nat): seq<Event>
  {
    Concat(j, (i: nat) => PowerPass(p, v, k, i))
  }

  /** The tags of the spectra of gate step k: Vg with each power, in list order. */
  function Tags(p: Params, k: nat): seq<seq<real>>
    requires k < |p.vgs|
  {
    seq(|p.pwrs|, j requires 0 <= j < |p.pwrs| => [p.vgs[k], p.pwrs[j]])
  }

  /** Vg, the row and its alarms. */
  function Point(p: Params, envs: Steps, k: nat): seq<Event>
    requires k < |p.vgs|
  {
    [Set(VG, p.vgs[k]), Saved(envs(k)), Alarms(envs(k))]
  }

  /** One gate step: the point, then with the VNA the whole power sweep. */
  function Pass(p: Params, v: VnaState, envs: Steps, k: nat): seq<Event>
  {
    if k < |p.vgs| then Point(p, envs, k) + (if p.useVna then PowerLoop(p, v, k, |p.pwrs|) else []) else []
  }

  /** The Vg loop's first n iterations. */
  function Loop(p: Params, v: VnaState, envs: Steps, n: nat): seq<Event>
  {
    Concat(n, (k: nat) => Pass(p, v, envs, k))
  }

  /** Tuning n segments writes power x to port 1 then port 2 of segments 1 to n, in order, and nothing else. */
  lemma {:induction false} TunesAll(n: nat, x: real)
    ensures |Tunes(n, x)| == 2 * n
    ensures forall i :: 0 <= i < n ==> Tunes(n, x)[2 * i] == Tuned(i + 1, 1, x) && Tunes(n, x)[2 * i + 1] == Tuned(i + 1, 2, x)
  {
    if n > 0 {
      TunesAll(n - 1, x);
      assert Tunes(n, x) == Tunes(n - 1, x) + TuneSegment(x, n - 1);
    }
  }

  lemma TunesPick<T>(n: nat, x: real, f: Event -> seq<T>)
    requires forall i: nat, q: nat :: f(Tuned(i, q, x)) == []
    ensures Pick(Tunes(n, x), f) == []
  {
    var body := (i: nat) => TuneSegment(x, i);
    forall i: nat | i < n
      ensures Pick(body(i), f) == []
    {
      PickTwo(Tuned(i + 1, 1, x), Tuned(i + 1, 2, x), f);
    }
    PickConcatNone(n, body, f);
  }

  /** A power step's events of one kind are those of its quit check and of its spectrum, whatever `f` finds in no tuning. */
  lemma PowerPassPick<T>(p: Params, v: VnaState, k: nat, j: nat, f: Event -> seq<T>)
    requires k < |p.vgs| && j < |p.pwrs|
    requires forall i: nat, q: nat, x: real :: f(Tuned(i, q, x)) == []
    ensures Pick(PowerPass(p, v, k, j), f) == f(Poll) + f(Spectrum([p.vgs[k], p.pwrs[j]]))
  {
    var x := PowerToSet(v, p.pwrs[j]);
    var c := [Spectrum([p.vgs[k], p.pwrs[j]])];
    PickThree([Poll], Tunes(v.segments, x), c, f);
    PickOne(Poll, f);
    TunesPick(v.segments, x, f);
    PickOne(Spectrum([p.vgs[k], p.pwrs[j]]), f);
  }

  /** A power step selects one quit check, no row, no set-point and one spectrum tagged with Vg and the power. */
  lemma PowerPassPicks(p: Params, v: VnaState, k: nat, j: nat)
    requires k < |p.vgs| && j < |p.pwrs|
    ensures Pick(PowerPass(p, v, k, j), PollOf) == [Poll]
    ensures SavedEnvs(PowerPass(p, v, k, j)) == []
    ensures SetValues(PowerPass(p, v, k, j), VG) == []
    ensures Pick(PowerPass(p, v, k, j), SpectrumOf) == [[p.vgs[k], p.pwrs[j]]]
  {
    PowerPassPick(p, v, k, j, PollOf);
    PowerPassPick(p, v, k, j, SavedOf);
    PowerPassPick(p, v, k, j, SetOf(VG));
    PowerPassPick(p, v, k, j, SpectrumOf);
  }

  /** A whole power sweep: one quit check per power, no row, no set-point, and the spectra tagged with Vg and each power. */
  lemma PowerLoopPicks(p: Params, v: VnaState, k: nat)
    requires k < |p.vgs|
    ensures |Pick(PowerLoop(p, v, k, |p.pwrs|), PollOf)| == |p.pwrs|
    ensures SavedEnvs(PowerLoop(p, v, k, |p.pwrs|)) == []
    ensures SetValues(PowerLoop(p, v, k, |p.pwrs|), VG) == []
    ensures Pick(PowerLoop(p, v, k, |p.pwrs|), SpectrumOf) == Tags(p, k)
  {
    PowerLoopPolls(p, v, k);
    PowerLoopQuiet(p, v, k);
    PowerLoopSpectra(p, v, k);
  }

  lemma PowerLoopPolls(p: Params, v: VnaState, k: nat)
    requires k < |p.vgs|
    ensures |Pick(PowerLoop(p, v, k, |p.pwrs|), PollOf)| == |p.pwrs|
  {
    var body := (j: nat) => PowerPass(p, v, k, j);
    forall j: nat | j < |p.pwrs|
      ensures |Pick(body(j), PollOf)| == 1
    {
      PowerPassPick(p, v, k, j, PollOf);
    }
    PickConcatCount(|p.pwrs|, body, PollOf, 1);
  }

  lemma PowerLoopQuiet(p: Params, v: VnaState, k: nat)
    requires k < |p.vgs|
    ensures SavedEnvs(PowerLoop(p, v, k, |p.pwrs|)) == []
    ensures SetValues(PowerLoop(p, v, k, |p.pwrs|), VG) == []
  {
    var body := (j: nat) => PowerPass(p, v, k, j);
    forall j: nat | j < |p.pwrs|
      ensures Pick(body(j), SavedOf) == []
      ensures Pick(body(j), SetOf(VG)) == []
    {
      PowerPassPick(p, v, k, j, SavedOf);
      PowerPassPick(p, v, k, j, SetOf(VG));
    }
    PickConcatNone(|p.pwrs|, body, SavedOf);
    PickConcatNone(|p.pwrs|, body, SetOf(VG));
  }

  lemma PowerLoopSpectra(p: Params, v: VnaState, k: nat)
    requires k < |p.vgs|
    ensures Pick(PowerLoop(p, v, k, |p.pwrs|), SpectrumOf) == Tags(p, k)
  {
    var body := (j: nat) => PowerPass(p, v, k, j);
    var tags := Tags(p, k);
    forall j: nat | j < |p.pwrs|
      ensures Pick(body(j), SpectrumOf) == [tags[j]]
    {
      PowerPassPick(p, v, k, j, SpectrumOf);
    }
    PickConcatEach(|p.pwrs|, body, SpectrumOf, tags);
  }

  /** A gate step: one set-point, one row, and with the VNA one quit check and one spectrum per power. */
  lemma PassPicks(p: Params, v: VnaState, envs: Steps, k: nat)
    requires k < |p.vgs|
    ensures SetValues(Pass(p, v, envs, k), VG) == [p.vgs[k]]
    ensures SavedEnvs(Pass(p, v, envs, k)) == [envs(k)]
    ensures |Pick(Pass(p, v, envs, k), PollOf)| == if p.useVna then |p.pwrs| else 0
    ensures Pick(Pass(p, v, envs, k), SpectrumOf) ==
      if p.useVna then Tags(p, k) else []
  {
    var a := [Set(VG, p.vgs[k])];
    var b := [Saved(envs(k)), Alarms(envs(k))];
    var c := if p.useVna then PowerLoop(p, v, k, |p.pwrs|) else [];
    assert Pass(p, v, envs, k) == a + b + c;
    PickThree(a, b, c, SetOf(VG));
    PickThree(a, b, c, SavedOf);
    PickThree(a, b, c, PollOf);
    PickThree(a, b, c, SpectrumOf);
    PickOne(Set(VG, p.vgs[k]), SetOf(VG));
    PickOne(Set(VG, p.vgs[k]), SavedOf);
    PickOne(Set(VG, p.vgs[k]), PollOf);
    PickOne(Set(VG, p.vgs[k]), SpectrumOf);
    PickTwo(Saved(envs(k)), Alarms(envs(k)), SetOf(VG));
    PickTwo(Saved(envs(k)), Alarms(envs(k)), SavedOf);
    PickTwo(Saved(envs(k)), Alarms(envs(k)), PollOf);
    PickTwo(Saved(envs(k)), Alarms(envs(k)), SpectrumOf);
    if p.useVna {
      PowerLoopPicks(p, v, k);
    }
  }

  /** Without a quit request: Vg takes the values in list order, one row per value, each written before its power sweep. */
  lemma PlanRows(p: Params, v: VnaState, envs: Steps)
    ensures SetValues(Loop(p, v, envs, |p.vgs|), VG) == p.vgs
    ensures SavedEnvs(Loop(p, v, envs, |p.vgs|)) == seq(|p.vgs|, (k: nat) => envs(k))
  {
    var n := |p.vgs|;
    var body := (k: nat) => Pass(p, v, envs, k);
    var rows := seq(n, (k: nat) => envs(k));
    forall k: nat | k < n
      ensures Pick(body(k), SetOf(VG)) == [p.vgs[k]]
      ensures Pick(body(k), SavedOf) == [rows[k]]
    {
      PassPicks(p, v, envs, k);
    }
    PickConcatEach(n, body, SetOf(VG), p.vgs);
    PickConcatEach(n, body, SavedOf, rows);
  }

  /**
   * Without a quit request and with the VNA: one spectrum per gate voltage and
   * power, Vg outer and power inner, |Vgs|·|pwrs| in all; none without the VNA.
   */
  lemma PlanSpectra(p: Params, v: VnaState, envs: Steps)
    ensures Pick(Loop(p, v, envs, |p.vgs|), SpectrumOf) ==
      if p.useVna then
        Concat(|p.vgs|, (k: nat) => if k < |p.vgs| then Tags(p, k) else [])
      else []
    ensures |Pick(Loop(p, v, envs, |p.vgs|), SpectrumOf)| == if p.useVna then |p.vgs| * |p.pwrs| else 0
  {
    PlanSpectraOrder(p, v, envs);
    PlanSpectraCount(p, v, envs);
  }

  lemma PlanSpectraOrder(p: Params, v: VnaState, envs: Steps)
    ensures Pick(Loop(p, v, envs, |p.vgs|), SpectrumOf) ==
      if p.useVna then
        Concat(|p.vgs|, (k: nat) => if k < |p.vgs| then Tags(p, k) else [])
      else []
  {
    var n := |p.vgs|;
    var body := (k: nat) => Pass(p, v, envs, k);
    var each := (k: nat) => if k < n then Tags(p, k) else [];
    forall k: nat | k < n
      ensures Pick(body(k), SpectrumOf) == if p.useVna then each(k) else []
    {
      PassPicks(p, v, envs, k);
    }
    if p.useVna {
      PickConcat(n, body, SpectrumOf);
      ConcatAgree(n, (k: nat) => Pick(body(k), SpectrumOf), each);
    } else {
      PickConcatNone(n, body, SpectrumOf);
    }
  }

  lemma PlanSpectraCount(p: Params, v: VnaState, envs: Steps)
    ensures |Pick(Loop(p, v, envs, |p.vgs|), SpectrumOf)| == if p.useVna then |p.vgs| * |p.pwrs| else 0
  {
    var n := |p.vgs|;
    var body := (k: nat) => Pass(p, v, envs, k);
    forall k: nat | k < n
      ensures |Pick(body(k), SpectrumOf)| == if p.useVna then |p.pwrs| else 0
    {
      PassPicks(p, v, envs, k);
    }
    PickConcatCount(n, body, SpectrumOf, if p.useVna then |p.pwrs| else 0);
  }

  /** Without the VNA the quit flag is never read: the loop has no quit check at all. */
  lemma NeverPolled(p: Params, v: VnaState, envs: Steps, n: nat)
    requires !p.useVna
    ensures Pick(Loop(p, v, envs, n), PollOf) == []
  {
    var body := (k: nat) => Pass(p, v, envs, k);
    forall k: nat | k < n
      ensures Pick(body(k), PollOf) == []
    {
      if k < |p.vgs| {
        PassPicks(p, v, envs, k);
      }
    }
    PickConcatNone(n, body, PollOf);
  }

  /**
   * After a sweep without a quit request the data file holds its earlier
   * lines, the header and one row per Vg value, in order.
   */
  lemma PlanFile(files: map<string, seq<Line>>, path: string, t0: seq<Event>, p: Params, v: VnaState, envs: Steps, folder: string)
    ensures var disk := DiskView(files, Some(path), Observables,
                                 t0 + (if p.useVna then [MakeDir(folder)] else []) + Loop(p, v, envs, |p.vgs|), |t0|);
      && path in disk
      && disk[path] == FileAt(files, path) + [Header(Observables)] + RowsOf(Observables, seq(|p.vgs|, (k: nat) => envs(k)))
  {
    var prologue: seq<Event> := if p.useVna then [MakeDir(folder)] else [];
    if p.useVna {
      PickOne(MakeDir(folder), SavedOf);
    }
    DiskAfterQuiet(files, path, Observables, t0, prologue, Loop(p, v, envs, |p.vgs|));
    PlanRows(p, v, envs);
  }

  // ------------------------------------------------------------ the script

  class Measurement {
    const base: MeasurementBase
    /** The instrument attributes `measure` has assigned. */
    var present: set<Attr>

    ghost predicate Valid()
      reads this, base
    {
      base.Valid() && NoQuitRule(base.alarms)
    }

    constructor (disk: map<string, seq<Line>>)
      ensures Valid() && fresh(base) && base.observables == Observables && base.alarms == DeclaredAlarms()
      ensures base.files == disk && base.dataFile == None && !base.quitRequested && base.trace == []
      ensures present == {}
    {
      base := new MeasurementBase(Observables, DeclaredAlarms(), disk);
      present := {};
    }

    /** The segment loop (vna_capa_Anritsu_powersweep.py:125-129): power x on both ports of every segment. */
    method Tune(x: real, segments: nat)
      requires Valid()
      modifies base`trace
      ensures Valid()
      ensures base.trace == old(base.trace) + Tunes(segments, x)
    {
      var i := 0;
      while i < segments
        invariant i <= segments
        invariant Valid()
        invariant base.trace == old(base.trace) + Tunes(i, x)
      {
        base.Record(Tuned(i + 1, 1, x));
        base.Record(Tuned(i + 1, 2, x));
        AppendAssoc(old(base.trace) + Tunes(i, x), [Tuned(i + 1, 1, x)], [Tuned(i + 1, 2, x)]);
        i := i + 1;
      }
    }

    /** One power step (vna_capa_Anritsu_powersweep.py:117-145); true when it stopped at the quit check. */
    method PowerStep(p: Params, v: VnaState, k: nat, j: nat, press: bool) returns (stop: bool)
      requires Valid() && k < |p.vgs| && j < |p.pwrs|
      modifies base`trace, base`quitRequested
      ensures Valid()
      ensures base.quitRequested == (old(base.quitRequested) || press)
      ensures stop == base.quitRequested
      ensures stop ==> base.trace == old(base.trace) + [Poll]
      ensures !stop ==> base.trace == old(base.trace) + PowerPass(p, v, k, j)
    {
      stop := base.PollQuit(press);
      if stop {
        return;
      }
      var pwrToSet := p.pwrs[j] + v.att1;
      Tune(pwrToSet, v.segments);
      base.Record(Spectrum([p.vgs[k], p.pwrs[j]]));
    }

    /** The power loop at gate step k (vna_capa_Anritsu_powersweep.py:117-145); `j` is the power it stopped at. */
    method PowerSweep(p: Params, v: VnaState, k: nat, press: (nat, nat) -> bool) returns (stopped: bool, ghost j: nat)
      requires Valid() && k < |p.vgs|
      modifies base`trace, base`quitRequested
      ensures Valid()
      ensures !stopped ==>
        (base.quitRequested ==> old(base.quitRequested)) && base.trace == old(base.trace) + PowerLoop(p, v, k, |p.pwrs|)
      ensures stopped ==>
        j < |p.pwrs| && base.quitRequested && base.trace == old(base.trace) + PowerLoop(p, v, k, j) + [Poll]
      ensures !old(base.quitRequested) && (forall i: nat :: !press(k, i)) ==> !stopped
    {
      ghost var t0 := base.trace;
      var n := 0;
      j := 0;
      stopped := false;
      while n < |p.pwrs|
        invariant n <= |p.pwrs| && j == n && !stopped
        invariant Valid()
        invariant base.trace == t0 + PowerLoop(p, v, k, n)
        invariant base.quitRequested ==> old(base.quitRequested)
      {
        stopped := PowerStep(p, v, k, n, press(k, n));
        if stopped {
          return;
        }
        n := n + 1;
        j := n;
      }
    }

    /** Vg set, then the row saved and its alarms checked (vna_capa_Anritsu_powersweep.py:99-115). */
    method MeasurePoint(p: Params, m: Meters, ghost envs: Steps, k: nat)
      requires Valid() && StepsOf(envs, p, m) && k < |p.vgs| && base.dataFile.Some?
      modifies base`trace, base`quitRequested
      ensures Valid()
      ensures base.quitRequested == old(base.quitRequested)
      ensures base.trace == old(base.trace) + Point(p, envs, k)
    {
      base.Record(Set(VG, p.vgs[k]));
      var env := StepEnv(p, m, k);
      assert env == envs(k);
      var _ := base.SaveRow(env);
      NoQuitRuleNoQuit(base.alarms, env);
    }

    /**
     * One gate step (vna_capa_Anritsu_powersweep.py:97-145), after the first k
     * steps have added their events to `t0`; true when the power loop stopped
     * at a quit check.
     */
    method Step(p: Params, m: Meters, v: VnaState, ghost envs: Steps, press: (nat, nat) -> bool, k: nat, ghost t0: seq<Event>)
      returns (stopped: bool, ghost j: nat)
      requires Valid() && StepsOf(envs, p, m) && k < |p.vgs| && base.dataFile.Some?
      requires base.trace == t0 + Loop(p, v, envs, k)
      modifies base`trace, base`quitRequested
      ensures Valid()
      ensures !stopped ==>
        (base.quitRequested ==> old(base.quitRequested)) && base.trace == t0 + Loop(p, v, envs, k + 1)
      ensures stopped ==>
        p.useVna && j < |p.pwrs| && base.quitRequested &&
        base.trace == t0 + Loop(p, v, envs, k) + Point(p, envs, k) + PowerLoop(p, v, k, j) + [Poll]
      ensures !old(base.quitRequested) && (forall i: nat :: !press(k, i)) ==> !stopped
    {
      j := 0;
      stopped := false;
      MeasurePoint(p, m, envs, k);
      ghost var t1 := base.trace;
      assert t1 == t0 + Loop(p, v, envs, k) + Point(p, envs, k);
      ghost var rest: seq<Event> := [];
      if p.useVna {
        stopped, j := PowerSweep(p, v, k, press);
        if stopped {
          AppendAssoc4(t0, Loop(p, v, envs, k), Point(p, envs, k), PowerLoop(p, v, k, j), [Poll]);
          return;
        }
        rest := PowerLoop(p, v, k, |p.pwrs|);
      }
      assert base.trace == t1 + rest;
      assert Pass(p, v, envs, k) == Point(p, envs, k) + rest;
      AppendAssoc(t0 + Loop(p, v, envs, k), Point(p, envs, k), rest);
      ConcatNext(base.trace, t0, k, (i: nat) => Pass(p, v, envs, i), Pass(p, v, envs, k));
    }

    /** The Vg loop (vna_capa_Anritsu_powersweep.py:97-145); it stopped at gate step `k`, power step `j`. */
    method Sweep(p: Params, m: Meters, v: VnaState, ghost envs: Steps, press: (nat, nat) -> bool)
      returns (stopped: bool, ghost k: nat, ghost j: nat)
      requires Valid() && StepsOf(envs, p, m) && base.dataFile.Some?
      modifies base`trace, base`quitRequested
      ensures Valid()
      ensures !stopped ==>
        (base.quitRequested ==> old(base.quitRequested)) && base.trace == old(base.trace) + Loop(p, v, envs, |p.vgs|)
      ensures stopped ==>
        p.useVna && k < |p.vgs| && j < |p.pwrs| && base.quitRequested &&
        base.trace == old(base.trace) + Loop(p, v, envs, k) + Point(p, envs, k) + PowerLoop(p, v, k, j) + [Poll]
      ensures !old(base.quitRequested) && (forall a: nat, b: nat :: !press(a, b)) ==> !stopped
    {
      ghost var t0 := base.trace;
      var n := 0;
      k, j := 0, 0;
      stopped := false;
      while n < |p.vgs|
        invariant n <= |p.vgs| && k == n && !stopped
        invariant Valid() && base.dataFile.Some?
        invariant base.trace == t0 + Loop(p, v, envs, n)
        invariant base.quitRequested ==> old(base.quitRequested)
      {
        stopped, j := Step(p, m, v, envs, press, n, t0);
        if stopped {
          return;
        }
        n := n + 1;
        k := n;
      }
    }

    /**
     * `measure` (vna_capa_Anritsu_powersweep.py:41-149): the Bilt source and
     * meter, the Yokogawa's chuck voltage when recorded, the VNA and its
     * attenuator check, the data file, then with the VNA the spectra folder
     * and the sweep-type check, then the Vg loop. `vna` is what the VNA
     * answers, `chuck` what the Yokogawa reads, `fmt1` the `{:.1f}`
     * formatting, `press(k, j)` whether stop was pressed before the quit
     * check at gate step k, power step j.
     */
    method Measure(
      p: Params, m: Meters, vna: VnaState, chuck: real, fmt1: real -> string, press: (nat, nat) -> bool,
      setup: Setup, ts: string)
      returns (outcome: Outcome, ghost k: nat, ghost j: nat)
      requires Valid()
      modifies this`present, base`trace, base`dataFile, base`openedAt, base`quitRequested
      ensures Valid()
      ensures present == Assigned(Constructions(p.useChuck), setup)
      ensures setup.Breaks? ==>
        outcome == Failed(setup.error) && base.trace == old(base.trace) &&
        base.dataFile == old(base.dataFile) && base.openedAt == old(base.openedAt)
      ensures setup.Ready? && vna.att1 != vna.att2 ==>
        outcome == Failed(BARE_EXCEPTION) && base.trace == old(base.trace) &&
        base.dataFile == old(base.dataFile) && base.openedAt == old(base.openedAt)
      ensures setup.Ready? && vna.att1 == vna.att2 && old(base.dataFile).Some? ==>
        outcome == Failed(NOT_CLOSED) &&
        base.trace == old(base.trace) && base.dataFile == old(base.dataFile) && base.openedAt == old(base.openedAt)
      ensures setup.Ready? && vna.att1 == vna.att2 && old(base.dataFile).None? ==>
        var title := RunTitle(p, chuck, fmt1, ts);
        var folder := PathJoin(p.dataDir, title);
        var envs := StepEnvs(p, m);
        && base.dataFile == Some(PathJoin(p.dataDir, title + ".txt"))
        && base.openedAt == |old(base.trace)|
        && (p.useVna && vna.sweepType != "FSEGM" ==>
              outcome == Failed(BARE_EXCEPTION) && base.trace == old(base.trace) + [MakeDir(folder)])
        && (p.useVna && vna.sweepType == "FSEGM" ==>
              && !outcome.Failed?
              && (outcome == Completed ==> base.trace == old(base.trace) + [MakeDir(folder)] + Loop(p, vna, envs, |p.vgs|))
              && (outcome == Stopped ==>
                    k < |p.vgs| && j < |p.pwrs| && base.quitRequested &&
                    base.trace == old(base.trace) + [MakeDir(folder)] + Loop(p, vna, envs, k) + Point(p, envs, k) +
                                  PowerLoop(p, vna, k, j) + [Poll])
              && ((!old(base.quitRequested) && forall a: nat, b: nat :: !press(a, b)) ==> outcome == Completed))
        && (!p.useVna ==> outcome == Completed && base.trace == old(base.trace) + Loop(p, vna, envs, |p.vgs|))
    {
      present := Assigned(Constructions(p.useChuck), setup);
      k, j := 0, 0;
      if setup.Breaks? {
        return Failed(setup.error), k, j;
      }
      if vna.att1 != vna.att2 {
        return Failed(BARE_EXCEPTION), k, j;
      }
      var name := MesureCapacitor.RunName(ts, if p.useChuck then "_Vchuck=" + fmt1(chuck) else "", p.comment);
      assert name == RunTitle(p, chuck, fmt1, ts);
      var raised := base.PrepareSaving(PathJoin(p.dataDir, name + ".txt"));
      if raised.Some? {
        return Failed(raised.value), k, j;
      }
      if p.useVna {
        base.Record(MakeDir(PathJoin(p.dataDir, name)));
        if vna.sweepType != "FSEGM" {
          return Failed(BARE_EXCEPTION), k, j;
        }
      }
      StepEnvsSteps(p, m);
      var stopped;
      stopped, k, j := Sweep(p, m, vna, StepEnvs(p, m), press);
      outcome := if stopped then Stopped else Completed;
    }

    /** `tidy_up` (vna_capa_Anritsu_powersweep.py:151-154): close the data file, then Vg to 0. */
    method TidyUp() returns (raised: Option<string>)
      requires Valid()
      modifies base`trace, base`dataFile, base`files
      ensures Valid() && base.dataFile == None && base.files == old(base.Disk())
      ensures var n := Covered(ZeroOrder, present);
        base.trace == old(base.trace) + [Teardown] +
                      (if old(base.dataFile).Some? then [Closed(old(base.dataFile).value)] else []) +
                      ZeroSets(ZeroOrder[..n]) &&
        raised == (if n == |ZeroOrder| then None else Some(NoAttribute(ZeroOrder[n])))
    {
      base.Record(Teardown);
      RowsSinceOther(old(base.trace), base.openedAt, Teardown);
      base.EndSaving();
      raised := base.ZeroSources(ZeroOrder, present);
    }
  }
}
