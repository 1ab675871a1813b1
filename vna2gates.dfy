// modules/vna2gates.py: a drain voltage and two gate voltages swept in three
// nested loops (Vds outer, Vg2, Vg1 inner) on Bilt sources, the drain and
// the second gate read back on Bilt voltmeters, two temperatures read on a
// temperature controller, one data row per step and, with the VNA, one
// spectrum per row.
module Vna2Gates {
  import opened Common
  import opened Mascril
  import MesureCapacitor

  const Observables: seq<string> := ["Vg1", "Vg2", "Vg2m", "Ileak2", "Vds", "Vdsm", "Rs", "Ta", "Tb"]

  /** The sources, by their rank among the instrument objects. */
  const VDS: nat := 1
  const VG1: nat := 2
  const VG2: nat := 3

  const SourceVds := Attr(VDS, "sourceVds")
  const SourceVg1 := Attr(VG1, "sourceVg1")
  const SourceVg2 := Attr(VG2, "sourceVg2")

  /**
   * What `measure` creates, in order: the Bilt frame (a local), three sources
   * and two voltmeters; with the VNA, the VNA (a local) and its frequency
   * list; then the temperature controller (a local).
   */
  function Constructions(useVna: bool): seq<Attr>
  {
    [Attr(0, "bilt"), SourceVds, SourceVg1, SourceVg2, Attr(4, "meterVds"), Attr(5, "meterVg2")] +
    (if useVna then [Attr(6, "vna"), Attr(7, "freqs")] else []) +
    [Attr(8, "tc")]
  }

  /** The sources `tidy_up` drives back to zero, in its order. */
  const ZeroOrder: seq<Attr> := [SourceVds, SourceVg1, SourceVg2]

  /** One leak-current alert and the gate-to-gate voltage on display. */
  function DeclaredAlarms(): seq<Alarm>
  {
    [ Alarm("np.abs(Ileak2) > 1e-8", Bin(Gt, AbsOf(Name("Ileak2")), Lit(Num(0.00000001))), ALARM_CALLCOPS),
      Alarm("np.abs(Vg1-Vg2)", AbsOf(Bin(Sub, Name("Vg1"), Name("Vg2"))), ALARM_SHOWVALUE) ]
  }

  datatype Params = Params(
    dataDir: string, comment: string, vdss: seq<real>, vg1s: seq<real>, vg2s: seq<real>,
    commongate: bool, rg2: real, rds: real, stabiliseTime: real, useVna: bool)

  /** What the two voltmeters and the two thermometers read at step (i, j, k) of the Vds, Vg2 and Vg1 loops. */
  datatype Meters = Meters(vdsm: (nat, nat, nat) -> real, vg2m: (nat, nat, nat) -> real,
                           ta: (nat, nat, nat) -> real, tb: (nat, nat, nat) -> real)

  /** The run's name: the timestamp, then `_comment` for a non-empty comment. */
  function RunTitle(p: Params, ts: string): string
  {
    MesureCapacitor.RunName(ts, "", p.comment)
  }

  predicate Within(p: Params, i: nat, j: nat, k: nat)
  {
    i < |p.vdss| && j < |p.vg2s| && k < |p.vg1s|
  }

  /** The second gate's voltage at a step: Vg1 itself under commongate. */
  function Gate2(p: Params, j: nat, k: nat): real
    requires j < |p.vg2s| && k < |p.vg1s|
  {
    if p.commongate then p.vg1s[k] else p.vg2s[j]
  }

  // ------------------------------------------------------------- a step

  function StepValues(p: Params, m: Meters, i: nat, j: nat, k: nat): seq<Value>
    requires Within(p, i, j, k)
  {
    var vg2 := Gate2(p, j, k);
    var vds := p.vdss[i];
    [ Num(p.vg1s[k]), Num(vg2), Num(m.vg2m(i, j, k)), LeakCurrent(vg2, m.vg2m(i, j, k), p.rg2),
      Num(vds), Num(m.vdsm(i, j, k)), SeriesResistance(p.rds, vds, m.vdsm(i, j, k)),
      Num(m.ta(i, j, k)), Num(m.tb(i, j, k)) ]
  }

  function StepEnv(p: Params, m: Meters, i: nat, j: nat, k: nat): Env
    requires Within(p, i, j, k)
  {
    Bind(Observables, StepValues(p, m, i, j, k))
  }

  /**
   * A step records the voltages it set (Vg2 is Vg1 under commongate), the two
   * readings, both temperatures, the leak current through Rg2 and the series
   * resistance seen from Rds.
   */
  lemma StepRecords(p: Params, m: Meters, i: nat, j: nat, k: nat)
    requires Within(p, i, j, k)
    ensures var env := StepEnv(p, m, i, j, k);
      && "Vg1" in env && env["Vg1"] == Num(p.vg1s[k]) && "Vg2" in env && env["Vg2"] == Num(Gate2(p, j, k))
      && "Vds" in env && env["Vds"] == Num(p.vdss[i])
      && "Vg2m" in env && env["Vg2m"] == Num(m.vg2m(i, j, k)) && "Vdsm" in env && env["Vdsm"] == Num(m.vdsm(i, j, k))
      && "Ta" in env && env["Ta"] == Num(m.ta(i, j, k)) && "Tb" in env && env["Tb"] == Num(m.tb(i, j, k))
      && "Ileak2" in env && env["Ileak2"] == LeakCurrent(Gate2(p, j, k), m.vg2m(i, j, k), p.rg2)
      && "Rs" in env && env["Rs"] == SeriesResistance(p.rds, p.vdss[i], m.vdsm(i, j, k))
  {
    var values := StepValues(p, m, i, j, k);
    assert Distinct(Observables);
    BindLookup(Observables, values, 0);
    BindLookup(Observables, values, 1);
    BindLookup(Observables, values, 2);
    BindLookup(Observables, values, 3);
    BindLookup(Observables, values, 4);
    BindLookup(Observables, values, 5);
    BindLookup(Observables, values, 6);
    BindLookup(Observables, values, 7);
    BindLookup(Observables, values, 8);
  }

  // ------------------------------------------------------------- the plan

  type Steps = (nat, nat, nat) -> Env

  function StepEnvs(p: Params, m: Meters): Steps
  {
    (i: nat, j: nat, k: nat) => if Within(p, i, j, k) then StepEnv(p, m, i, j, k) else map[]
  }

  /** `envs` gives the bindings of every step; the quantifier fires only where a step's bindings are computed. */
  ghost predicate StepsOf(envs: Steps, p: Params, m: Meters)
  {
    forall i: nat, j: nat, k: nat {:trigger StepEnv(p, m, i, j, k)} ::
      Within(p, i, j, k) ==> envs(i, j, k) == StepEnv(p, m, i, j, k)
  }

  lemma StepEnvsSteps(p: Params, m: Meters)
    ensures StepsOf(StepEnvs(p, m), p, m)
  {
  }

  /** A spectrum's name carries Vg1, Vg2 and Vds, in that order. */
  function Tags(p: Params, i: nat, j: nat, k: nat): seq<real>
    requires Within(p, i, j, k)
  {
    [p.vg1s[k], Gate2(p, j, k), p.vdss[i]]
  }

  /** The voltages set after the quit check: Vg1, and Vg2 with it under commongate. */
  function Gates(p: Params, k: nat): seq<Event>
    requires k < |p.vg1s|
  {
    [Set(VG1, p.vg1s[k])] + (if p.commongate then [Set(VG2, p.vg1s[k])] else [])
  }

  /** The row, its alarms, then with the VNA the spectrum. */
  function Record(p: Params, envs: Steps, i: nat, j: nat, k: nat): seq<Event>
    requires Within(p, i, j, k)
  {
    [Saved(envs(i, j, k)), Alarms(envs(i, j, k))] + (if p.useVna then [Spectrum(Tags(p, i, j, k))] else [])
  }

  /** One pass of the Vg1 loop: the quit check, the gates, then the record. */
  function Pass(p: Params, envs: Steps, i: nat, j: nat, k: nat): seq<Event>
  {
    if Within(p, i, j, k) then [Poll] + Gates(p, k) + Record(p, envs, i, j, k) else []
  }

  /** The Vg1 loop's first n passes inside Vds iteration i and Vg2 iteration j. */
  function Inner(p: Params, envs: Steps, i: nat, j: nat, n: nat): seq<Event>
  {
    Concat(n, (k: nat) => Pass(p, envs, i, j, k))
  }

  /** What a Vg2 iteration sends before its Vg1 loop: Vg2, unless commongate. */
  function Gate2Head(p: Params, j: nat): seq<Event>
  {
    if p.commongate || j >= |p.vg2s| then [] else [Set(VG2, p.vg2s[j])]
  }

  function MiddlePass(p: Params, envs: Steps, i: nat, j: nat): seq<Event>
  {
    Gate2Head(p, j) + Inner(p, envs, i, j, |p.vg1s|)
  }

  /** The Vg2 loop's first n iterations inside Vds iteration i. */
  function Middle(p: Params, envs: Steps, i: nat, n: nat): seq<Event>
  {
    Concat(n, (j: nat) => MiddlePass(p, envs, i, j))
  }

  /** What a Vds iteration sends before its Vg2 loop. */
  function DrainHead(p: Params, i: nat): seq<Event>
  {
    if i < |p.vdss| then [Set(VDS, p.vdss[i])] else []
  }

  function OuterPass(p: Params, envs: Steps, i: nat): seq<Event>
  {
    DrainHead(p, i) + Middle(p, envs, i, |p.vg2s|)
  }

  /** The Vds loop's first n iterations. */
  function Outer(p: Params, envs: Steps, n: nat): seq<Event>
  {
    Concat(n, (i: nat) => OuterPass(p, envs, i))
  }

  /** Everything the three loops do when no quit check sees the flag set. */
  function Plan(p: Params, envs: Steps): seq<Event>
  {
    Outer(p, envs, |p.vdss|)
  }

  /** Everything the loops did up to the quit check of step (i, j, k) that saw the flag set. */
  function StoppedAt(p: Params, envs: Steps, i: nat, j: nat, k: nat): seq<Event>
  {
    Outer(p, envs, i) + DrainHead(p, i) + Middle(p, envs, i, j) + Gate2Head(p, j) + Inner(p, envs, i, j, k) + [Poll]
  }

  // ------------------------------------------------- what the plan sends

  /** Whether `src` follows the Vg1 values: sourceVg1, and sourceVg2 under commongate. */
  predicate FollowsVg1(p: Params, src: nat)
  {
    src == VG1 || (p.commongate && src == VG2)
  }

  /** Whatever `f` finds in the quit check, the gates and the record of a step. */
  lemma PassPick<T>(p: Params, envs: Steps, i: nat, j: nat, k: nat, f: Event -> seq<T>)
    requires Within(p, i, j, k)
    ensures Pick(Pass(p, envs, i, j, k), f) ==
            f(Poll) + Pick(Gates(p, k), f) + f(Saved(envs(i, j, k))) + f(Alarms(envs(i, j, k))) +
            (if p.useVna then f(Spectrum(Tags(p, i, j, k))) else [])
  {
    PickThree([Poll], Gates(p, k), Record(p, envs, i, j, k), f);
    PickOne(Poll, f);
    RecordPick(p, envs, i, j, k, f);
  }

  /** The record of one step, seen through `f`. */
  lemma RecordPick<T>(p: Params, envs: Steps, i: nat, j: nat, k: nat, f: Event -> seq<T>)
    requires Within(p, i, j, k)
    ensures Pick(Record(p, envs, i, j, k), f) ==
            f(Saved(envs(i, j, k))) + f(Alarms(envs(i, j, k))) + (if p.useVna then f(Spectrum(Tags(p, i, j, k))) else [])
  {
    var head: seq<Event> := [Saved(envs(i, j, k)), Alarms(envs(i, j, k))];
    var tail: seq<Event> := if p.useVna then [Spectrum(Tags(p, i, j, k))] else [];
    PickAppend(head, tail, f);
    PickTwo(Saved(envs(i, j, k)), Alarms(envs(i, j, k)), f);
    if p.useVna {
      PickOne(Spectrum(Tags(p, i, j, k)), f);
    }
  }

  lemma PassPicks(p: Params, envs: Steps, i: nat, j: nat, k: nat, src: nat)
    requires Within(p, i, j, k)
    ensures SetValues(Pass(p, envs, i, j, k), src) == if FollowsVg1(p, src) then [p.vg1s[k]] else []
    ensures SavedEnvs(Pass(p, envs, i, j, k)) == [envs(i, j, k)]
    ensures Pick(Pass(p, envs, i, j, k), SpectrumOf) == if p.useVna then [Tags(p, i, j, k)] else []
  {
    GatesPick(p, k, SetOf(src));
    GatesPick(p, k, SavedOf);
    GatesPick(p, k, SpectrumOf);
    PassPick(p, envs, i, j, k, SetOf(src));
    PassPick(p, envs, i, j, k, SavedOf);
    PassPick(p, envs, i, j, k, SpectrumOf);
  }

  /** The gate commands of one step, seen through `f`. */
  lemma GatesPick<T>(p: Params, k: nat, f: Event -> seq<T>)
    requires k < |p.vg1s|
    ensures Pick(Gates(p, k), f) == f(Set(VG1, p.vg1s[k])) + (if p.commongate then f(Set(VG2, p.vg1s[k])) else [])
  {
    var a := [Set(VG1, p.vg1s[k])];
    var b: seq<Event> := if p.commongate then [Set(VG2, p.vg1s[k])] else [];
    PickAppend(a, b, f);
    PickOne(Set(VG1, p.vg1s[k]), f);
    if p.commongate {
      PickOne(Set(VG2, p.vg1s[k]), f);
    }
  }

  /** The Vg1 loop: the Vg1 values in order to the sources that follow Vg1, one row and, with the VNA, one spectrum per value. */
  lemma InnerPicks(p: Params, envs: Steps, i: nat, j: nat, src: nat)
    requires i < |p.vdss| && j < |p.vg2s|
    ensures SetValues(Inner(p, envs, i, j, |p.vg1s|), src) == if FollowsVg1(p, src) then p.vg1s else []
    ensures |SavedEnvs(Inner(p, envs, i, j, |p.vg1s|))| == |p.vg1s|
    ensures |Pick(Inner(p, envs, i, j, |p.vg1s|), SpectrumOf)| == if p.useVna then |p.vg1s| else 0
  {
    var n := |p.vg1s|;
    var body := (k: nat) => Pass(p, envs, i, j, k);
    forall k: nat | k < n
      ensures Pick(body(k), SetOf(src)) == if FollowsVg1(p, src) then [p.vg1s[k]] else []
    {
      PassPicks(p, envs, i, j, k, src);
    }
    if FollowsVg1(p, src) {
      PickConcatEach(n, body, SetOf(src), p.vg1s);
    } else {
      PickConcatNone(n, body, SetOf(src));
    }
    InnerCounts(p, envs, i, j);
  }

  lemma InnerCounts(p: Params, envs: Steps, i: nat, j: nat)
    requires i < |p.vdss| && j < |p.vg2s|
    ensures |SavedEnvs(Inner(p, envs, i, j, |p.vg1s|))| == |p.vg1s|
    ensures |Pick(Inner(p, envs, i, j, |p.vg1s|), SpectrumOf)| == if p.useVna then |p.vg1s| else 0
  {
    var n := |p.vg1s|;
    var body := (k: nat) => Pass(p, envs, i, j, k);
    forall k: nat | k < n
      ensures |Pick(body(k), SavedOf)| == 1
      ensures |Pick(body(k), SpectrumOf)| == if p.useVna then 1 else 0
    {
      PassPicks(p, envs, i, j, k, 0);
    }
    PickConcatCount(n, body, SavedOf, 1);
    if p.useVna {
      PickConcatCount(n, body, SpectrumOf, 1);
    } else {
      PickConcatCount(n, body, SpectrumOf, 0);
    }
  }

  /** What one Vg2 iteration sends to `src`. */
  function MiddleSent(p: Params, j: nat, src: nat): seq<real>
  {
    (if !p.commongate && src == VG2 && j < |p.vg2s| then [p.vg2s[j]] else []) +
    (if FollowsVg1(p, src) then p.vg1s else [])
  }

  lemma MiddlePicks(p: Params, envs: Steps, i: nat, j: nat, src: nat)
    requires i < |p.vdss| && j < |p.vg2s|
    ensures SetValues(MiddlePass(p, envs, i, j), src) == MiddleSent(p, j, src)
    ensures |SavedEnvs(MiddlePass(p, envs, i, j))| == |p.vg1s|
    ensures |Pick(MiddlePass(p, envs, i, j), SpectrumOf)| == if p.useVna then |p.vg1s| else 0
  {
    var inner := Inner(p, envs, i, j, |p.vg1s|);
    PickAppend(Gate2Head(p, j), inner, SetOf(src));
    PickAppend(Gate2Head(p, j), inner, SavedOf);
    PickAppend(Gate2Head(p, j), inner, SpectrumOf);
    if !p.commongate {
      PickOne(Set(VG2, p.vg2s[j]), SetOf(src));
      PickOne(Set(VG2, p.vg2s[j]), SavedOf);
      PickOne(Set(VG2, p.vg2s[j]), SpectrumOf);
    }
    InnerPicks(p, envs, i, j, src);
  }

  /** The Vg2 loop inside one Vds iteration. */
  lemma MiddleLoopPicks(p: Params, envs: Steps, i: nat, src: nat)
    requires i < |p.vdss|
    ensures SetValues(Middle(p, envs, i, |p.vg2s|), src) ==
            if FollowsVg1(p, src) then Repeat(p.vg1s, |p.vg2s|) else if src == VG2 then p.vg2s else []
    ensures |SavedEnvs(Middle(p, envs, i, |p.vg2s|))| == |p.vg2s| * |p.vg1s|
    ensures |Pick(Middle(p, envs, i, |p.vg2s|), SpectrumOf)| == if p.useVna then |p.vg2s| * |p.vg1s| else 0
  {
    MiddleLoopSets(p, envs, i, src);
    MiddleLoopRows(p, envs, i);
    MiddleLoopSpectra(p, envs, i);
  }

  lemma MiddleLoopSets(p: Params, envs: Steps, i: nat, src: nat)
    requires i < |p.vdss|
    ensures SetValues(Middle(p, envs, i, |p.vg2s|), src) ==
            if FollowsVg1(p, src) then Repeat(p.vg1s, |p.vg2s|) else if src == VG2 then p.vg2s else []
  {
    var n := |p.vg2s|;
    var body := (j: nat) => MiddlePass(p, envs, i, j);
    forall j: nat | j < n
      ensures Pick(body(j), SetOf(src)) == MiddleSent(p, j, src)
    {
      MiddlePicks(p, envs, i, j, src);
    }
    if FollowsVg1(p, src) {
      PickConcatRepeat(n, body, SetOf(src), p.vg1s);
    } else if src == VG2 {
      PickConcatEach(n, body, SetOf(src), p.vg2s);
    } else {
      PickConcatNone(n, body, SetOf(src));
    }
  }

  lemma MiddleLoopRows(p: Params, envs: Steps, i: nat)
    requires i < |p.vdss|
    ensures |SavedEnvs(Middle(p, envs, i, |p.vg2s|))| == |p.vg2s| * |p.vg1s|
  {
    var n := |p.vg2s|;
    var body := (j: nat) => MiddlePass(p, envs, i, j);
    forall j: nat | j < n
      ensures |Pick(body(j), SavedOf)| == |p.vg1s|
    {
      MiddlePicks(p, envs, i, j, VDS);
    }
    PickConcatCount(n, body, SavedOf, |p.vg1s|);
  }

  lemma MiddleLoopSpectra(p: Params, envs: Steps, i: nat)
    requires i < |p.vdss|
    ensures |Pick(Middle(p, envs, i, |p.vg2s|), SpectrumOf)| == if p.useVna then |p.vg2s| * |p.vg1s| else 0
  {
    var n := |p.vg2s|;
    var body := (j: nat) => MiddlePass(p, envs, i, j);
    var each := if p.useVna then |p.vg1s| else 0;
    forall j: nat | j < n
      ensures |Pick(body(j), SpectrumOf)| == each
    {
      MiddlePicks(p, envs, i, j, VDS);
    }
    PickConcatCount(n, body, SpectrumOf, each);
  }

  /** What one Vds iteration sends to `src`. */
  function OuterSent(p: Params, i: nat, src: nat): seq<real>
  {
    (if src == VDS && i < |p.vdss| then [p.vdss[i]] else []) +
    (if FollowsVg1(p, src) then Repeat(p.vg1s, |p.vg2s|) else if src == VG2 then p.vg2s else [])
  }

  lemma OuterPicks(p: Params, envs: Steps, i: nat, src: nat)
    requires i < |p.vdss|
    ensures SetValues(OuterPass(p, envs, i), src) == OuterSent(p, i, src)
    ensures |SavedEnvs(OuterPass(p, envs, i))| == |p.vg2s| * |p.vg1s|
    ensures |Pick(OuterPass(p, envs, i), SpectrumOf)| == if p.useVna then |p.vg2s| * |p.vg1s| else 0
  {
    OuterSets(p, envs, i, src);
    OuterRows(p, envs, i);
    OuterSpectra(p, envs, i);
  }

  lemma OuterSets(p: Params, envs: Steps, i: nat, src: nat)
    requires i < |p.vdss|
    ensures SetValues(OuterPass(p, envs, i), src) == OuterSent(p, i, src)
  {
    PickAppend(DrainHead(p, i), Middle(p, envs, i, |p.vg2s|), SetOf(src));
    PickOne(Set(VDS, p.vdss[i]), SetOf(src));
    MiddleLoopSets(p, envs, i, src);
  }

  lemma OuterRows(p: Params, envs: Steps, i: nat)
    requires i < |p.vdss|
    ensures |SavedEnvs(OuterPass(p, envs, i))| == |p.vg2s| * |p.vg1s|
  {
    PickAppend(DrainHead(p, i), Middle(p, envs, i, |p.vg2s|), SavedOf);
    PickOne(Set(VDS, p.vdss[i]), SavedOf);
    MiddleLoopRows(p, envs, i);
  }

  lemma OuterSpectra(p: Params, envs: Steps, i: nat)
    requires i < |p.vdss|
    ensures |Pick(OuterPass(p, envs, i), SpectrumOf)| == if p.useVna then |p.vg2s| * |p.vg1s| else 0
  {
    PickAppend(DrainHead(p, i), Middle(p, envs, i, |p.vg2s|), SpectrumOf);
    PickOne(Set(VDS, p.vdss[i]), SpectrumOf);
    MiddleLoopSpectra(p, envs, i);
  }

  /**
   * Without a quit request: each Vds value is sent once, in order; the sources
   * that follow Vg1 run through the Vg1 values once per (Vds, Vg2) pair;
   * sourceVg2 otherwise runs through the Vg2 values once per Vds value, and
   * under commongate never receives a Vg2 value.
   */
  lemma PlanSets(p: Params, envs: Steps, src: nat)
    ensures SetValues(Plan(p, envs), src) ==
            if src == VDS then p.vdss
            else if FollowsVg1(p, src) then Repeat(Repeat(p.vg1s, |p.vg2s|), |p.vdss|)
            else if src == VG2 then Repeat(p.vg2s, |p.vdss|)
            else []
  {
    var n := |p.vdss|;
    var body := (i: nat) => OuterPass(p, envs, i);
    if src == VDS {
      forall i: nat | i < n
        ensures Pick(body(i), SetOf(src)) == [p.vdss[i]]
      {
        OuterPicks(p, envs, i, src);
      }
      PickConcatEach(n, body, SetOf(src), p.vdss);
    } else {
      var s := if FollowsVg1(p, src) then Repeat(p.vg1s, |p.vg2s|) else if src == VG2 then p.vg2s else [];
      forall i: nat | i < n
        ensures Pick(body(i), SetOf(src)) == s
      {
        OuterPicks(p, envs, i, src);
      }
      PickConcatRepeat(n, body, SetOf(src), s);
      if s == [] {
        RepeatEmpty<real>(n);
      }
    }
  }

  /** Without a quit request: |Vdss|·|Vg2s|·|Vg1s| rows. */
  lemma PlanRows(p: Params, envs: Steps)
    ensures |SavedEnvs(Plan(p, envs))| == |p.vdss| * (|p.vg2s| * |p.vg1s|)
  {
    var n := |p.vdss|;
    var body := (i: nat) => OuterPass(p, envs, i);
    forall i: nat | i < n
      ensures |Pick(body(i), SavedOf)| == |p.vg2s| * |p.vg1s|
    {
      OuterPicks(p, envs, i, 0);
    }
    PickConcatCount(n, body, SavedOf, |p.vg2s| * |p.vg1s|);
  }

  /** Without a quit request and with the VNA, one spectrum per row; none without the VNA. */
  lemma PlanSpectra(p: Params, envs: Steps)
    ensures |Pick(Plan(p, envs), SpectrumOf)| == if p.useVna then |p.vdss| * (|p.vg2s| * |p.vg1s|) else 0
  {
    var n := |p.vdss|;
    var body := (i: nat) => OuterPass(p, envs, i);
    forall i: nat | i < n
      ensures |Pick(body(i), SpectrumOf)| == if p.useVna then |p.vg2s| * |p.vg1s| else 0
    {
      OuterPicks(p, envs, i, 0);
    }
    if p.useVna {
      PickConcatCount(n, body, SpectrumOf, |p.vg2s| * |p.vg1s|);
    } else {
      PickConcatCount(n, body, SpectrumOf, 0);
    }
  }

  /**
   * After a sweep without a quit request the data file holds its earlier
   * lines, the header and |Vdss|·|Vg2s|·|Vg1s| rows, one per step in order.
   */
  lemma PlanFile(files: map<string, seq<Line>>, path: string, t0: seq<Event>, p: Params, envs: Steps, folder: string)
    ensures var disk := DiskView(files, Some(path), Observables,
                                 t0 + (if p.useVna then [MakeDir(folder)] else []) + Plan(p, envs), |t0|);
      && path in disk
      && disk[path] == FileAt(files, path) + [Header(Observables)] + RowsOf(Observables, SavedEnvs(Plan(p, envs)))
      && |disk[path]| == |FileAt(files, path)| + 1 + |p.vdss| * (|p.vg2s| * |p.vg1s|)
  {
    var prologue: seq<Event> := if p.useVna then [MakeDir(folder)] else [];
    if p.useVna {
      PickOne(MakeDir(folder), SavedOf);
    }
    DiskAfterQuiet(files, path, Observables, t0, prologue, Plan(p, envs));
    PlanRows(p, envs);
  }

  // ------------------------------------------------------------ the script

  class Measurement {
    const base: MeasurementBase
    /** The instrument attributes `measure` has assigned. */
    var present: set<Attr>

    ghost predicate Valid()
      reads this, base
    {
      base.Valid() && NoQuitRule(base.alarms)
    }

    constructor (disk: map<string, seq<Line>>)
      ensures Valid() && fresh(base) && base.observables == Observables && base.alarms == DeclaredAlarms()
      ensures base.files == disk && base.dataFile == None && !base.quitRequested && base.trace == []
      ensures present == {}
    {
      base := new MeasurementBase(Observables, DeclaredAlarms(), disk);
      present := {};
    }

    /** The gates, the row, its alarms and with the VNA the spectrum (vna2gates.py:97-125). */
    method MeasurePoint(p: Params, m: Meters, ghost envs: Steps, i: nat, j: nat, k: nat)
      requires Valid() && StepsOf(envs, p, m) && Within(p, i, j, k) && base.dataFile.Some?
      modifies base`trace, base`quitRequested
      ensures Valid()
      ensures base.quitRequested == old(base.quitRequested)
      ensures base.trace == old(base.trace) + Gates(p, k) + Record(p, envs, i, j, k)
    {
      var vg1 := p.vg1s[k];
      base.Record(Set(VG1, vg1));
      if p.commongate {
        base.Record(Set(VG2, vg1));
      }
      ghost var t1 := base.trace;
      assert t1 == old(base.trace) + Gates(p, k);
      var env := StepEnv(p, m, i, j, k);
      assert env == envs(i, j, k);
      var _ := base.SaveRow(env);
      NoQuitRuleNoQuit(base.alarms, env);
      if p.useVna {
        base.Record(Spectrum([vg1, Gate2(p, j, k), p.vdss[i]]));
      }
      AppendAssoc(old(base.trace), Gates(p, k), Record(p, envs, i, j, k));
    }

    /** One pass of the Vg1 loop body (vna2gates.py:93-125); true when it stopped at the quit check. */
    method Step(p: Params, m: Meters, ghost envs: Steps, press: bool, i: nat, j: nat, k: nat) returns (quit: bool)
      requires Valid() && StepsOf(envs, p, m) && Within(p, i, j, k) && base.dataFile.Some?
      modifies base`trace, base`quitRequested
      ensures Valid()
      ensures quit == base.quitRequested == (old(base.quitRequested) || press)
      ensures base.trace == old(base.trace) + if quit then [Poll] else Pass(p, envs, i, j, k)
    {
      quit := base.PollQuit(press);
      if quit {
        return;
      }
      MeasurePoint(p, m, envs, i, j, k);
      AppendAssoc4(old(base.trace), [Poll], Gates(p, k), Record(p, envs, i, j, k), []);
    }

    /** The Vg1 loop inside Vds iteration i and Vg2 iteration j (vna2gates.py:93-125). */
    method SweepVg1(p: Params, m: Meters, ghost envs: Steps, press: (nat, nat, nat) -> bool, i: nat, j: nat)
      returns (quit: bool, ghost k: nat)
      requires Valid() && StepsOf(envs, p, m) && i < |p.vdss| && j < |p.vg2s| && base.dataFile.Some?
      modifies base`trace, base`quitRequested
      ensures Valid()
      ensures !quit ==>
        (base.quitRequested ==> old(base.quitRequested)) && base.trace == old(base.trace) + Inner(p, envs, i, j, |p.vg1s|)
      ensures quit ==>
        k < |p.vg1s| && base.quitRequested && base.trace == old(base.trace) + Inner(p, envs, i, j, k) + [Poll]
      ensures !old(base.quitRequested) && (forall n: nat :: !press(i, j, n)) ==> !quit
    {
      ghost var t0 := base.trace;
      var n := 0;
      k := 0;
      quit := false;
      while n < |p.vg1s|
        invariant n <= |p.vg1s| && k == n && !quit
        invariant Valid()
        invariant base.trace == t0 + Inner(p, envs, i, j, n)
        invariant base.quitRequested ==> old(base.quitRequested)
      {
        quit := Step(p, m, envs, press(i, j, n), i, j, n);
        if quit {
          return;
        }
        AppendAssoc(t0, Inner(p, envs, i, j, n), Pass(p, envs, i, j, n));
        n := n + 1;
        k := n;
      }
    }

    /**
     * One Vg2 iteration (vna2gates.py:90-125), after the first j have added
     * their events to `t0`: Vg2 unless commongate, then the Vg1 loop.
     */
    method StepVg2(p: Params, m: Meters, ghost envs: Steps, press: (nat, nat, nat) -> bool, i: nat, j: nat, ghost t0: seq<Event>)
      returns (quit: bool, ghost k: nat)
      requires Valid() && StepsOf(envs, p, m) && i < |p.vdss| && j < |p.vg2s| && base.dataFile.Some?
      requires base.trace == t0 + Middle(p, envs, i, j)
      modifies base`trace, base`quitRequested
      ensures Valid()
      ensures !quit ==>
        (base.quitRequested ==> old(base.quitRequested)) && base.trace == t0 + Middle(p, envs, i, j + 1)
      ensures quit ==>
        k < |p.vg1s| && base.quitRequested &&
        base.trace == t0 + Middle(p, envs, i, j) + Gate2Head(p, j) + Inner(p, envs, i, j, k) + [Poll]
      ensures !old(base.quitRequested) && (forall n: nat :: !press(i, j, n)) ==> !quit
    {
      if !p.commongate {
        base.Record(Set(VG2, p.vg2s[j]));
      }
      assert base.trace == t0 + Middle(p, envs, i, j) + Gate2Head(p, j);
      quit, k := SweepVg1(p, m, envs, press, i, j);
      if quit {
        AppendAssoc4(t0, Middle(p, envs, i, j), Gate2Head(p, j), Inner(p, envs, i, j, k), [Poll]);
      } else {
        AppendAssoc4(t0, Middle(p, envs, i, j), Gate2Head(p, j), Inner(p, envs, i, j, |p.vg1s|), []);
      }
    }

    /** The Vg2 loop inside Vds iteration i (vna2gates.py:90-125). */
    method SweepVg2(p: Params, m: Meters, ghost envs: Steps, press: (nat, nat, nat) -> bool, i: nat)
      returns (quit: bool, ghost j: nat, ghost k: nat)
      requires Valid() && StepsOf(envs, p, m) && i < |p.vdss| && base.dataFile.Some?
      modifies base`trace, base`quitRequested
      ensures Valid()
      ensures !quit ==>
        (base.quitRequested ==> old(base.quitRequested)) && base.trace == old(base.trace) + Middle(p, envs, i, |p.vg2s|)
      ensures quit ==>
        j < |p.vg2s| && k < |p.vg1s| && base.quitRequested &&
        base.trace == old(base.trace) + Middle(p, envs, i, j) + Gate2Head(p, j) + Inner(p, envs, i, j, k) + [Poll]
      ensures !old(base.quitRequested) && (forall a: nat, b: nat :: !press(i, a, b)) ==> !quit
    {
      ghost var t0 := base.trace;
      var n := 0;
      j, k := 0, 0;
      quit := false;
      while n < |p.vg2s|
        invariant n <= |p.vg2s| && j == n && !quit
        invariant Valid()
        invariant base.trace == t0 + Middle(p, envs, i, n)
        invariant base.quitRequested ==> old(base.quitRequested)
      {
        quit, k := StepVg2(p, m, envs, press, i, n, t0);
        if quit {
          return;
        }
        n := n + 1;
        j := n;
      }
    }

    /**
     * One Vds iteration (vna2gates.py:88-125), after the first i have added
     * their events to `t0`: Vds, then the Vg2 loop.
     */
    method StepVds(p: Params, m: Meters, ghost envs: Steps, press: (nat, nat, nat) -> bool, i: nat, ghost t0: seq<Event>)
      returns (quit: bool, ghost j: nat, ghost k: nat)
      requires Valid() && StepsOf(envs, p, m) && i < |p.vdss| && base.dataFile.Some?
      requires base.trace == t0 + Outer(p, envs, i)
      modifies base`trace, base`quitRequested
      ensures Valid()
      ensures !quit ==>
        (base.quitRequested ==> old(base.quitRequested)) && base.trace == t0 + Outer(p, envs, i + 1)
      ensures quit ==>
        j < |p.vg2s| && k < |p.vg1s| && base.quitRequested && base.trace == t0 + StoppedAt(p, envs, i, j, k)
      ensures !old(base.quitRequested) && (forall a: nat, b: nat :: !press(i, a, b)) ==> !quit
    {
      base.Record(Set(VDS, p.vdss[i]));
      assert base.trace == t0 + Outer(p, envs, i) + DrainHead(p, i);
      quit, j, k := SweepVg2(p, m, envs, press, i);
      if quit {
        AppendSix(t0, Outer(p, envs, i), DrainHead(p, i), Middle(p, envs, i, j), Gate2Head(p, j),
                  Inner(p, envs, i, j, k), [Poll]);
      } else {
        AppendAssoc4(t0, Outer(p, envs, i), DrainHead(p, i), Middle(p, envs, i, |p.vg2s|), []);
      }
    }

    /** The Vds loop (vna2gates.py:88-125), with the data file open; it stopped at step `stop`. */
    method Sweep(p: Params, m: Meters, ghost envs: Steps, press: (nat, nat, nat) -> bool)
      returns (quit: bool, ghost stop: (nat, nat, nat))
      requires Valid() && StepsOf(envs, p, m) && base.dataFile.Some?
      modifies base`trace, base`quitRequested
      ensures Valid()
      ensures !quit ==>
        (base.quitRequested ==> old(base.quitRequested)) && base.trace == old(base.trace) + Plan(p, envs)
      ensures quit ==>
        Within(p, stop.0, stop.1, stop.2) && base.quitRequested &&
        base.trace == old(base.trace) + StoppedAt(p, envs, stop.0, stop.1, stop.2)
      ensures !old(base.quitRequested) && (forall a: nat, b: nat, c: nat :: !press(a, b, c)) ==> !quit
    {
      ghost var t0 := base.trace;
      stop := (0, 0, 0);
      var i := 0;
      quit := false;
      while i < |p.vdss|
        invariant i <= |p.vdss| && !quit
        invariant Valid()
        invariant base.trace == t0 + Outer(p, envs, i)
        invariant base.quitRequested ==> old(base.quitRequested)
      {
        ghost var j, k;
        quit, j, k := StepVds(p, m, envs, press, i, t0);
        if quit {
          stop := (i, j, k);
          return;
        }
        i := i + 1;
      }
    }

    /** The spectra folder when the VNA is used, then the three loops (vna2gates.py:79-125). */
    method Acquire(p: Params, m: Meters, press: (nat, nat, nat) -> bool, folder: string)
      returns (quit: bool, ghost stop: (nat, nat, nat))
      requires Valid() && base.dataFile.Some?
      modifies base`trace, base`quitRequested
      ensures Valid()
      ensures var envs := StepEnvs(p, m);
        var t0 := old(base.trace) + (if p.useVna then [MakeDir(folder)] else []);
        && (!quit ==> base.trace == t0 + Plan(p, envs))
        && (quit ==>
              Within(p, stop.0, stop.1, stop.2) && base.quitRequested &&
              base.trace == t0 + StoppedAt(p, envs, stop.0, stop.1, stop.2))
        && (!old(base.quitRequested) && (forall a: nat, b: nat, c: nat :: !press(a, b, c)) ==> !quit)
    {
      if p.useVna {
        base.Record(MakeDir(folder));
      }
      ghost var t0 := base.trace;
      assert t0 == old(base.trace) + (if p.useVna then [MakeDir(folder)] else []);
      StepEnvsSteps(p, m);
      quit, stop := Sweep(p, m, StepEnvs(p, m), press);
    }

    /**
     * `measure` (vna2gates.py:36-129): the Bilt sources and meters, the VNA
     * when used, the temperature controller, the data file, the spectra folder
     * when the VNA is used, then the three loops. `press(i, j, k)` says
     * whether stop was pressed before the quit check of step (i, j, k).
     */
    method Measure(p: Params, m: Meters, press: (nat, nat, nat) -> bool, setup: Setup, ts: string)
      returns (outcome: Outcome, ghost stop: (nat, nat, nat))
      requires Valid()
      modifies this`present, base`trace, base`dataFile, base`openedAt, base`quitRequested
      ensures Valid()
      ensures present == Assigned(Constructions(p.useVna), setup)
      ensures setup.Breaks? ==>
        outcome == Failed(setup.error) && base.trace == old(base.trace) &&
        base.dataFile == old(base.dataFile) && base.openedAt == old(base.openedAt)
      ensures setup.Ready? && old(base.dataFile).Some? ==>
        outcome == Failed(NOT_CLOSED) &&
        base.trace == old(base.trace) && base.dataFile == old(base.dataFile) && base.openedAt == old(base.openedAt)
      ensures setup.Ready? && old(base.dataFile).None? ==>
        var envs := StepEnvs(p, m);
        var t0 := old(base.trace) + (if p.useVna then [MakeDir(PathJoin(p.dataDir, RunTitle(p, ts)))] else []);
        && base.dataFile == Some(PathJoin(p.dataDir, RunTitle(p, ts) + ".txt"))
        && base.openedAt == |old(base.trace)|
        && (outcome == Completed || outcome == Stopped)
        && (outcome == Completed ==> base.trace == t0 + Plan(p, envs))
        && (outcome == Stopped ==>
              Within(p, stop.0, stop.1, stop.2) && base.quitRequested &&
              base.trace == t0 + StoppedAt(p, envs, stop.0, stop.1, stop.2))
        && (!old(base.quitRequested) && (forall a: nat, b: nat, c: nat :: !press(a, b, c)) ==> outcome == Completed)
    {
      present := Assigned(Constructions(p.useVna), setup);
      stop := (0, 0, 0);
      if setup.Breaks? {
        return Failed(setup.error), stop;
      }
      var filename := RunTitle(p, ts);
      var raised := base.PrepareSaving(PathJoin(p.dataDir, filename + ".txt"));
      if raised.Some? {
        return Failed(raised.value), stop;
      }
      var quit;
      quit, stop := Acquire(p, m, press, PathJoin(p.dataDir, filename));
      outcome := if quit then Stopped else Completed;
    }

    /** `tidy_up` (vna2gates.py:131-138): close the data file, then Vds, Vg1, Vg2 to 0. */
    method TidyUp() returns (raised: Option<string>)
      requires Valid()
      modifies base`trace, base`dataFile, base`files
      ensures Valid() && base.dataFile == None && base.files == old(base.Disk())
      ensures var n := Covered(ZeroOrder, present);
        base.trace == old(base.trace) + [Teardown] +
                      (if old(base.dataFile).Some? then [Closed(old(base.dataFile).value)] else []) +
                      ZeroSets(ZeroOrder[..n]) &&
        raised == (if n == |ZeroOrder| then None else Some(NoAttribute(ZeroOrder[n])))
    {
      base.Record(Teardown);
      RowsSinceOther(old(base.trace), base.openedAt, Teardown);
      base.EndSaving();
      raised := base.ZeroSources(ZeroOrder, present);
    }
  }
}
