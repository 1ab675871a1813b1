// modules/dc2gates.py: a drain voltage and two gate voltages swept in three
// nested loops (Vds outer, Vg2, Vg1 inner) on Bilt sources, three Bilt
// voltmeters read at every step, one data row per step.
module Dc2Gates {
  import opened Common
  import opened Mascril

  const Observables: seq<string> := ["Vg1", "Vg1m", "Ileak1", "Vg2", "Vg2m", "Ileak2", "Vds", "Vdsm", "Rs"]

  /** The sources, by their rank among the instrument objects. */
  const VDS: nat := 1
  const VG1: nat := 2
  const VG2: nat := 3

  const SourceVds := Attr(VDS, "sourceVds")
  const SourceVg1 := Attr(VG1, "sourceVg1")
  const SourceVg2 := Attr(VG2, "sourceVg2")

  /** The instrument objects in the order `measure` creates them; `bilt` is only a local. */
  const Constructions: seq<Attr> :=
    [Attr(0, "bilt"), SourceVds, SourceVg1, SourceVg2, Attr(4, "meterVds"), Attr(5, "meterVg1"), Attr(6, "meterVg2")]

  /** The sources `tidy_up` drives back to zero, in its order. */
  const ZeroOrder: seq<Attr> := [SourceVds, SourceVg1, SourceVg2]

  /** Two leak-current alerts and the gate-to-gate voltage on display. */
  function DeclaredAlarms(): seq<Alarm>
  {
    [ Alarm("np.abs(Ileak1) > 1e-8", Bin(Gt, AbsOf(Name("Ileak1")), Lit(Num(0.00000001))), ALARM_CALLCOPS),
      Alarm("np.abs(Ileak2) > 1e-8", Bin(Gt, AbsOf(Name("Ileak2")), Lit(Num(0.00000001))), ALARM_CALLCOPS),
      Alarm("np.abs(Vg1-Vg2)", AbsOf(Bin(Sub, Name("Vg1"), Name("Vg2"))), ALARM_SHOWVALUE) ]
  }

  /**
   * With a zero gate resistor the Ileak1 alarm still evaluates: it calls the
   * cops when Vg1 differs from its reading (inf) and stays silent when they
   * agree (nan).
   */
  lemma ZeroResistorLeakAlarm(env: Env, vg1: real, vg1m: real)
    requires "Ileak1" in env && env["Ileak1"] == LeakCurrent(vg1, vg1m, 0.0)
    ensures EntryFor(DeclaredAlarms()[0], env) == if vg1 != vg1m then Stored(Flag(true)) else Untouched
  {
    var a := DeclaredAlarms()[0];
    assert a.condition[0] == 'n';
    LeakAlarmEntry(a, "Ileak1", 0.00000001, env, vg1, vg1m, 0.0);
  }

  datatype Params = Params(
    dataDir: string, comment: string,
    vdss: seq<real>, vg1s: seq<real>, vg2s: seq<real>,
    commongate: bool, rg1: real, rg2: real, rds: real, stabiliseTime: real)

  /** What the three voltmeters read at step (i, j, k) of the Vds, Vg2 and Vg1 loops. */
  datatype Meters = Meters(vdsm: (nat, nat, nat) -> real, vg1m: (nat, nat, nat) -> real, vg2m: (nat, nat, nat) -> real)

  function DataName(timestamp: string, comment: string): string
  {
    timestamp + "_" + comment + ".txt"
  }

  predicate Within(p: Params, i: nat, j: nat, k: nat)
  {
    i < |p.vdss| && j < |p.vg2s| && k < |p.vg1s|
  }

  /** The second gate's voltage at a step: Vg1 itself under commongate. */
  function Gate2(p: Params, j: nat, k: nat): real
    requires j < |p.vg2s| && k < |p.vg1s|
  {
    if p.commongate then p.vg1s[k] else p.vg2s[j]
  }

  /** The names `measure` binds before its loops, in their order. */
  const ParamNames: seq<string> :=
    ["data_dir", "comment", "commongate", "Rg1", "Rg2", "Rds", "stabilise_time", "timestamp", "filename"]

  /** Every local a step's row can see: the parameters, then the observables. */
  const StepNames: seq<string> := ParamNames + Observables

  lemma StepNamesDistinct()
    ensures Distinct(StepNames)
  {
  }

  /** The values of `StepNames` at step (i, j, k). */
  function StepValues(p: Params, m: Meters, ts: string, i: nat, j: nat, k: nat): seq<Value>
    requires Within(p, i, j, k)
  {
    var vds := p.vdss[i];
    var vg1 := p.vg1s[k];
    var vg2 := Gate2(p, j, k);
    var vdsm := m.vdsm(i, j, k);
    var vg1m := m.vg1m(i, j, k);
    var vg2m := m.vg2m(i, j, k);
    [ Text(p.dataDir), Text(p.comment), Flag(p.commongate), Num(p.rg1), Num(p.rg2), Num(p.rds),
      Num(p.stabiliseTime), Text(ts), Text(DataName(ts, p.comment)),
      Num(vg1), Num(vg1m), LeakCurrent(vg1, vg1m, p.rg1),
      Num(vg2), Num(vg2m), LeakCurrent(vg2, vg2m, p.rg2),
      Num(vds), Num(vdsm), SeriesResistance(p.rds, vds, vdsm) ]
  }

  function StepEnv(p: Params, m: Meters, ts: string, i: nat, j: nat, k: nat): Env
    requires Within(p, i, j, k)
  {
    Bind(StepNames, StepValues(p, m, ts, i, j, k))
  }

  /** The bindings of a step hold every observable, so its row has no None cell. */
  lemma StepObservables(p: Params, m: Meters, ts: string, i: nat, j: nat, k: nat)
    requires Within(p, i, j, k)
    ensures forall o :: o in Observables ==> o in StepEnvs(p, m, ts)(i, j, k)
  {
    var env := StepEnvs(p, m, ts)(i, j, k);
    assert env == Bind(StepNames, StepValues(p, m, ts, i, j, k));
    forall o | o in Observables
      ensures o in env
    {
      BindDomain(StepNames, StepValues(p, m, ts, i, j, k), o);
    }
  }

  /** A step records the voltages it set and the three readings; under commongate Vg2 is Vg1. */
  lemma StepVoltages(p: Params, m: Meters, ts: string, i: nat, j: nat, k: nat)
    requires Within(p, i, j, k)
    ensures var env := StepEnvs(p, m, ts)(i, j, k);
      && "Vds" in env && env["Vds"] == Num(p.vdss[i]) && "Vg1" in env && env["Vg1"] == Num(p.vg1s[k]) && "Vg2" in env && env["Vg2"] == Num(Gate2(p, j, k))
      && "Vdsm" in env && env["Vdsm"] == Num(m.vdsm(i, j, k)) && "Vg1m" in env && env["Vg1m"] == Num(m.vg1m(i, j, k)) && "Vg2m" in env && env["Vg2m"] == Num(m.vg2m(i, j, k))
    ensures p.commongate ==> "Vg2" in StepEnvs(p, m, ts)(i, j, k) && StepEnvs(p, m, ts)(i, j, k)["Vg2"] == Num(p.vg1s[k])
  {
    var values := StepValues(p, m, ts, i, j, k);
    assert StepEnvs(p, m, ts)(i, j, k) == Bind(StepNames, values);
    StepNamesDistinct();
    BindLookup(StepNames, values, 9);
    BindLookup(StepNames, values, 10);
    BindLookup(StepNames, values, 12);
    BindLookup(StepNames, values, 13);
    BindLookup(StepNames, values, 15);
    BindLookup(StepNames, values, 16);
  }

  /**
   * The leak currents through the gate resistors and the series resistance
   * seen from the drain resistor; a zero denominator gives numpy's inf or nan.
   */
  lemma StepDerived(p: Params, m: Meters, ts: string, i: nat, j: nat, k: nat)
    requires Within(p, i, j, k)
    ensures var env := StepEnvs(p, m, ts)(i, j, k);
      && "Ileak1" in env && env["Ileak1"] == LeakCurrent(p.vg1s[k], m.vg1m(i, j, k), p.rg1)
      && "Ileak2" in env && env["Ileak2"] == LeakCurrent(Gate2(p, j, k), m.vg2m(i, j, k), p.rg2)
      && "Rs" in env && env["Rs"] == SeriesResistance(p.rds, p.vdss[i], m.vdsm(i, j, k))
  {
    var values := StepValues(p, m, ts, i, j, k);
    assert StepEnvs(p, m, ts)(i, j, k) == Bind(StepNames, values);
    StepNamesDistinct();
    BindLookup(StepNames, values, 11);
    BindLookup(StepNames, values, 14);
    BindLookup(StepNames, values, 17);
  }

  // ------------------------------------------------------------- the plan

  /** The bindings of every step, as the plan below consumes them. */
  type Steps = (nat, nat, nat) -> Env

  function StepEnvs(p: Params, m: Meters, ts: string): Steps
  {
    (i: nat, j: nat, k: nat) => if Within(p, i, j, k) then StepEnv(p, m, ts, i, j, k) else map[]
  }

  /**
   * `envs` gives the bindings of every step. The quantifier fires only where a
   * step's bindings are computed, so the loops treat `envs` as given.
   */
  ghost predicate StepsOf(envs: Steps, p: Params, m: Meters, ts: string)
  {
    forall i: nat, j: nat, k: nat {:trigger StepEnv(p, m, ts, i, j, k)} ::
      Within(p, i, j, k) ==> envs(i, j, k) == StepEnv(p, m, ts, i, j, k)
  }

  lemma StepEnvsSteps(p: Params, m: Meters, ts: string)
    ensures StepsOf(StepEnvs(p, m, ts), p, m, ts)
  {
  }

  /** One innermost step: quit check, Vg1 (and Vg2 under commongate), the row and its alarms. */
  function StepEvents(p: Params, k: nat, env: Env): seq<Event>
    requires k < |p.vg1s|
  {
    [Poll, Set(VG1, p.vg1s[k])] +
    (if p.commongate then [Set(VG2, p.vg1s[k])] else []) +
    [Saved(env), Alarms(env)]
  }

  /** What a Vg2 iteration sends before its Vg1 loop: Vg2, unless commongate. */
  function Gate2Head(p: Params, j: nat): seq<Event>
  {
    if p.commongate || j >= |p.vg2s| then [] else [Set(VG2, p.vg2s[j])]
  }

  /** What a Vds iteration sends before its Vg2 loop. */
  function DrainHead(p: Params, i: nat): seq<Event>
  {
    if i < |p.vdss| then [Set(VDS, p.vdss[i])] else []
  }

  /** The three loops, innermost first. */
  const VG1_LOOP: nat := 1
  const VG2_LOOP: nat := 2
  const VDS_LOOP: nat := 3

  /**
   * Iteration x of a loop when no quit check sees the flag set: of the Vg1
   * loop inside Vds iteration i and Vg2 iteration j, of the Vg2 loop inside
   * Vds iteration i, or of the Vds loop.
   */
  function Pass(p: Params, envs: Steps, loop: nat, i: nat, j: nat, x: nat): seq<Event>
    decreases loop, 0, 0
  {
    if loop == VG1_LOOP then (if x < |p.vg1s| then StepEvents(p, x, envs(i, j, x)) else [])
    else if loop == VG2_LOOP then Gate2Head(p, x) + Loop(p, envs, VG1_LOOP, i, x, |p.vg1s|)
    else if loop == VDS_LOOP then DrainHead(p, x) + Loop(p, envs, VG2_LOOP, x, 0, |p.vg2s|)
    else []
  }

  /** The first n iterations of a loop, as `Pass` numbers them. */
  function Loop(p: Params, envs: Steps, loop: nat, i: nat, j: nat, n: nat): seq<Event>
    decreases loop, n, 1
  {
    if n == 0 then [] else Loop(p, envs, loop, i, j, n - 1) + Pass(p, envs, loop, i, j, n - 1)
  }

  /** A trace that has run n iterations of a loop and then iteration n has run n + 1. */
  lemma LoopNext(t: seq<Event>, t0: seq<Event>, p: Params, envs: Steps, loop: nat, i: nat, j: nat, n: nat)
    requires t == t0 + Loop(p, envs, loop, i, j, n) + Pass(p, envs, loop, i, j, n)
    ensures t == t0 + Loop(p, envs, loop, i, j, n + 1)
  {
    AppendAssoc(t0, Loop(p, envs, loop, i, j, n), Pass(p, envs, loop, i, j, n));
  }

  /** Everything the three loops do when no quit check sees the flag set. */
  function Plan(p: Params, envs: Steps): seq<Event>
  {
    Loop(p, envs, VDS_LOOP, 0, 0, |p.vdss|)
  }

  /** Everything the loops did up to the quit check of step (i, j, k) that saw the flag set. */
  function StoppedAt(p: Params, envs: Steps, i: nat, j: nat, k: nat): seq<Event>
  {
    Loop(p, envs, VDS_LOOP, 0, 0, i) + DrainHead(p, i) +
    Loop(p, envs, VG2_LOOP, i, 0, j) + Gate2Head(p, j) +
    Loop(p, envs, VG1_LOOP, i, j, k) + [Poll]
  }

  /** A loop's first n iterations, as the loop-generic lemmas take them. */
  lemma {:induction false} LoopConcat(p: Params, envs: Steps, loop: nat, i: nat, j: nat, n: nat)
    ensures Loop(p, envs, loop, i, j, n) == Concat(n, (x: nat) => Pass(p, envs, loop, i, j, x))
  {
    if n > 0 {
      LoopConcat(p, envs, loop, i, j, n - 1);
    }
  }

  // ------------------------------------------------- what the plan sends

  /** Whether `src` follows the Vg1 values: sourceVg1, and sourceVg2 under commongate. */
  predicate FollowsVg1(p: Params, src: nat)
  {
    src == VG1 || (p.commongate && src == VG2)
  }

  lemma StepPicks(p: Params, k: nat, env: Env, src: nat)
    requires k < |p.vg1s|
    ensures SetValues(StepEvents(p, k, env), src) == (if FollowsVg1(p, src) then [p.vg1s[k]] else [])
    ensures SavedEnvs(StepEvents(p, k, env)) == [env]
  {
    var front := [Poll, Set(VG1, p.vg1s[k])];
    var mid: seq<Event> := if p.commongate then [Set(VG2, p.vg1s[k])] else [];
    var back := [Saved(env), Alarms(env)];
    PickThree(front, mid, back, SetOf(src));
    PickThree(front, mid, back, SavedOf);
    PickTwo(Poll, Set(VG1, p.vg1s[k]), SetOf(src));
    PickTwo(Poll, Set(VG1, p.vg1s[k]), SavedOf);
    PickTwo(Saved(env), Alarms(env), SetOf(src));
    PickTwo(Saved(env), Alarms(env), SavedOf);
    if p.commongate {
      PickOne(Set(VG2, p.vg1s[k]), SetOf(src));
      PickOne(Set(VG2, p.vg1s[k]), SavedOf);
    }
  }

  /** The Vg1 loop sends the Vg1 values in order to the sources that follow Vg1, nothing to the others. */
  lemma Gate1Sets(p: Params, envs: Steps, i: nat, j: nat, src: nat)
    ensures SetValues(Loop(p, envs, VG1_LOOP, i, j, |p.vg1s|), src) ==
            (if FollowsVg1(p, src) then p.vg1s else [])
  {
    var body := (x: nat) => Pass(p, envs, VG1_LOOP, i, j, x);
    LoopConcat(p, envs, VG1_LOOP, i, j, |p.vg1s|);
    forall k: nat | k < |p.vg1s|
      ensures Pick(body(k), SetOf(src)) == if FollowsVg1(p, src) then [p.vg1s[k]] else []
    {
      StepPicks(p, k, envs(i, j, k), src);
    }
    if FollowsVg1(p, src) {
      PickConcatEach(|p.vg1s|, body, SetOf(src), p.vg1s);
    } else {
      PickConcatNone(|p.vg1s|, body, SetOf(src));
    }
  }

  /** The Vg1 loop saves one row per Vg1 value, in order. */
  lemma Gate1Rows(p: Params, envs: Steps, i: nat, j: nat)
    ensures SavedEnvs(Loop(p, envs, VG1_LOOP, i, j, |p.vg1s|)) == seq(|p.vg1s|, (k: nat) => envs(i, j, k))
  {
    var body := (x: nat) => Pass(p, envs, VG1_LOOP, i, j, x);
    var rows := seq(|p.vg1s|, (k: nat) => envs(i, j, k));
    LoopConcat(p, envs, VG1_LOOP, i, j, |p.vg1s|);
    forall k: nat | k < |p.vg1s|
      ensures Pick(body(k), SavedOf) == [rows[k]]
    {
      StepPicks(p, k, envs(i, j, k), 0);
    }
    PickConcatEach(|p.vg1s|, body, SavedOf, rows);
  }

  /** What one Vg2 iteration sends to `src`. */
  function Gate2Sent(p: Params, j: nat, src: nat): seq<real>
  {
    (if !p.commongate && src == VG2 && j < |p.vg2s| then [p.vg2s[j]] else []) +
    (if FollowsVg1(p, src) then p.vg1s else [])
  }

  lemma Gate2Picks(p: Params, envs: Steps, i: nat, j: nat, src: nat)
    ensures SetValues(Pass(p, envs, VG2_LOOP, i, 0, j), src) == Gate2Sent(p, j, src)
  {
    var inner := Loop(p, envs, VG1_LOOP, i, j, |p.vg1s|);
    PickAppend(Gate2Head(p, j), inner, SetOf(src));
    if !p.commongate && j < |p.vg2s| {
      PickOne(Set(VG2, p.vg2s[j]), SetOf(src));
    }
    Gate1Sets(p, envs, i, j, src);
  }

  lemma Gate2PassRows(p: Params, envs: Steps, i: nat, j: nat)
    ensures |SavedEnvs(Pass(p, envs, VG2_LOOP, i, 0, j))| == |p.vg1s|
  {
    var inner := Loop(p, envs, VG1_LOOP, i, j, |p.vg1s|);
    PickAppend(Gate2Head(p, j), inner, SavedOf);
    if !p.commongate && j < |p.vg2s| {
      PickOne(Set(VG2, p.vg2s[j]), SavedOf);
    }
    Gate1Rows(p, envs, i, j);
  }

  /**
   * The Vg2 loop: the sources that follow Vg1 run through the Vg1 values once
   * per Vg2 value; sourceVg2 otherwise gets the Vg2 values in order.
   */
  lemma Gate2Sets(p: Params, envs: Steps, i: nat, src: nat)
    ensures SetValues(Loop(p, envs, VG2_LOOP, i, 0, |p.vg2s|), src) ==
            if FollowsVg1(p, src) then Repeat(p.vg1s, |p.vg2s|)
            else if src == VG2 then p.vg2s
            else []
  {
    var body := (x: nat) => Pass(p, envs, VG2_LOOP, i, 0, x);
    LoopConcat(p, envs, VG2_LOOP, i, 0, |p.vg2s|);
    forall j: nat | j < |p.vg2s|
      ensures Pick(body(j), SetOf(src)) == Gate2Sent(p, j, src)
    {
      Gate2Picks(p, envs, i, j, src);
    }
    if FollowsVg1(p, src) {
      PickConcatRepeat(|p.vg2s|, body, SetOf(src), p.vg1s);
    } else if src == VG2 {
      PickConcatEach(|p.vg2s|, body, SetOf(src), p.vg2s);
    } else {
      PickConcatNone(|p.vg2s|, body, SetOf(src));
    }
  }

  /** The Vg2 loop saves one row per (Vg2, Vg1) pair. */
  lemma Gate2Rows(p: Params, envs: Steps, i: nat)
    ensures |SavedEnvs(Loop(p, envs, VG2_LOOP, i, 0, |p.vg2s|))| == |p.vg2s| * |p.vg1s|
  {
    var body := (x: nat) => Pass(p, envs, VG2_LOOP, i, 0, x);
    LoopConcat(p, envs, VG2_LOOP, i, 0, |p.vg2s|);
    forall j: nat | j < |p.vg2s|
      ensures |Pick(body(j), SavedOf)| == |p.vg1s|
    {
      Gate2PassRows(p, envs, i, j);
    }
    PickConcatCount(|p.vg2s|, body, SavedOf, |p.vg1s|);
  }

  /** What one Vds iteration sends to `src`. */
  function DrainSent(p: Params, i: nat, src: nat): seq<real>
  {
    (if src == VDS && i < |p.vdss| then [p.vdss[i]] else []) +
    (if FollowsVg1(p, src) then Repeat(p.vg1s, |p.vg2s|) else if src == VG2 then p.vg2s else [])
  }

  lemma DrainPicks(p: Params, envs: Steps, i: nat, src: nat)
    ensures SetValues(Pass(p, envs, VDS_LOOP, 0, 0, i), src) == DrainSent(p, i, src)
  {
    var inner := Loop(p, envs, VG2_LOOP, i, 0, |p.vg2s|);
    assert Pass(p, envs, VDS_LOOP, 0, 0, i) == DrainHead(p, i) + inner;
    PickAppend(DrainHead(p, i), inner, SetOf(src));
    if i < |p.vdss| {
      PickOne(Set(VDS, p.vdss[i]), SetOf(src));
    }
    Gate2Sets(p, envs, i, src);
  }

  lemma DrainRows(p: Params, envs: Steps, i: nat)
    ensures |SavedEnvs(Pass(p, envs, VDS_LOOP, 0, 0, i))| == |p.vg2s| * |p.vg1s|
  {
    var inner := Loop(p, envs, VG2_LOOP, i, 0, |p.vg2s|);
    assert Pass(p, envs, VDS_LOOP, 0, 0, i) == DrainHead(p, i) + inner;
    PickAppend(DrainHead(p, i), inner, SavedOf);
    if i < |p.vdss| {
      PickOne(Set(VDS, p.vdss[i]), SavedOf);
    }
    Gate2Rows(p, envs, i);
  }

  /**
   * Without a quit request: each Vds value is sent once, in order; the sources
   * that follow Vg1 run through the Vg1 values once per (Vds, Vg2) pair;
   * sourceVg2 otherwise runs through the Vg2 values once per Vds value, and
   * under commongate never receives a Vg2 value; the other instruments receive
   * no set-point.
   */
  lemma PlanSets(p: Params, envs: Steps, src: nat)
    ensures SetValues(Plan(p, envs), src) ==
            if src == VDS then p.vdss
            else if FollowsVg1(p, src) then Repeat(Repeat(p.vg1s, |p.vg2s|), |p.vdss|)
            else if src == VG2 then Repeat(p.vg2s, |p.vdss|)
            else []
  {
    if src == VDS {
      DrainPlanSets(p, envs);
    } else {
      GatePlanSets(p, envs, src);
    }
  }

  lemma DrainPlanSets(p: Params, envs: Steps)
    ensures SetValues(Plan(p, envs), VDS) == p.vdss
  {
    var body := (x: nat) => Pass(p, envs, VDS_LOOP, 0, 0, x);
    LoopConcat(p, envs, VDS_LOOP, 0, 0, |p.vdss|);
    forall i: nat | i < |p.vdss|
      ensures Pick(body(i), SetOf(VDS)) == [p.vdss[i]]
    {
      DrainPicks(p, envs, i, VDS);
    }
    PickConcatEach(|p.vdss|, body, SetOf(VDS), p.vdss);
  }

  lemma GatePlanSets(p: Params, envs: Steps, src: nat)
    requires src != VDS
    ensures var s := if FollowsVg1(p, src) then Repeat(p.vg1s, |p.vg2s|) else if src == VG2 then p.vg2s else [];
      SetValues(Plan(p, envs), src) == Repeat(s, |p.vdss|)
    ensures !FollowsVg1(p, src) && src != VG2 ==> SetValues(Plan(p, envs), src) == []
  {
    var body := (x: nat) => Pass(p, envs, VDS_LOOP, 0, 0, x);
    LoopConcat(p, envs, VDS_LOOP, 0, 0, |p.vdss|);
    var s := if FollowsVg1(p, src) then Repeat(p.vg1s, |p.vg2s|) else if src == VG2 then p.vg2s else [];
    forall i: nat | i < |p.vdss|
      ensures Pick(body(i), SetOf(src)) == s
    {
      DrainPicks(p, envs, i, src);
    }
    PickConcatRepeat(|p.vdss|, body, SetOf(src), s);
    if s == [] {
      RepeatEmpty<real>(|p.vdss|);
    }
  }

  /** Without a quit request the sweep saves |Vdss|·|Vg2s|·|Vg1s| rows; an empty axis gives none. */
  lemma PlanRows(p: Params, envs: Steps)
    ensures |SavedEnvs(Plan(p, envs))| == |p.vdss| * (|p.vg2s| * |p.vg1s|)
  {
    var body := (x: nat) => Pass(p, envs, VDS_LOOP, 0, 0, x);
    LoopConcat(p, envs, VDS_LOOP, 0, 0, |p.vdss|);
    forall i: nat | i < |p.vdss|
      ensures |Pick(body(i), SavedOf)| == |p.vg2s| * |p.vg1s|
    {
      DrainRows(p, envs, i);
    }
    PickConcatCount(|p.vdss|, body, SavedOf, |p.vg2s| * |p.vg1s|);
  }

  /**
   * After a sweep without a quit request the data file holds its earlier
   * lines, the header and |Vdss|·|Vg2s|·|Vg1s| rows, one per step in order.
   */
  lemma PlanFile(files: map<string, seq<Line>>, path: string, t0: seq<Event>, p: Params, envs: Steps)
    ensures var disk := DiskView(files, Some(path), Observables, t0 + Plan(p, envs), |t0|);
      && path in disk
      && disk[path] == FileAt(files, path) + [Header(Observables)] + RowsOf(Observables, SavedEnvs(Plan(p, envs)))
      && |disk[path]| == |FileAt(files, path)| + 1 + |p.vdss| * (|p.vg2s| * |p.vg1s|)
  {
    DiskAfter(files, path, Observables, t0, Plan(p, envs));
    PlanRows(p, envs);
  }

  // ------------------------------------------------------------ the script

  class Measurement {
    const base: MeasurementBase
    /** The instrument attributes `measure` has assigned. */
    var present: set<Attr>

    ghost predicate Valid()
      reads this, base
    {
      base.Valid() && NoQuitRule(base.alarms)
    }

    constructor (disk: map<string, seq<Line>>)
      ensures Valid() && fresh(base) && base.observables == Observables && base.alarms == DeclaredAlarms()
      ensures base.files == disk && base.dataFile == None && !base.quitRequested && base.trace == []
      ensures base.Disk() == disk
      ensures present == {}
    {
      base := new MeasurementBase(Observables, DeclaredAlarms(), disk);
      present := {};
    }

    /**
     * One pass of the Vg1 loop body (dc2gates.py:64-87); `press` says whether
     * the operator pressed stop since the previous quit check.
     */
    method Step(p: Params, m: Meters, ts: string, ghost envs: Steps, press: bool, i: nat, j: nat, k: nat) returns (quit: bool)
      requires Valid() && StepsOf(envs, p, m, ts) && Within(p, i, j, k) && base.dataFile.Some?
      modifies base`trace, base`quitRequested
      ensures Valid()
      ensures quit == base.quitRequested == (old(base.quitRequested) || press)
      ensures base.trace == old(base.trace) + if quit then [Poll] else Pass(p, envs, VG1_LOOP, i, j, k)
    {
      ghost var t0 := base.trace;
      quit := base.PollQuit(press);
      if quit {
        return;
      }
      var vg1 := p.vg1s[k];
      base.Record(Set(VG1, vg1));
      if p.commongate {
        base.Record(Set(VG2, vg1));
      }
      ghost var t1 := base.trace;
      assert t1 == t0 + ([Poll, Set(VG1, vg1)] + (if p.commongate then [Set(VG2, vg1)] else []));
      var env := StepEnv(p, m, ts, i, j, k);
      assert env == envs(i, j, k);
      var _ := base.SaveRow(env);
      NoQuitRuleNoQuit(base.alarms, env);
      AppendAssoc(t0, [Poll, Set(VG1, vg1)] + (if p.commongate then [Set(VG2, vg1)] else []),
                  [Saved(env), Alarms(env)]);
    }

    /** The Vg1 loop inside Vds iteration i and Vg2 iteration j (dc2gates.py:63-87). */
    method SweepVg1(p: Params, m: Meters, ts: string, ghost envs: Steps, press: (nat, nat, nat) -> bool, i: nat, j: nat)
      returns (quit: bool, ghost k: nat)
      requires Valid() && StepsOf(envs, p, m, ts) && i < |p.vdss| && j < |p.vg2s| && base.dataFile.Some?
      modifies base`trace, base`quitRequested
      ensures Valid()
      ensures !quit ==>
        && (base.quitRequested ==> old(base.quitRequested))
        && base.trace == old(base.trace) + Loop(p, envs, VG1_LOOP, i, j, |p.vg1s|)
      ensures quit ==>
        && k < |p.vg1s| && base.quitRequested
        && base.trace == old(base.trace) + Loop(p, envs, VG1_LOOP, i, j, k) + [Poll]
      ensures !old(base.quitRequested) && (forall n: nat :: !press(i, j, n)) ==> !quit
    {
      ghost var t0 := base.trace;
      var n := 0;
      k := 0;
      while n < |p.vg1s|
        invariant n <= |p.vg1s| && k == n
        invariant Valid()
        invariant base.trace == t0 + Loop(p, envs, VG1_LOOP, i, j, n)
        invariant base.quitRequested ==> old(base.quitRequested)
      {
        quit := Step(p, m, ts, envs, press(i, j, n), i, j, n);
        if quit {
          return;
        }
        LoopNext(base.trace, t0, p, envs, VG1_LOOP, i, j, n);
        n := n + 1;
        k := n;
      }
      quit := false;
    }

    /** One Vg2 iteration: Vg2 unless commongate, then the Vg1 loop (dc2gates.py:62-87). */
    method StepVg2(p: Params, m: Meters, ts: string, ghost envs: Steps, press: (nat, nat, nat) -> bool, i: nat, j: nat)
      returns (quit: bool, ghost k: nat)
      requires Valid() && StepsOf(envs, p, m, ts) && i < |p.vdss| && j < |p.vg2s| && base.dataFile.Some?
      modifies base`trace, base`quitRequested
      ensures Valid()
      ensures !quit ==>
        && (base.quitRequested ==> old(base.quitRequested))
        && base.trace == old(base.trace) + Pass(p, envs, VG2_LOOP, i, 0, j)
      ensures quit ==>
        && k < |p.vg1s| && base.quitRequested
        && base.trace == old(base.trace) + Gate2Head(p, j) + Loop(p, envs, VG1_LOOP, i, j, k) + [Poll]
      ensures !old(base.quitRequested) && (forall n: nat :: !press(i, j, n)) ==> !quit
    {
      ghost var t0 := base.trace;
      if !p.commongate {
        base.Record(Set(VG2, p.vg2s[j]));
      }
      assert base.trace == t0 + Gate2Head(p, j);
      quit, k := SweepVg1(p, m, ts, envs, press, i, j);
      if !quit {
        AppendAssoc(t0, Gate2Head(p, j), Loop(p, envs, VG1_LOOP, i, j, |p.vg1s|));
      }
    }

    /** The Vg2 loop inside Vds iteration i (dc2gates.py:61-87). */
    method SweepVg2(p: Params, m: Meters, ts: string, ghost envs: Steps, press: (nat, nat, nat) -> bool, i: nat)
      returns (quit: bool, ghost j: nat, ghost k: nat)
      requires Valid() && StepsOf(envs, p, m, ts) && i < |p.vdss| && base.dataFile.Some?
      modifies base`trace, base`quitRequested
      ensures Valid()
      ensures !quit ==>
        && (base.quitRequested ==> old(base.quitRequested))
        && base.trace == old(base.trace) + Loop(p, envs, VG2_LOOP, i, 0, |p.vg2s|)
      ensures quit ==>
        && j < |p.vg2s| && k < |p.vg1s| && base.quitRequested
        && base.trace == old(base.trace) + Loop(p, envs, VG2_LOOP, i, 0, j) + Gate2Head(p, j) +
                         Loop(p, envs, VG1_LOOP, i, j, k) + [Poll]
      ensures !old(base.quitRequested) && (forall a: nat, b: nat :: !press(i, a, b)) ==> !quit
    {
      ghost var t0 := base.trace;
      k := 0;
      var n := 0;
      j := 0;
      while n < |p.vg2s|
        invariant n <= |p.vg2s| && j == n
        invariant Valid()
        invariant base.trace == t0 + Loop(p, envs, VG2_LOOP, i, 0, n)
        invariant base.quitRequested ==> old(base.quitRequested)
      {
        quit, k := StepVg2(p, m, ts, envs, press, i, n);
        if quit {
          AppendAssoc4(t0, Loop(p, envs, VG2_LOOP, i, 0, n), Gate2Head(p, n), Loop(p, envs, VG1_LOOP, i, n, k), [Poll]);
          return;
        }
        LoopNext(base.trace, t0, p, envs, VG2_LOOP, i, 0, n);
        n := n + 1;
        j := n;
      }
      quit := false;
    }

    /** One Vds iteration: Vds, then the Vg2 loop (dc2gates.py:60-87). */
    method StepVds(p: Params, m: Meters, ts: string, ghost envs: Steps, press: (nat, nat, nat) -> bool, i: nat)
      returns (quit: bool, ghost j: nat, ghost k: nat)
      requires Valid() && StepsOf(envs, p, m, ts) && i < |p.vdss| && base.dataFile.Some?
      modifies base`trace, base`quitRequested
      ensures Valid()
      ensures !quit ==>
        && (base.quitRequested ==> old(base.quitRequested))
        && base.trace == old(base.trace) + Pass(p, envs, VDS_LOOP, 0, 0, i)
      ensures quit ==>
        && j < |p.vg2s| && k < |p.vg1s| && base.quitRequested
        && base.trace == old(base.trace) + DrainHead(p, i) + Loop(p, envs, VG2_LOOP, i, 0, j) +
                         Gate2Head(p, j) + Loop(p, envs, VG1_LOOP, i, j, k) + [Poll]
      ensures !old(base.quitRequested) && (forall a: nat, b: nat :: !press(i, a, b)) ==> !quit
    {
      ghost var t0 := base.trace;
      base.Record(Set(VDS, p.vdss[i]));
      assert base.trace == t0 + DrainHead(p, i);
      quit, j, k := SweepVg2(p, m, ts, envs, press, i);
      if !quit {
        AppendAssoc(t0, DrainHead(p, i), Loop(p, envs, VG2_LOOP, i, 0, |p.vg2s|));
      }
    }

    /** The Vds loop (dc2gates.py:60-87), with the data file open. */
    method SweepVds(p: Params, m: Meters, ts: string, ghost envs: Steps, press: (nat, nat, nat) -> bool)
      returns (quit: bool, ghost stop: (nat, nat, nat))
      requires Valid() && StepsOf(envs, p, m, ts) && base.dataFile.Some?
      modifies base`trace, base`quitRequested
      ensures Valid()
      ensures !quit ==>
        && (base.quitRequested ==> old(base.quitRequested))
        && base.trace == old(base.trace) + Plan(p, envs)
      ensures quit ==>
        && Within(p, stop.0, stop.1, stop.2) && base.quitRequested
        && base.trace == old(base.trace) + StoppedAt(p, envs, stop.0, stop.1, stop.2)
      ensures !old(base.quitRequested) && NoPress(press) ==> !quit
    {
      ghost var t0 := base.trace;
      stop := (0, 0, 0);
      var i := 0;
      while i < |p.vdss|
        invariant i <= |p.vdss|
        invariant Valid()
        invariant base.trace == t0 + Loop(p, envs, VDS_LOOP, 0, 0, i)
        invariant base.quitRequested ==> old(base.quitRequested)
      {
        ghost var j, k;
        quit, j, k := StepVds(p, m, ts, envs, press, i);
        if quit {
          AppendSix(t0, Loop(p, envs, VDS_LOOP, 0, 0, i), DrainHead(p, i), Loop(p, envs, VG2_LOOP, i, 0, j),
                    Gate2Head(p, j), Loop(p, envs, VG1_LOOP, i, j, k), [Poll]);
          stop := (i, j, k);
          return;
        }
        LoopNext(base.trace, t0, p, envs, VDS_LOOP, 0, 0, i);
        i := i + 1;
      }
      quit := false;
    }

    /** The sweep with the data file open, on the bindings `measure` computes (dc2gates.py:57-87). */
    method Acquire(p: Params, m: Meters, press: (nat, nat, nat) -> bool, ts: string)
      returns (quit: bool, ghost stop: (nat, nat, nat))
      requires Valid() && base.dataFile.Some?
      modifies base`trace, base`quitRequested
      ensures Valid()
      ensures !quit ==> base.trace == old(base.trace) + Plan(p, StepEnvs(p, m, ts))
      ensures quit ==>
        Within(p, stop.0, stop.1, stop.2) && base.quitRequested &&
        base.trace == old(base.trace) + StoppedAt(p, StepEnvs(p, m, ts), stop.0, stop.1, stop.2)
      ensures !old(base.quitRequested) && NoPress(press) ==> !quit
    {
      StepEnvsSteps(p, m, ts);
      quit, stop := SweepVds(p, m, ts, StepEnvs(p, m, ts), press);
    }

    /**
     * `measure` (dc2gates.py:32-91): instrument set-up, the data file, then
     * the Vds loop. `press(i, j, k)` says whether the operator pressed stop
     * before the quit check of step (i, j, k).
     */
    method Measure(p: Params, m: Meters, press: (nat, nat, nat) -> bool, setup: Setup, ts: string)
      returns (outcome: Outcome, ghost stop: (nat, nat, nat))
      requires Valid()
      modifies this`present, base`trace, base`dataFile, base`openedAt, base`quitRequested
      ensures Valid()
      ensures present == Assigned(Constructions, setup)
      ensures setup.Breaks? ==>
        outcome == Failed(setup.error) && base.trace == old(base.trace) &&
        base.dataFile == old(base.dataFile) && base.openedAt == old(base.openedAt)
      ensures setup.Ready? && old(base.dataFile).Some? ==>
        outcome == Failed(NOT_CLOSED) &&
        base.trace == old(base.trace) && base.dataFile == old(base.dataFile) && base.openedAt == old(base.openedAt)
      ensures setup.Ready? && old(base.dataFile).None? ==>
        var path := PathJoin(p.dataDir, DataName(ts, p.comment));
        && base.dataFile == Some(path)
        && base.openedAt == |old(base.trace)|
        && (outcome == Completed || outcome == Stopped)
        && (outcome == Completed ==> base.trace == old(base.trace) + Plan(p, StepEnvs(p, m, ts)))
        && (outcome == Stopped ==>
              Within(p, stop.0, stop.1, stop.2) && base.quitRequested &&
              base.trace == old(base.trace) + StoppedAt(p, StepEnvs(p, m, ts), stop.0, stop.1, stop.2))
        && (!old(base.quitRequested) && NoPress(press) ==> outcome == Completed)
    {
      present := Assigned(Constructions, setup);
      stop := (0, 0, 0);
      if setup.Breaks? {
        return Failed(setup.error), stop;
      }
      var path := PathJoin(p.dataDir, DataName(ts, p.comment));
      var raised := base.PrepareSaving(path);
      if raised.Some? {
        return Failed(raised.value), stop;
      }
      var quit;
      quit, stop := Acquire(p, m, press, ts);
      outcome := if quit then Stopped else Completed;
    }

    /** `tidy_up` (dc2gates.py:93-100): close the data file, then Vds, Vg1, Vg2 to 0. */
    method TidyUp() returns (raised: Option<string>)
      requires Valid()
      modifies base`trace, base`dataFile, base`files
      ensures Valid() && base.dataFile == None && base.files == old(base.Disk())
      ensures var n := Covered(ZeroOrder, present);
        base.trace == old(base.trace) + [Teardown] +
                      (if old(base.dataFile).Some? then [Closed(old(base.dataFile).value)] else []) +
                      ZeroSets(ZeroOrder[..n]) &&
        raised == (if n == |ZeroOrder| then None else Some(NoAttribute(ZeroOrder[n])))
    {
      base.Record(Teardown);
      RowsSinceOther(old(base.trace), base.openedAt, Teardown);
      base.EndSaving();
      raised := base.ZeroSources(ZeroOrder, present);
    }

    /**
     * `run` (measurement.py:56-66) with the script's `measure` and `tidy_up`:
     * clean-up always follows the acquisition, each failure is reported on the
     * console, and the data file ends up closed.
     */
    method Run(p: Params, m: Meters, press: (nat, nat, nat) -> bool, setup: Setup, ts: string)
      returns (outcome: Outcome, tidy: Option<string>, ghost stop: (nat, nat, nat))
      requires Valid()
      modifies this`present, base`trace, base`dataFile, base`openedAt, base`quitRequested, base`files, base`console
      ensures Valid() && base.dataFile == None
      ensures present == Assigned(Constructions, setup)
      ensures base.console == old(base.console) + RunMessages(outcome, tidy)
      ensures setup.Breaks? ==> outcome == Failed(setup.error)
      ensures var n := Covered(ZeroOrder, present);
        tidy == (if n == |ZeroOrder| then None else Some(NoAttribute(ZeroOrder[n])))
      ensures !old(base.quitRequested) && NoPress(press) && setup.Ready? && old(base.dataFile).None? ==>
        outcome == Completed
    {
      outcome, stop := Measure(p, m, press, setup, ts);
      tidy := Conclude(outcome);
    }

    /** The second half of `run` (measurement.py:58-66): `tidy_up`, then the report of both outcomes. */
    method Conclude(outcome: Outcome) returns (tidy: Option<string>)
      requires Valid()
      modifies base`trace, base`dataFile, base`files, base`console
      ensures Valid() && base.dataFile == None
      ensures base.console == old(base.console) + RunMessages(outcome, tidy)
      ensures var n := Covered(ZeroOrder, present);
        tidy == (if n == |ZeroOrder| then None else Some(NoAttribute(ZeroOrder[n])))
    {
      tidy := TidyUp();
      base.Report(outcome, tidy);
    }
  }

  ghost predicate NoPress(press: (nat, nat, nat) -> bool)
  {
    forall i: nat, j: nat, k: nat :: !press(i, j, k)
  }
}
