// modules/MesureTransitorUniversel.py: one script for every transistor set-up
// of the lab. The station, the instrument behind each of the three voltages
// (Vg, Vds, the chuck) and the VNA are chosen among fixed lists; the sweep type
// either only initialises the instruments, only reports the expected duration,
// or runs one of two nested sweeps: Vchuck / Vds / Vg with Vg inner, or
// Vchuck / Vg / Vds with Vds inner behind a power limiter.
module MesureTransitorUniversel {
  import opened Common
  import opened Mascril
  import MesureCapacitor
  import NewProber

  const Observables: seq<string> :=
    ["Vg", "Vgm", "Ileak", "Vds", "Vdsm", "Ids", "Rs", "pwr", "Ta", "Tb", "Vchuck",
     "sweeptime_min", "remain_time_min", "progress_percent"]

  /** The sources, by their rank among the instrument objects. */
  const VG: nat := 1
  const VDS: nat := 2
  const VCHUCK: nat := 3

  const Tc := Attr(0, "tc")
  const SourceVg := Attr(VG, "sourceVg")
  const SourceVds := Attr(VDS, "sourceVds")
  const SourceVchuck := Attr(VCHUCK, "sourceVchuck")
  const MeterVg := Attr(4, "meterVg")
  const MeterVds := Attr(5, "meterVds")
  const Vna := Attr(6, "vna")
  const Bilt := Attr(7, "bilt")
  const AnritsuVna := Attr(8, "vna")

  // ------------------------------------------------------------ choices

  const VdsChoices: seq<string> := ["Bilt_1", "Bilt_2", "Bilt_3", "Bilt_4", "K2400", "K2600"]
  const VgChoices: seq<string> := ["Bilt_3", "Bilt_4", "Bilt_1", "Bilt_2", "K2400", "K2600"]
  const ChuckChoices: seq<string> := ["None", "Yoko", "K2400", "K2600"]
  const VnaChoices: seq<string> := ["None", "zva67", "anritsu"]
  const SweepTypes: seq<string> := ["initialise_instruments", "give_time", "fix_Vg_sweep_Vds", "fix_Vds_sweep_Vg"]
  const Stations: seq<string> := ["None", "JANIS", "Cascade"]

  datatype Params = Params(
    srcVds: string, srcVg: string, srcVchuck: string, srcVna: string, sweepType: string, station: string,
    dataDir: string, comment: string, vdss: seq<real>, vgs: seq<real>, vchucks: seq<real>,
    rds: real, rg: real, wxl: real, maxPwr: real, maxIleak: real, stabiliseTime: real)

  /** Every selector holds one of the values it offers. */
  predicate Offered(p: Params)
  {
    p.srcVds in VdsChoices && p.srcVg in VgChoices && p.srcVchuck in ChuckChoices &&
    p.srcVna in VnaChoices && p.sweepType in SweepTypes && p.station in Stations
  }

  /** `s == 'K2400' or s == 'K2600'`: a Keithley, which measures its own current. */
  predicate IsKeithley(s: string)
  {
    s == "K2400" || s == "K2600"
  }

  /** `s[0:4] == 'Bilt'`: a Bilt channel, read back on the Bilt voltmeter of the same port. */
  predicate IsBilt(s: string)
  {
    |s| >= 4 && s[..4] == "Bilt"
  }

  /** Each offered source is exactly one of a Keithley and a Bilt channel. */
  lemma SourceKinds(p: Params)
    requires Offered(p)
    ensures IsKeithley(p.srcVds) != IsBilt(p.srcVds)
    ensures IsKeithley(p.srcVg) != IsBilt(p.srcVg)
  {
    forall s | s in VdsChoices || s in VgChoices
      ensures IsKeithley(s) != IsBilt(s)
    {
      if IsBilt(s) {
        assert s[..4][0] == s[0] == 'B';
      } else {
        assert s[..4] != "Bilt";
      }
    }
  }

  /**
   * The spectrum capture of the loops tests `src_vna == 'Anritsu'`, a value
   * the VNA selector does not offer: that capture never runs.
   */
  lemma AnritsuCaptureNeverRuns(p: Params)
    requires Offered(p)
    ensures p.srcVna != "Anritsu"
  {
  }

  /** `port = s.split('_')[1]` for the `Bilt_k` choices. */
  function BiltPort(s: string): string
  {
    var parts := Split(s, '_');
    if |parts| == 2 then parts[1] else ""
  }

  /** The Bilt positions of a station: source prefix and meter prefix. */
  function BiltPrefixes(station: string): (string, string)
  {
    if station == "JANIS" then ("I", "I5;C") else ("I3;C", "I1;C")
  }

  /**
   * The positions handed to the Bilt source and voltmeter of a `Bilt_k`
   * choice: the station's two prefixes, each followed by the port k.
   */
  function BiltChannels(station: string, s: string): (string, string)
  {
    var pre := BiltPrefixes(station);
    (pre.0 + BiltPort(s), pre.1 + BiltPort(s))
  }

  /** `'Bilt_' + k` splits into `Bilt` and its port k (k without underscore). */
  lemma BiltChannelsOfPort(station: string, k: string)
    requires '_' !in k
    ensures BiltPort("Bilt_" + k) == k
    ensures station == "JANIS" ==> BiltChannels(station, "Bilt_" + k) == ("I" + k, "I5;C" + k)
    ensures station == "Cascade" ==> BiltChannels(station, "Bilt_" + k) == ("I3;C" + k, "I1;C" + k)
  {
    assert "Bilt_" + k == "Bilt" + ['_'] + k;
    SplitOfFieldPlusRest("Bilt", k, '_');
    SplitOfField(k, '_');
  }

  // ------------------------------------------------------ the set-up

  /**
   * What `measure` creates, in order: the temperature controller (a local);
   * the Keithley 2400 sources; the Keithley 2600 sources; the Yokogawa chuck
   * source; the Bilt frame (a local) with the Bilt sources and their
   * voltmeters; then the VNA, kept on `self` for the ZVA67 and local for the
   * Anritsu.
   */
  function Constructions(p: Params): seq<Attr>
  {
    [Tc] + KeithleyBlock(p, "K2400") + KeithleyBlock(p, "K2600") +
    (if p.srcVchuck == "Yoko" then [SourceVchuck] else []) + BiltBlock(p) + VnaBlock(p)
  }

  /** The sources one Keithley model drives: Vg, Vds, then the chuck. */
  function KeithleyBlock(p: Params, model: string): seq<Attr>
  {
    (if p.srcVg == model then [SourceVg] else []) + (if p.srcVds == model then [SourceVds] else []) +
    (if p.srcVchuck == model then [SourceVchuck] else [])
  }

  /** The Bilt frame, then each Bilt source followed by its voltmeter. */
  function BiltBlock(p: Params): seq<Attr>
  {
    if IsBilt(p.srcVg) || IsBilt(p.srcVds) then
      [Bilt] + (if IsBilt(p.srcVg) then [SourceVg, MeterVg] else []) +
      (if IsBilt(p.srcVds) then [SourceVds, MeterVds] else [])
    else []
  }

  function VnaBlock(p: Params): seq<Attr>
  {
    (if p.srcVna == "zva67" then [Vna] else []) + (if p.srcVna == "anritsu" then [AnritsuVna] else [])
  }

  /**
   * The set-up creates the Vg and the Vds source whenever their choice is a
   * Keithley or a Bilt channel, and a chuck source exactly for the Yokogawa
   * and the Keithleys.
   */
  lemma ConstructionsHaveSources(p: Params)
    ensures IsKeithley(p.srcVg) || IsBilt(p.srcVg) ==> SourceVg in Constructions(p)
    ensures IsKeithley(p.srcVds) || IsBilt(p.srcVds) ==> SourceVds in Constructions(p)
    ensures SourceVchuck in Constructions(p) <==> IsKeithley(p.srcVchuck) || p.srcVchuck == "Yoko"
  {
    var k4 := KeithleyBlock(p, "K2400");
    var k6 := KeithleyBlock(p, "K2600");
    assert SourceVchuck !in BiltBlock(p) && SourceVchuck !in VnaBlock(p);
    assert SourceVchuck in k4 <==> p.srcVchuck == "K2400";
    assert SourceVchuck in k6 <==> p.srcVchuck == "K2600";
  }

  /** The sources `tidy_up` drives to 0 unconditionally, in its order; the chuck source follows when there is one. */
  const ZeroOrder: seq<Attr> := [SourceVds, SourceVg]

  /** A leak-current alert and a power alert, both against the run's own limits. */
  function DeclaredAlarms(): seq<Alarm>
  {
    [ Alarm("np.abs(Ileak) > max_Ileak", Bin(Gt, AbsOf(Name("Ileak")), Name("max_Ileak")), ALARM_CALLCOPS),
      Alarm("pwr > max_pwr", Bin(Gt, Name("pwr"), Name("max_pwr")), ALARM_CALLCOPS) ]
  }

  /** A bare `raise` with no exception being handled, as Python 3 reports it. */
  const NO_ACTIVE_EXCEPTION := "RuntimeError: No active exception to reraise"

  /** Reading a local of `measure` that no statement has assigned yet. */
  function Unbound(name: string): string
  {
    "UnboundLocalError: local variable '" + name + "' referenced before assignment"
  }

  /** What the ZVA67's channel 1 answers: the checked state, and the total sweep time in ms. */
  datatype Zva = Zva(state: NewProber.VnaState, sweepMs: real)

  /** The VNA check of the chosen analyser: the reported power, or the exception. */
  function VnaCheck(p: Params, zva: Zva, anritsu: MesureCapacitor.VnaState): Result<real>
  {
    if p.srcVna == "zva67" then NewProber.PowerCheck(zva.state)
    else if p.srcVna == "anritsu" then MesureCapacitor.PowerCheck(anritsu)
    else Ok(0.0)
  }

  /**
   * What the instruments read: the set-up temperatures (sensors a and b on
   * JANIS; the chuck on Cascade, in `ta0`), and at step (c, x, y) of the
   * Vchuck, Vds and Vg indices the Bilt voltmeters, the Keithley currents and
   * the two temperatures.
   */
  datatype Meters = Meters(
    ta0: real, tb0: real,
    vdsm: (nat, nat, nat) -> real, vgm: (nat, nat, nat) -> real,
    ids: (nat, nat, nat) -> real, ileak: (nat, nat, nat) -> real,
    ta: (nat, nat, nat) -> real, tb: (nat, nat, nat) -> real)

  /** `'_T={:.1f}'` of the set-up temperature, given the formatting `fmt1`. */
  function TempTag(p: Params, m: Meters, fmt1: real -> string): string
  {
    if p.station == "JANIS" then "_T=" + fmt1((m.ta0 + m.tb0) / 2.0)
    else if p.station == "Cascade" then "_T=" + fmt1(m.ta0)
    else ""
  }

  /** `'_pwr={:.0f}'` of the checked VNA power with a VNA, given the formatting `fmt0`. */
  function VnaTag(p: Params, zva: Zva, anritsu: MesureCapacitor.VnaState, fmt0: real -> string): string
  {
    if (p.srcVna == "zva67" || p.srcVna == "anritsu") && VnaCheck(p, zva, anritsu).Ok? then "_pwr=" + fmt0(VnaCheck(p, zva, anritsu).value)
    else ""
  }

  /** The run's name: timestamp, the power tag, the temperature tag, then `_comment` for a non-empty comment. */
  function RunTitle(p: Params, m: Meters, zva: Zva, anritsu: MesureCapacitor.VnaState,
                    fmt0: real -> string, fmt1: real -> string, ts: string): string
  {
    MesureCapacitor.RunName(ts, VnaTag(p, zva, anritsu, fmt0) + TempTag(p, m, fmt1), p.comment)
  }

  /** The spectra folder with any VNA, created twice for the ZVA67, which also dumps its segment table. */
  function Prologue(p: Params, folder: string): seq<Event>
  {
    (if p.srcVna != "None" then [MakeDir(folder)] else []) +
    (if p.srcVna == "zva67" then [MakeDir(folder), Wrote(PathJoin(folder, "VNAconfig"))] else [])
  }

  // ------------------------------------------------------- the clock

  /** The expected duration in minutes and what each loop step takes off it. */
  datatype Clock = Clock(total: real, step: real)

  /** The points the nested loops visit. */
  function Points(p: Params): nat
  {
    |p.vgs| * |p.vdss| * |p.vchucks|
  }

  /**
   * `sweeptime_min`: points × stabilise_time × factor / 60, the factor being
   * the ZVA67's sweep time in ms × 1e3, or 1 without it; each step takes off
   * stabilise_time × factor / 60.
   */
  function ClockOf(p: Params, zva: Zva): Clock
  {
    var factor := if p.srcVna == "zva67" then zva.sweepMs * 1000.0 else 1.0;
    Clock(Points(p) as real * p.stabiliseTime * factor / 60.0, p.stabiliseTime * factor / 60.0)
  }

  /** `remain_time_min` after n loop steps. */
  function Remain(clock: Clock, n: nat): real
  {
    clock.total - n as real * clock.step
  }

  /** `progress_percent` after n loop steps: 0 before the first. */
  function Progress(clock: Clock, n: nat): Value
  {
    if n == 0 || clock.total == 0.0 then Num(0.0)
    else Num((clock.total - Remain(clock, n)) / clock.total * 100.0)
  }

  lemma RemainNext(clock: Clock, n: nat)
    ensures Remain(clock, n + 1) == Remain(clock, n) - clock.step
  {
    assert (n + 1) as real * clock.step == n as real * clock.step + clock.step;
  }

  /**
   * The duration is the points times the per-step decrement, so after the
   * last point nothing remains; in between, the progress is the share of
   * points done.
   */
  lemma ClockRunsOut(p: Params, zva: Zva, n: nat)
    requires n <= Points(p)
    ensures var clock := ClockOf(p, zva);
      && clock.total == Points(p) as real * clock.step
      && Remain(clock, Points(p)) == 0.0
      && (clock.total != 0.0 && n > 0 ==> Progress(clock, n) == Num(n as real * 100.0 / Points(p) as real))
  {
    ClockShape(p, zva);
    EvenClockRunsOut(ClockOf(p, zva), Points(p), n);
  }

  lemma ClockShape(p: Params, zva: Zva)
    ensures ClockOf(p, zva).total == Points(p) as real * ClockOf(p, zva).step
  {
    var factor := if p.srcVna == "zva67" then zva.sweepMs * 1000.0 else 1.0;
    ScaledTotal(Points(p) as real, p.stabiliseTime, factor);
  }

  lemma ScaledTotal(points: real, stabilise: real, factor: real)
    ensures points * stabilise * factor / 60.0 == points * (stabilise * factor / 60.0)
  {
  }

  /** A clock of `big` equal steps runs out after the last, and k steps in, the share k / big is done. */
  lemma EvenClockRunsOut(clock: Clock, big: nat, k: nat)
    requires clock.total == big as real * clock.step
    ensures Remain(clock, big) == 0.0
    ensures clock.total != 0.0 && k > 0 ==> Progress(clock, k) == Num(k as real * 100.0 / big as real)
  {
    if clock.total != 0.0 && k > 0 {
      StepShare(k as real, big as real, clock.step);
    }
  }

  /** k of `big` equal steps taken leave the share k / big done. */
  lemma StepShare(k: real, big: real, step: real)
    requires big * step != 0.0
    ensures (big * step - (big * step - k * step)) / (big * step) * 100.0 == k * 100.0 / big
  {
    assert big * step - (big * step - k * step) == k * step;
    assert big != 0.0 && step != 0.0;
    assert (k * step) / (big * step) == k / big;
  }

  // ------------------------------------------------ numpy arithmetic

  /** numpy `a * v` for a finite `a`: inf times zero is nan. */
  function NpProd(a: real, v: Value): Value
  {
    match v
    case Num(r) => Num(a * r)
    case NonFinite(s) =>
      if s == "nan" || a == 0.0 then NonFinite("nan")
      else if (s == "inf") == (a > 0.0) then NonFinite("inf") else NonFinite("-inf")
    case _ => v
  }

  /** numpy `v / b` for a finite `b`. */
  function NpQuot(v: Value, b: real): Value
  {
    match v
    case Num(r) => Quot(r, b)
    case NonFinite(s) =>
      if s == "nan" || b >= 0.0 then v
      else if s == "inf" then NonFinite("-inf") else NonFinite("inf")
    case _ => v
  }

  /** numpy `a / v` for a finite `a`: a finite number over an infinity is 0. */
  function NpOver(a: real, v: Value): Value
  {
    match v
    case Num(r) => Quot(a, r)
    case NonFinite(s) => if s == "nan" then v else Num(0.0)
    case _ => v
  }

  /** numpy `v > x`: nan compares false. */
  predicate Above(v: Value, x: real)
  {
    match v
    case Num(r) => r > x
    case NonFinite(s) => s == "inf"
    case _ => false
  }

  /** numpy `v < x`: nan compares false. */
  predicate Below(v: Value, x: real)
  {
    match v
    case Num(r) => r < x
    case NonFinite(s) => s == "-inf"
    case _ => false
  }

  // ------------------------------------------------------------ a point

  predicate Within(p: Params, c: nat, x: nat, y: nat)
  {
    c < |p.vchucks| && x < |p.vdss| && y < |p.vgs|
  }

  /** The drain current: measured by a Keithley, or Vds/Rs through the Bilt's series resistance. */
  function IdsAt(p: Params, m: Meters, c: nat, x: nat, y: nat): Value
    requires Within(p, c, x, y)
  {
    if IsBilt(p.srcVds) then NpOver(p.vdss[x], SeriesResistance(p.rds, p.vdss[x], m.vdsm(c, x, y)))
    else Num(m.ids(c, x, y))
  }

  /** The gate leak: measured by a Keithley, or (Vg − Vgm)/Rg on a Bilt. */
  function IleakAt(p: Params, m: Meters, c: nat, x: nat, y: nat): Value
    requires Within(p, c, x, y)
  {
    if IsBilt(p.srcVg) then LeakCurrent(p.vgs[y], m.vgm(c, x, y), p.rg) else Num(m.ileak(c, x, y))
  }

  /** `pwr = (Vds*Ids)/(WxL)`, the dissipated power per unit area. */
  function PowerOf(vds: real, ids: Value, wxl: real): Value
  {
    NpQuot(NpProd(vds, ids), wxl)
  }

  /**
   * The bindings a row is built from at step (c, x, y), with the clock's
   * state `remain` and `progress`: the three voltages, the current, the leak,
   * the power, both temperatures, the clock, the two limits the alarms read,
   * and the Bilt voltmeter readings of the Bilt sources.
   */
  function StepEnv(p: Params, m: Meters, clock: Clock, c: nat, x: nat, y: nat, remain: real, progress: Value): Env
    requires Within(p, c, x, y)
  {
    var ids := IdsAt(p, m, c, x, y);
    var common := map[
      "Vchuck" := Num(p.vchucks[c]), "Vds" := Num(p.vdss[x]), "Vg" := Num(p.vgs[y]),
      "Ids" := ids, "Ileak" := IleakAt(p, m, c, x, y), "pwr" := PowerOf(p.vdss[x], ids, p.wxl),
      "Ta" := Num(m.ta(c, x, y)), "Tb" := Num(m.tb(c, x, y)),
      "sweeptime_min" := Num(clock.total), "remain_time_min" := Num(remain), "progress_percent" := progress,
      "max_pwr" := Num(p.maxPwr), "max_Ileak" := Num(p.maxIleak)];
    var drain := if IsBilt(p.srcVds) then
      common["Vdsm" := Num(m.vdsm(c, x, y))]["Rs" := SeriesResistance(p.rds, p.vdss[x], m.vdsm(c, x, y))]
      else common;
    if IsBilt(p.srcVg) then drain["Vgm" := Num(m.vgm(c, x, y))] else drain
  }

  /** A row records the voltages of its step and the clock. */
  lemma StepVoltages(p: Params, m: Meters, clock: Clock, c: nat, x: nat, y: nat, remain: real, progress: Value)
    requires Within(p, c, x, y)
    ensures var env := StepEnv(p, m, clock, c, x, y, remain, progress);
      && env["Vchuck"] == Num(p.vchucks[c]) && env["Vds"] == Num(p.vdss[x]) && env["Vg"] == Num(p.vgs[y])
      && env["sweeptime_min"] == Num(clock.total) && env["remain_time_min"] == Num(remain)
      && env["progress_percent"] == progress
  {
  }

  /** A row binds Vdsm and Rs only with a Bilt drain and Vgm only with a Bilt gate. */
  lemma StepReadbacks(p: Params, m: Meters, clock: Clock, c: nat, x: nat, y: nat, remain: real, progress: Value)
    requires Within(p, c, x, y)
    ensures var env := StepEnv(p, m, clock, c, x, y, remain, progress);
      && ("Vdsm" in env <==> IsBilt(p.srcVds)) && ("Rs" in env <==> IsBilt(p.srcVds)) && ("Vgm" in env <==> IsBilt(p.srcVg))
      && (IsBilt(p.srcVds) ==> env["Vdsm"] == Num(m.vdsm(c, x, y)))
      && (IsBilt(p.srcVg) ==> env["Vgm"] == Num(m.vgm(c, x, y)))
  {
  }

  /**
   * A row's currents: the Bilt formulas for a Bilt source (Rs = Rds·Vdsm/(Vds − Vdsm),
   * Ids = Vds/Rs, Ileak = (Vg − Vgm)/Rg), the Keithley's own reading
   * otherwise, and pwr = Vds·Ids/WxL.
   */
  lemma StepCurrents(p: Params, m: Meters, clock: Clock, c: nat, x: nat, y: nat, remain: real, progress: Value)
    requires Within(p, c, x, y)
    ensures var env := StepEnv(p, m, clock, c, x, y, remain, progress);
      var vds := p.vdss[x];
      && (IsBilt(p.srcVds) ==>
            env["Rs"] == SeriesResistance(p.rds, vds, m.vdsm(c, x, y)) && env["Ids"] == NpOver(vds, env["Rs"]))
      && (!IsBilt(p.srcVds) ==> env["Ids"] == Num(m.ids(c, x, y)))
      && (IsBilt(p.srcVg) ==> env["Ileak"] == LeakCurrent(p.vgs[y], m.vgm(c, x, y), p.rg))
      && (!IsBilt(p.srcVg) ==> env["Ileak"] == Num(m.ileak(c, x, y)))
      && env["pwr"] == PowerOf(vds, env["Ids"], p.wxl)
  {
  }

  /**
   * The row of `give_time` and `initialise_instruments`: only the clock is
   * bound among the observables, so every other column is None.
   */
  function StartEnv(p: Params, clock: Clock): Env
  {
    map["sweeptime_min" := Num(clock.total), "remain_time_min" := Num(clock.total),
        "progress_percent" := Num(0.0), "max_pwr" := Num(p.maxPwr), "max_Ileak" := Num(p.maxIleak)]
  }

  lemma StartRow(p: Params, clock: Clock)
    ensures RowCells(Observables, StartEnv(p, clock)) ==
      [Missing, Missing, Missing, Missing, Missing, Missing, Missing, Missing, Missing, Missing, Missing,
       Present(Num(clock.total)), Present(Num(clock.total)), Present(Num(0.0))]
  {
  }

  // -------------------------------------------------- the power limiter

  /**
   * The power the limiter tests before Vds iteration x: 0 on a Vg's first
   * pass, otherwise this Vds times the last measured Ids over WxL; None when
   * Ids was never measured.
   */
  function Estimate(p: Params, x: nat, first: bool, ids: Option<Value>): Option<Value>
    requires x < |p.vdss|
  {
    if first then Some(Num(0.0))
    else if ids.None? then None
    else Some(PowerOf(p.vdss[x], ids.value, p.wxl))
  }

  /** `pwr_limit` after the test: set above and below the limit, kept at the limit (and for nan). */
  function Decide(prev: Option<bool>, pwr: Value, maxPwr: real): Option<bool>
  {
    if Above(pwr, maxPwr) then Some(true) else if Below(pwr, maxPwr) then Some(false) else prev
  }

  /**
   * The limiter: a power above the limit skips, one below measures, one equal
   * to it keeps the previous decision; the first Vds of each Vg estimates 0.
   */
  lemma LimiterRules(p: Params, x: nat, ids: Option<Value>, prev: Option<bool>, r: real)
    requires x < |p.vdss|
    ensures Estimate(p, x, true, ids) == Some(Num(0.0))
    ensures r > p.maxPwr ==> Decide(prev, Num(r), p.maxPwr) == Some(true)
    ensures r < p.maxPwr ==> Decide(prev, Num(r), p.maxPwr) == Some(false)
    ensures r == p.maxPwr ==> Decide(prev, Num(r), p.maxPwr) == prev
    ensures Decide(prev, NonFinite("nan"), p.maxPwr) == prev
  {
  }

  // ------------------------------------------------------- the plan

  /** How the loops end: still running, stopped at a quit check, or raising. */
  datatype Status = Running | Quit | Halted(error: string)

  /**
   * The loops' progress: the events so far, the loop steps done, the
   * limiter's `pwr_limit`, the last measured Ids, `first_pass`, and the
   * status.
   */
  datatype Run = Run(events: seq<Event>, done: nat, limit: Option<bool>, ids: Option<Value>, first: bool, status: Status)

  /** The bindings of every step, keyed by the step and the steps done before it. */
  type Steps = (nat, nat, nat, nat) -> Env

  /**
   * Everything the loops depend on: the parameters, the readings, the clock,
   * `press(c, x, y)` (stop pressed before the quit check of that step), the
   * quit flag when the loops start, and the steps' bindings.
   */
  datatype Ctx = Ctx(p: Params, m: Meters, clock: Clock, press: (nat, nat, nat) -> bool, q0: bool, envs: Steps)

  function StepEnvs(p: Params, m: Meters, clock: Clock): Steps
  {
    (c: nat, x: nat, y: nat, n: nat) =>
      if Within(p, c, x, y) then StepEnv(p, m, clock, c, x, y, Remain(clock, n), Progress(clock, n)) else map[]
  }

  /** `cx.envs` gives the bindings of every step; the quantifier fires only where a step's bindings are computed. */
  ghost predicate StepsOf(cx: Ctx)
  {
    forall c: nat, x: nat, y: nat, n: nat
      {:trigger StepEnv(cx.p, cx.m, cx.clock, c, x, y, Remain(cx.clock, n), Progress(cx.clock, n))} ::
      Within(cx.p, c, x, y) ==>
        cx.envs(c, x, y, n) == StepEnv(cx.p, cx.m, cx.clock, c, x, y, Remain(cx.clock, n), Progress(cx.clock, n))
  }

  lemma StepEnvsSteps(p: Params, m: Meters, clock: Clock, press: (nat, nat, nat) -> bool, q0: bool)
    ensures StepsOf(Ctx(p, m, clock, press, q0, StepEnvs(p, m, clock)))
  {
  }

  /**
   * The five loops of `measure`: over Vchuck; over Vds and then Vg inside it
   * (`fix_Vds_sweep_Vg`); over Vg and then Vds inside it (`fix_Vg_sweep_Vds`).
   */
  datatype Loop = Chucks | VdsOuter(c: nat) | VgInner(c: nat, x: nat) | VgOuter(c: nat) | VdsInner(c: nat, y: nat)

  function Depth(loop: Loop): nat
  {
    match loop
    case Chucks => 2
    case VdsOuter(_) => 1
    case VgOuter(_) => 1
    case _ => 0
  }

  /** n passes of a loop; a pass that stops or raises ends it. */
  function Iterate(cx: Ctx, loop: Loop, n: nat, r: Run): Run
    decreases Depth(loop), 1, n
  {
    if n == 0 then r
    else
      var s := Iterate(cx, loop, n - 1, r);
      if s.status.Running? then Pass(cx, loop, n - 1, s) else s
  }

  /** Pass k of a loop. */
  function Pass(cx: Ctx, loop: Loop, k: nat, r: Run): Run
    decreases Depth(loop), 0, 1
  {
    match loop
    case Chucks => ChuckIteration(cx, k, r)
    case VdsOuter(c) => DrainIteration(cx, c, k, r)
    case VgInner(c, x) => GateStep(cx, c, x, k, r)
    case VgOuter(c) => GateIteration(cx, c, k, r)
    case VdsInner(c, y) => DrainStep(cx, c, y, k, r)
  }

  /** A running loop's next iteration is the pass on where it has got to. */
  lemma IterateNext(cx: Ctx, loop: Loop, n: nat, r: Run)
    requires Iterate(cx, loop, n, r).status.Running?
    ensures Iterate(cx, loop, n + 1, r) == Pass(cx, loop, n, Iterate(cx, loop, n, r))
  {
  }

  lemma {:induction false} IterateHalted(cx: Ctx, loop: Loop, n: nat, k: nat, r: Run)
    requires n <= k && !Iterate(cx, loop, n, r).status.Running?
    ensures Iterate(cx, loop, k, r) == Iterate(cx, loop, n, r)
  {
    if n < k {
      IterateHalted(cx, loop, n, k - 1, r);
    }
  }

  /** The row of step (c, x, y), then its alarms. */
  function Record(cx: Ctx, c: nat, x: nat, y: nat, done: nat): seq<Event>
  {
    [Saved(cx.envs(c, x, y, done)), Alarms(cx.envs(c, x, y, done))]
  }

  /** With the ZVA67, the spectrum of the step, named after Vg and Vds. */
  function Capture(cx: Ctx, x: nat, y: nat): seq<Event>
    requires x < |cx.p.vdss| && y < |cx.p.vgs|
  {
    if cx.p.srcVna == "zva67" then [Spectrum([cx.p.vgs[y], cx.p.vdss[x]])] else []
  }

  /** The end of every loop step: the clock ticks; with a zero duration the progress division raises. */
  function Tick(cx: Ctx, r: Run): Run
  {
    if cx.clock.total == 0.0 then r.(status := Halted(FLOAT_DIVISION_BY_ZERO)) else r.(done := r.done + 1)
  }

  /**
   * One step of `fix_Vds_sweep_Vg`'s Vg loop (MesureTransitorUniversel.py:362-440):
   * Vg, the quit check, the row, the spectrum, the clock.
   */
  function GateStep(cx: Ctx, c: nat, x: nat, y: nat, r: Run): Run
  {
    if !Within(cx.p, c, x, y) then r
    else
      var head := r.events + [Set(VG, cx.p.vgs[y]), Poll];
      if cx.q0 || cx.press(c, x, y) then r.(events := head, status := Quit)
      else Tick(cx, r.(events := head + Record(cx, c, x, y, r.done) + Capture(cx, x, y)))
  }

  /** One Vds iteration of `fix_Vds_sweep_Vg`: Vds, then the Vg loop. */
  function DrainIteration(cx: Ctx, c: nat, x: nat, r: Run): Run
    decreases 1, 0, 0
  {
    if x < |cx.p.vdss| then Iterate(cx, VgInner(c, x), |cx.p.vgs|, r.(events := r.events + [Set(VDS, cx.p.vdss[x])]))
    else r
  }

  /**
   * Measuring at a point the limiter lets through: Vds, the quit check, then
   * the row; a Keithley gate never binds Vgm, which the recomputed leak reads.
   */
  function Measured(cx: Ctx, c: nat, x: nat, y: nat, r: Run): Run
    requires Within(cx.p, c, x, y)
  {
    var head := r.events + [Set(VDS, cx.p.vdss[x]), Poll];
    if cx.q0 || cx.press(c, x, y) then r.(events := head, status := Quit)
    else if !IsBilt(cx.p.srcVg) then r.(events := head, status := Halted(Unbound("Vgm")))
    else r.(events := head + Record(cx, c, x, y, r.done), ids := Some(IdsAt(cx.p, cx.m, c, x, y)))
  }

  /**
   * One step of `fix_Vg_sweep_Vds`'s Vds loop (MesureTransitorUniversel.py:448-542):
   * the limiter's estimate and decision, the point unless limited, the
   * spectrum even when limited, the clock, and `first_pass` cleared.
   */
  function DrainStep(cx: Ctx, c: nat, y: nat, x: nat, r: Run): Run
  {
    if !Within(cx.p, c, x, y) then r
    else
      var pwr := Estimate(cx.p, x, r.first, r.ids);
      if pwr.None? then r.(status := Halted(Unbound("Ids")))
      else
        var limit := Decide(r.limit, pwr.value, cx.p.maxPwr);
        if limit.None? then r.(status := Halted(Unbound("pwr_limit")))
        else
          var s := if limit.value then r.(limit := limit) else Measured(cx, c, x, y, r.(limit := limit));
          if !s.status.Running? then s
          else Tick(cx, s.(events := s.events + Capture(cx, x, y), first := false))
  }

  /** One Vg iteration of `fix_Vg_sweep_Vds`: Vg, `first_pass` set, then the Vds loop. */
  function GateIteration(cx: Ctx, c: nat, y: nat, r: Run): Run
    decreases 1, 0, 0
  {
    if y < |cx.p.vgs| then
      Iterate(cx, VdsInner(c, y), |cx.p.vdss|, r.(events := r.events + [Set(VG, cx.p.vgs[y])], first := true))
    else r
  }

  /** The chuck voltage when there is a chuck source. */
  function ChuckHead(p: Params, c: nat): seq<Event>
  {
    if p.srcVchuck != "None" && c < |p.vchucks| then [Set(VCHUCK, p.vchucks[c])] else []
  }

  /** One Vchuck iteration: the chuck voltage, then the loops of the sweep type. */
  function ChuckIteration(cx: Ctx, c: nat, r: Run): Run
    decreases 2, 0, 0
  {
    var s := r.(events := r.events + ChuckHead(cx.p, c));
    if cx.p.sweepType == "fix_Vds_sweep_Vg" then Iterate(cx, VdsOuter(c), |cx.p.vdss|, s)
    else if cx.p.sweepType == "fix_Vg_sweep_Vds" then Iterate(cx, VgOuter(c), |cx.p.vgs|, s)
    else s
  }

  const Start := Run([], 0, None, None, false, Running)

  /** Everything the loops do (MesureTransitorUniversel.py:355-542). */
  function Loops(cx: Ctx): Run
  {
    Iterate(cx, Chucks, |cx.p.vchucks|, Start)
  }

  // ---------------------------------------------- what the plan does

  /**
   * A point the limiter skips sends no Vds, has no quit check and writes no
   * row: only the spectrum (with the ZVA67) and the clock.
   */
  lemma SkippedPoint(cx: Ctx, c: nat, y: nat, x: nat, r: Run)
    requires Within(cx.p, c, x, y) && r.status.Running?
    requires var pwr := Estimate(cx.p, x, r.first, r.ids); pwr.Some? && Decide(r.limit, pwr.value, cx.p.maxPwr) == Some(true)
    ensures var s := DrainStep(cx, c, y, x, r);
      s.events == r.events + Capture(cx, x, y) && s.ids == r.ids && s.limit == Some(true) && !s.first &&
      (s.status.Running? <==> cx.clock.total != 0.0)
  {
  }

  /**
   * A point the limiter lets through, without a stop and with a Bilt gate,
   * sends Vds, checks quit and saves one row, then updates Ids.
   */
  lemma MeasuredPoint(cx: Ctx, c: nat, y: nat, x: nat, r: Run)
    requires Within(cx.p, c, x, y) && r.status.Running? && !cx.q0 && !cx.press(c, x, y) && IsBilt(cx.p.srcVg)
    requires var pwr := Estimate(cx.p, x, r.first, r.ids); pwr.Some? && Decide(r.limit, pwr.value, cx.p.maxPwr) == Some(false)
    ensures var s := DrainStep(cx, c, y, x, r);
      s.events == r.events + [Set(VDS, cx.p.vdss[x]), Poll] + Record(cx, c, x, y, r.done) + Capture(cx, x, y) &&
      s.ids == Some(IdsAt(cx.p, cx.m, c, x, y)) && s.limit == Some(false) && !s.first
  {
  }

  /**
   * With a Keithley gate, `fix_Vg_sweep_Vds` recomputes the leak from a Vgm
   * it never read: the first point of a Vg, which the limiter lets through
   * whenever the limit is positive, raises after its quit check and saves no
   * row.
   */
  lemma KeithleyGateRaises(cx: Ctx, c: nat, y: nat, x: nat, r: Run)
    requires Within(cx.p, c, x, y) && r.status.Running? && r.first && cx.p.maxPwr > 0.0
    requires !cx.q0 && !cx.press(c, x, y) && !IsBilt(cx.p.srcVg)
    ensures DrainStep(cx, c, y, x, r).status == Halted(Unbound("Vgm"))
    ensures SavedEnvs(DrainStep(cx, c, y, x, r).events) == SavedEnvs(r.events)
  {
    SavedEnvsAppend(r.events, [Set(VDS, cx.p.vdss[x]), Poll]);
    PickTwo(Set(VDS, cx.p.vdss[x]), Poll, SavedOf);
  }

  /** Passes of a loop that keep running, each adding `cnt` loop steps and `cnt` rows. */
  ghost predicate Steady(cx: Ctx, loop: Loop, n: nat, cnt: nat)
  {
    forall k: nat, s: Run {:trigger Pass(cx, loop, k, s)} :: k < n && s.status.Running? ==>
      && Pass(cx, loop, k, s).status.Running?
      && Pass(cx, loop, k, s).done == s.done + cnt
      && |SavedEnvs(Pass(cx, loop, k, s).events)| == |SavedEnvs(s.events)| + cnt
  }

  lemma {:induction false} IterateSteady(cx: Ctx, loop: Loop, n: nat, r: Run, cnt: nat)
    requires r.status.Running? && Steady(cx, loop, n, cnt)
    ensures var s := Iterate(cx, loop, n, r);
      s.status.Running? && s.done == r.done + n * cnt && |SavedEnvs(s.events)| == |SavedEnvs(r.events)| + n * cnt
  {
    if n > 0 {
      IterateSteady(cx, loop, n - 1, r, cnt);
      MulStep(n, cnt);
    }
  }

  /** No stop pressed and none pending. */
  ghost predicate Unstopped(cx: Ctx)
  {
    !cx.q0 && forall a: nat, b: nat, d: nat :: !cx.press(a, b, d)
  }

  /** Without a stop and with a non-zero duration, every Vg step of `fix_Vds_sweep_Vg` saves one row. */
  lemma VgInnerSteady(cx: Ctx, c: nat, x: nat)
    requires c < |cx.p.vchucks| && x < |cx.p.vdss| && Unstopped(cx) && cx.clock.total != 0.0
    ensures Steady(cx, VgInner(c, x), |cx.p.vgs|, 1)
  {
    forall k: nat, s: Run | k < |cx.p.vgs| && s.status.Running?
      ensures Pass(cx, VgInner(c, x), k, s).status.Running?
      ensures Pass(cx, VgInner(c, x), k, s).done == s.done + 1
      ensures |SavedEnvs(Pass(cx, VgInner(c, x), k, s).events)| == |SavedEnvs(s.events)| + 1
    {
      var head := s.events + [Set(VG, cx.p.vgs[k]), Poll];
      var rec := Record(cx, c, x, k, s.done);
      SavedEnvsAppend(s.events, [Set(VG, cx.p.vgs[k]), Poll]);
      PickTwo(Set(VG, cx.p.vgs[k]), Poll, SavedOf);
      SavedEnvsAppend(head, rec);
      PickTwo(rec[0], rec[1], SavedOf);
      SavedEnvsAppend(head + rec, Capture(cx, x, k));
      if cx.p.srcVna == "zva67" {
        PickOne(Spectrum([cx.p.vgs[k], cx.p.vdss[x]]), SavedOf);
      }
    }
  }

  lemma VdsOuterSteady(cx: Ctx, c: nat)
    requires c < |cx.p.vchucks| && Unstopped(cx) && cx.clock.total != 0.0
    ensures Steady(cx, VdsOuter(c), |cx.p.vdss|, |cx.p.vgs|)
  {
    forall k: nat, s: Run | k < |cx.p.vdss| && s.status.Running?
      ensures Pass(cx, VdsOuter(c), k, s).status.Running?
      ensures Pass(cx, VdsOuter(c), k, s).done == s.done + |cx.p.vgs|
      ensures |SavedEnvs(Pass(cx, VdsOuter(c), k, s).events)| == |SavedEnvs(s.events)| + |cx.p.vgs|
    {
      var s1 := s.(events := s.events + [Set(VDS, cx.p.vdss[k])]);
      SavedEnvsAppend(s.events, [Set(VDS, cx.p.vdss[k])]);
      PickOne(Set(VDS, cx.p.vdss[k]), SavedOf);
      VgInnerSteady(cx, c, k);
      IterateSteady(cx, VgInner(c, k), |cx.p.vgs|, s1, 1);
    }
  }

  lemma ChucksSteady(cx: Ctx)
    requires cx.p.sweepType == "fix_Vds_sweep_Vg" && Unstopped(cx) && cx.clock.total != 0.0
    ensures Steady(cx, Chucks, |cx.p.vchucks|, |cx.p.vdss| * |cx.p.vgs|)
  {
    forall k: nat, s: Run | k < |cx.p.vchucks| && s.status.Running?
      ensures Pass(cx, Chucks, k, s).status.Running?
      ensures Pass(cx, Chucks, k, s).done == s.done + |cx.p.vdss| * |cx.p.vgs|
      ensures |SavedEnvs(Pass(cx, Chucks, k, s).events)| == |SavedEnvs(s.events)| + |cx.p.vdss| * |cx.p.vgs|
    {
      var s1 := s.(events := s.events + ChuckHead(cx.p, k));
      SavedEnvsAppend(s.events, ChuckHead(cx.p, k));
      if cx.p.srcVchuck != "None" {
        PickOne(Set(VCHUCK, cx.p.vchucks[k]), SavedOf);
      }
      VdsOuterSteady(cx, k);
      IterateSteady(cx, VdsOuter(k), |cx.p.vdss|, s1, |cx.p.vgs|);
    }
  }

  /**
   * `fix_Vds_sweep_Vg` without a stop and with a non-zero duration saves
   * |Vchucks|·|Vdss|·|Vgs| rows and counts as many loop steps, so the clock
   * ends at 0 remaining.
   */
  lemma FixVdsRows(cx: Ctx)
    requires cx.p.sweepType == "fix_Vds_sweep_Vg" && Unstopped(cx) && cx.clock.total != 0.0
    ensures Loops(cx).status == Running
    ensures Loops(cx).done == |cx.p.vchucks| * (|cx.p.vdss| * |cx.p.vgs|)
    ensures |SavedEnvs(Loops(cx).events)| == |cx.p.vchucks| * (|cx.p.vdss| * |cx.p.vgs|)
  {
    ChucksSteady(cx);
    IterateSteady(cx, Chucks, |cx.p.vchucks|, Start, |cx.p.vdss| * |cx.p.vgs|);
  }

  /** With a zero duration, the first step that reaches the clock raises the division error. */
  lemma ZeroDurationRaises(cx: Ctx, c: nat, x: nat, y: nat, r: Run)
    requires Within(cx.p, c, x, y) && r.status.Running? && cx.clock.total == 0.0 && !cx.q0 && !cx.press(c, x, y)
    ensures GateStep(cx, c, x, y, r).status == Halted(FLOAT_DIVISION_BY_ZERO)
    ensures SavedEnvs(GateStep(cx, c, x, y, r).events) == SavedEnvs(r.events) + [cx.envs(c, x, y, r.done)]
  {
    var head := r.events + [Set(VG, cx.p.vgs[y]), Poll];
    var rec := Record(cx, c, x, y, r.done);
    SavedEnvsAppend(r.events, [Set(VG, cx.p.vgs[y]), Poll]);
    PickTwo(Set(VG, cx.p.vgs[y]), Poll, SavedOf);
    SavedEnvsAppend(head, rec);
    PickTwo(rec[0], rec[1], SavedOf);
    SavedEnvsAppend(head + rec, Capture(cx, x, y));
    if cx.p.srcVna == "zva67" {
      PickOne(Spectrum([cx.p.vgs[y], cx.p.vdss[x]]), SavedOf);
    }
  }

  // ------------------------------------------------------------ the script

  /** The loop-carried locals of `measure`. */
  datatype Locals = Locals(remain: real, progress: Value, limit: Option<bool>, ids: Option<Value>, first: bool)

  /** The locals match the plan's progress. */
  predicate Agrees(l: Locals, r: Run, clock: Clock)
  {
    l.remain == Remain(clock, r.done) && l.progress == Progress(clock, r.done) &&
    l.limit == r.limit && l.ids == r.ids && l.first == r.first
  }

  class Measurement {
    const base: MeasurementBase
    /** The instrument attributes `measure` has assigned; `sourceVchuck` holds an instrument only when in it. */
    var present: set<Attr>

    ghost predicate Valid()
      reads this, base
    {
      base.Valid() && NoQuitRule(base.alarms)
    }

    /**
     * The trace is `t0` followed by the run's events, the locals match the
     * run, a data file is open, and the quit flag is the starting one while
     * running and set once stopped.
     */
    ghost predicate Holds(cx: Ctx, l: Locals, r: Run, t0: seq<Event>)
      reads this, base
    {
      Valid() && StepsOf(cx) && base.dataFile.Some? && base.trace == t0 + r.events && Agrees(l, r, cx.clock) &&
      (r.status.Running? ==> base.quitRequested == cx.q0) && (r.status.Quit? ==> base.quitRequested)
    }

    constructor (disk: map<string, seq<Line>>)
      ensures Valid() && fresh(base) && base.observables == Observables && base.alarms == DeclaredAlarms()
      ensures base.files == disk && base.dataFile == None && !base.quitRequested && base.trace == []
      ensures present == {}
    {
      base := new MeasurementBase(Observables, DeclaredAlarms(), disk);
      present := {};
    }

    /** The row of step (c, x, y) and its alarms; returns the step's Ids. */
    method MeasurePoint(cx: Ctx, c: nat, x: nat, y: nat, ghost done: nat, l: Locals) returns (ids: Value)
      requires Valid() && StepsOf(cx) && Within(cx.p, c, x, y) && base.dataFile.Some?
      requires l.remain == Remain(cx.clock, done) && l.progress == Progress(cx.clock, done)
      modifies base`trace, base`quitRequested
      ensures Valid() && base.quitRequested == old(base.quitRequested)
      ensures base.trace == old(base.trace) + Record(cx, c, x, y, done)
      ensures ids == IdsAt(cx.p, cx.m, c, x, y)
    {
      var env := StepEnv(cx.p, cx.m, cx.clock, c, x, y, l.remain, l.progress);
      assert env == cx.envs(c, x, y, done);
      var _ := base.SaveRow(env);
      NoQuitRuleNoQuit(base.alarms, env);
      ids := IdsAt(cx.p, cx.m, c, x, y);
    }

    /** The spectrum of a step with the ZVA67, then the clock (MesureTransitorUniversel.py:408-440). */
    method Finish(cx: Ctx, x: nat, y: nat, l: Locals, ghost r: Run, ghost t0: seq<Event>)
      returns (l2: Locals, status: Status, ghost r2: Run)
      requires Holds(cx, l, r, t0) && r.status.Running? && x < |cx.p.vdss| && y < |cx.p.vgs|
      modifies base`trace
      ensures r2 == Tick(cx, r.(events := r.events + Capture(cx, x, y)))
      ensures status == r2.status && Holds(cx, l2, r2, t0)
    {
      if cx.p.srcVna == "zva67" {
        base.Record(Spectrum([cx.p.vgs[y], cx.p.vdss[x]]));
      }
      AppendAssoc(t0, r.events, Capture(cx, x, y));
      var remain := l.remain - cx.clock.step;
      RemainNext(cx.clock, r.done);
      if cx.clock.total == 0.0 {
        status := Halted(FLOAT_DIVISION_BY_ZERO);
        l2 := l;
        r2 := r.(events := r.events + Capture(cx, x, y), status := status);
        return;
      }
      var progress := Num((cx.clock.total - remain) / cx.clock.total * 100.0);
      l2 := l.(remain := remain, progress := progress);
      status := Running;
      r2 := r.(events := r.events + Capture(cx, x, y), done := r.done + 1);
    }

    /** One step of the Vg loop of `fix_Vds_sweep_Vg` (MesureTransitorUniversel.py:362-440). */
    method GateStepAt(cx: Ctx, c: nat, x: nat, y: nat, l: Locals, ghost r: Run, ghost t0: seq<Event>)
      returns (l2: Locals, status: Status, ghost r2: Run)
      requires Holds(cx, l, r, t0) && r.status.Running? && Within(cx.p, c, x, y)
      modifies base`trace, base`quitRequested
      ensures r2 == Pass(cx, VgInner(c, x), y, r) && status == r2.status && Holds(cx, l2, r2, t0)
    {
      base.Record(Set(VG, cx.p.vgs[y]));
      var quit := base.PollQuit(cx.press(c, x, y));
      AppendAssoc(t0, r.events, [Set(VG, cx.p.vgs[y]), Poll]);
      var head := r.events + [Set(VG, cx.p.vgs[y]), Poll];
      if quit {
        l2, status, r2 := l, Quit, r.(events := head, status := Quit);
        return;
      }
      var _ := MeasurePoint(cx, c, x, y, r.done, l);
      AppendAssoc(t0, head, Record(cx, c, x, y, r.done));
      l2, status, r2 := Finish(cx, x, y, l, r.(events := head + Record(cx, c, x, y, r.done)), t0);
    }

    /** The Vg loop of `fix_Vds_sweep_Vg` inside Vchuck iteration c and Vds iteration x. */
    method GateSweep(cx: Ctx, c: nat, x: nat, l: Locals, ghost r: Run, ghost t0: seq<Event>)
      returns (l2: Locals, status: Status, ghost r2: Run)
      requires Holds(cx, l, r, t0) && r.status.Running? && c < |cx.p.vchucks| && x < |cx.p.vdss|
      modifies base`trace, base`quitRequested
      ensures r2 == Iterate(cx, VgInner(c, x), |cx.p.vgs|, r) && status == r2.status && Holds(cx, l2, r2, t0)
    {
      var n := 0;
      l2, status, r2 := l, Running, r;
      while n < |cx.p.vgs|
        invariant n <= |cx.p.vgs| && r2 == Iterate(cx, VgInner(c, x), n, r)
        invariant status == Running == r2.status && Holds(cx, l2, r2, t0)
      {
        IterateNext(cx, VgInner(c, x), n, r);
        l2, status, r2 := GateStepAt(cx, c, x, n, l2, r2, t0);
        n := n + 1;
        if !status.Running? {
          IterateHalted(cx, VgInner(c, x), n, |cx.p.vgs|, r);
          return;
        }
      }
    }

    /** One Vds iteration of `fix_Vds_sweep_Vg`: Vds, then the Vg loop (MesureTransitorUniversel.py:358-440). */
    method DrainIterationAt(cx: Ctx, c: nat, x: nat, l: Locals, ghost r: Run, ghost t0: seq<Event>)
      returns (l2: Locals, status: Status, ghost r2: Run)
      requires Holds(cx, l, r, t0) && r.status.Running? && c < |cx.p.vchucks| && x < |cx.p.vdss|
      modifies base`trace, base`quitRequested
      ensures r2 == Pass(cx, VdsOuter(c), x, r) && status == r2.status && Holds(cx, l2, r2, t0)
    {
      base.Record(Set(VDS, cx.p.vdss[x]));
      AppendAssoc(t0, r.events, [Set(VDS, cx.p.vdss[x])]);
      l2, status, r2 := GateSweep(cx, c, x, l, r.(events := r.events + [Set(VDS, cx.p.vdss[x])]), t0);
    }

    /** The Vds loop of `fix_Vds_sweep_Vg` inside Vchuck iteration c. */
    method DrainLoop(cx: Ctx, c: nat, l: Locals, ghost r: Run, ghost t0: seq<Event>)
      returns (l2: Locals, status: Status, ghost r2: Run)
      requires Holds(cx, l, r, t0) && r.status.Running? && c < |cx.p.vchucks|
      modifies base`trace, base`quitRequested
      ensures r2 == Iterate(cx, VdsOuter(c), |cx.p.vdss|, r) && status == r2.status && Holds(cx, l2, r2, t0)
    {
      var n := 0;
      l2, status, r2 := l, Running, r;
      while n < |cx.p.vdss|
        invariant n <= |cx.p.vdss| && r2 == Iterate(cx, VdsOuter(c), n, r)
        invariant status == Running == r2.status && Holds(cx, l2, r2, t0)
      {
        IterateNext(cx, VdsOuter(c), n, r);
        l2, status, r2 := DrainIterationAt(cx, c, n, l2, r2, t0);
        n := n + 1;
        if !status.Running? {
          IterateHalted(cx, VdsOuter(c), n, |cx.p.vdss|, r);
          return;
        }
      }
    }

    /**
     * The limiter of one Vds step of `fix_Vg_sweep_Vds`
     * (MesureTransitorUniversel.py:454-464): the estimate, then the decision.
     */
    method Limit(cx: Ctx, x: nat, l: Locals) returns (limit: Result<bool>)
      requires x < |cx.p.vdss|
      ensures var pwr := Estimate(cx.p, x, l.first, l.ids);
        && (pwr.None? ==> limit == Err(Unbound("Ids")))
        && (pwr.Some? && Decide(l.limit, pwr.value, cx.p.maxPwr).None? ==> limit == Err(Unbound("pwr_limit")))
        && (pwr.Some? && Decide(l.limit, pwr.value, cx.p.maxPwr).Some? ==>
              limit == Ok(Decide(l.limit, pwr.value, cx.p.maxPwr).value))
    {
      var pwr: Value;
      if l.first {
        pwr := Num(0.0);
      } else {
        if l.ids.None? {
          return Err(Unbound("Ids"));
        }
        pwr := PowerOf(cx.p.vdss[x], l.ids.value, cx.p.wxl);
      }
      var pwrLimit := l.limit;
      if Above(pwr, cx.p.maxPwr) {
        pwrLimit := Some(true);
      } else if Below(pwr, cx.p.maxPwr) {
        pwrLimit := Some(false);
      }
      if pwrLimit.None? {
        return Err(Unbound("pwr_limit"));
      }
      limit := Ok(pwrLimit.value);
    }

    /** A point the limiter lets through (MesureTransitorUniversel.py:466-507). */
    method MeasureAt(cx: Ctx, c: nat, x: nat, y: nat, l: Locals, ghost r: Run, ghost t0: seq<Event>)
      returns (l2: Locals, status: Status, ghost r2: Run)
      requires Holds(cx, l, r, t0) && r.status.Running? && Within(cx.p, c, x, y)
      modifies base`trace, base`quitRequested
      ensures r2 == Measured(cx, c, x, y, r) && status == r2.status && Holds(cx, l2, r2, t0)
    {
      base.Record(Set(VDS, cx.p.vdss[x]));
      var quit := base.PollQuit(cx.press(c, x, y));
      AppendAssoc(t0, r.events, [Set(VDS, cx.p.vdss[x]), Poll]);
      var head := r.events + [Set(VDS, cx.p.vdss[x]), Poll];
      if quit {
        l2, status, r2 := l, Quit, r.(events := head, status := Quit);
        return;
      }
      if !IsBilt(cx.p.srcVg) {
        status := Halted(Unbound("Vgm"));
        l2, r2 := l, r.(events := head, status := status);
        return;
      }
      var ids := MeasurePoint(cx, c, x, y, r.done, l);
      AppendAssoc(t0, head, Record(cx, c, x, y, r.done));
      l2, status := l.(ids := Some(ids)), Running;
      r2 := r.(events := head + Record(cx, c, x, y, r.done), ids := Some(ids));
    }

    /** One step of the Vds loop of `fix_Vg_sweep_Vds` (MesureTransitorUniversel.py:448-542). */
    method DrainStepAt(cx: Ctx, c: nat, y: nat, x: nat, l: Locals, ghost r: Run, ghost t0: seq<Event>)
      returns (l2: Locals, status: Status, ghost r2: Run)
      requires Holds(cx, l, r, t0) && r.status.Running? && Within(cx.p, c, x, y)
      modifies base`trace, base`quitRequested
      ensures r2 == Pass(cx, VdsInner(c, y), x, r) && status == r2.status && Holds(cx, l2, r2, t0)
    {
      var limit := Limit(cx, x, l);
      if limit.Err? {
        status := Halted(limit.error);
        l2, r2 := l, r.(status := status);
        return;
      }
      l2, r2 := l.(limit := Some(limit.value)), r.(limit := Some(limit.value));
      status := Running;
      if !limit.value {
        l2, status, r2 := MeasureAt(cx, c, x, y, l2, r2, t0);
        if !status.Running? {
          return;
        }
      }
      ghost var s := r2;
      l2, status, r2 := Finish(cx, x, y, l2.(first := false), r2.(first := false), t0);
      assert r2 == Tick(cx, s.(events := s.events + Capture(cx, x, y), first := false));
    }

    /** The Vds loop of `fix_Vg_sweep_Vds` inside Vchuck iteration c and Vg iteration y. */
    method DrainSweep(cx: Ctx, c: nat, y: nat, l: Locals, ghost r: Run, ghost t0: seq<Event>)
      returns (l2: Locals, status: Status, ghost r2: Run)
      requires Holds(cx, l, r, t0) && r.status.Running? && c < |cx.p.vchucks| && y < |cx.p.vgs|
      modifies base`trace, base`quitRequested
      ensures r2 == Iterate(cx, VdsInner(c, y), |cx.p.vdss|, r) && status == r2.status && Holds(cx, l2, r2, t0)
    {
      var n := 0;
      l2, status, r2 := l, Running, r;
      while n < |cx.p.vdss|
        invariant n <= |cx.p.vdss| && r2 == Iterate(cx, VdsInner(c, y), n, r)
        invariant status == Running == r2.status && Holds(cx, l2, r2, t0)
      {
        IterateNext(cx, VdsInner(c, y), n, r);
        l2, status, r2 := DrainStepAt(cx, c, y, n, l2, r2, t0);
        n := n + 1;
        if !status.Running? {
          IterateHalted(cx, VdsInner(c, y), n, |cx.p.vdss|, r);
          return;
        }
      }
    }

    /** One Vg iteration of `fix_Vg_sweep_Vds`: Vg, `first_pass`, then the Vds loop (MesureTransitorUniversel.py:445-544). */
    method GateIterationAt(cx: Ctx, c: nat, y: nat, l: Locals, ghost r: Run, ghost t0: seq<Event>)
      returns (l2: Locals, status: Status, ghost r2: Run)
      requires Holds(cx, l, r, t0) && r.status.Running? && c < |cx.p.vchucks| && y < |cx.p.vgs|
      modifies base`trace, base`quitRequested
      ensures r2 == Pass(cx, VgOuter(c), y, r) && status == r2.status && Holds(cx, l2, r2, t0)
    {
      base.Record(Set(VG, cx.p.vgs[y]));
      AppendAssoc(t0, r.events, [Set(VG, cx.p.vgs[y])]);
      l2, status, r2 := DrainSweep(cx, c, y, l.(first := true), r.(events := r.events + [Set(VG, cx.p.vgs[y])], first := true), t0);
    }

    /** The Vg loop of `fix_Vg_sweep_Vds` inside Vchuck iteration c. */
    method GateLoop(cx: Ctx, c: nat, l: Locals, ghost r: Run, ghost t0: seq<Event>)
      returns (l2: Locals, status: Status, ghost r2: Run)
      requires Holds(cx, l, r, t0) && r.status.Running? && c < |cx.p.vchucks|
      modifies base`trace, base`quitRequested
      ensures r2 == Iterate(cx, VgOuter(c), |cx.p.vgs|, r) && status == r2.status && Holds(cx, l2, r2, t0)
    {
      var n := 0;
      l2, status, r2 := l, Running, r;
      while n < |cx.p.vgs|
        invariant n <= |cx.p.vgs| && r2 == Iterate(cx, VgOuter(c), n, r)
        invariant status == Running == r2.status && Holds(cx, l2, r2, t0)
      {
        IterateNext(cx, VgOuter(c), n, r);
        l2, status, r2 := GateIterationAt(cx, c, n, l2, r2, t0);
        n := n + 1;
        if !status.Running? {
          IterateHalted(cx, VgOuter(c), n, |cx.p.vgs|, r);
          return;
        }
      }
    }

    /** One Vchuck iteration: the chuck voltage, then the sweep type's loops (MesureTransitorUniversel.py:355-542). */
    method ChuckIterationAt(cx: Ctx, c: nat, l: Locals, ghost r: Run, ghost t0: seq<Event>)
      returns (l2: Locals, status: Status, ghost r2: Run)
      requires Holds(cx, l, r, t0) && r.status.Running? && c < |cx.p.vchucks|
      modifies base`trace, base`quitRequested
      ensures r2 == Pass(cx, Chucks, c, r) && status == r2.status && Holds(cx, l2, r2, t0)
    {
      if cx.p.srcVchuck != "None" {
        base.Record(Set(VCHUCK, cx.p.vchucks[c]));
      }
      AppendAssoc(t0, r.events, ChuckHead(cx.p, c));
      var s := r.(events := r.events + ChuckHead(cx.p, c));
      if cx.p.sweepType == "fix_Vds_sweep_Vg" {
        l2, status, r2 := DrainLoop(cx, c, l, s, t0);
      } else if cx.p.sweepType == "fix_Vg_sweep_Vds" {
        l2, status, r2 := GateLoop(cx, c, l, s, t0);
      } else {
        l2, status, r2 := l, Running, s;
      }
    }

    /** The Vchuck loop. */
    method ChuckLoop(cx: Ctx, l: Locals, ghost t0: seq<Event>) returns (status: Status, ghost r2: Run)
      requires Holds(cx, l, Start, t0)
      modifies base`trace, base`quitRequested
      ensures r2 == Loops(cx) && status == r2.status
      ensures Valid() && base.dataFile.Some? && base.trace == t0 + r2.events
      ensures (status.Running? ==> base.quitRequested == cx.q0) && (status.Quit? ==> base.quitRequested)
    {
      var n := 0;
      var l2;
      l2, status, r2 := l, Running, Start;
      while n < |cx.p.vchucks|
        invariant n <= |cx.p.vchucks| && r2 == Iterate(cx, Chucks, n, Start)
        invariant status == Running == r2.status && Holds(cx, l2, r2, t0)
      {
        IterateNext(cx, Chucks, n, Start);
        l2, status, r2 := ChuckIterationAt(cx, n, l2, r2, t0);
        n := n + 1;
        if !status.Running? {
          IterateHalted(cx, Chucks, n, |cx.p.vchucks|, Start);
          return;
        }
      }
    }

    /**
     * What `measure` does once the data file is open
     * (MesureTransitorUniversel.py:324-546): the spectra folder, the clock,
     * then one row for `give_time` and `initialise_instruments`, the loops
     * otherwise.
     */
    method Acquire(p: Params, m: Meters, zva: Zva, press: (nat, nat, nat) -> bool, folder: string)
      returns (outcome: Outcome, ghost r: Run)
      requires Valid() && base.dataFile.Some?
      modifies base`trace, base`quitRequested
      ensures Valid()
      ensures var clock := ClockOf(p, zva);
        var t0 := old(base.trace) + Prologue(p, folder);
        && (p.sweepType == "give_time" || p.sweepType == "initialise_instruments" ==>
              outcome == Completed && base.trace == t0 + [Saved(StartEnv(p, clock)), Alarms(StartEnv(p, clock))])
        && (p.sweepType != "give_time" && p.sweepType != "initialise_instruments" ==>
              var cx := Ctx(p, m, clock, press, old(base.quitRequested), StepEnvs(p, m, clock));
              && r == Loops(cx) && base.trace == t0 + r.events
              && (r.status.Running? ==> outcome == Completed)
              && (r.status.Quit? ==> outcome == Stopped && base.quitRequested)
              && (r.status.Halted? ==> outcome == Failed(r.status.error)))
    {
      if p.srcVna != "None" {
        base.Record(MakeDir(folder));
      }
      if p.srcVna == "zva67" {
        base.Record(MakeDir(folder));
        base.Record(Wrote(PathJoin(folder, "VNAconfig")));
      }
      ghost var t0 := base.trace;
      assert t0 == old(base.trace) + Prologue(p, folder);
      var factor := if p.srcVna == "zva67" then zva.sweepMs * 1000.0 else 1.0;
      var sweeptime := (|p.vgs| * |p.vdss| * |p.vchucks|) as real * p.stabiliseTime * factor / 60.0;
      var clock := Clock(sweeptime, p.stabiliseTime * factor / 60.0);
      assert clock == ClockOf(p, zva);
      r := Start;
      if p.sweepType == "give_time" || p.sweepType == "initialise_instruments" {
        var env := StartEnv(p, clock);
        var _ := base.SaveRow(env);
        return Completed, r;
      }
      var cx := Ctx(p, m, clock, press, base.quitRequested, StepEnvs(p, m, clock));
      StepEnvsSteps(p, m, clock, press, base.quitRequested);
      assert t0 + Start.events == t0;
      var status;
      status, r := ChuckLoop(cx, Locals(sweeptime, Num(0.0), None, None, false), t0);
      outcome := match status
        case Running => Completed
        case Quit => Stopped
        case Halted(e) => Failed(e);
    }

    /**
     * `measure` (MesureTransitorUniversel.py:85-546): the station check, the
     * instruments, the VNA checks, the data file, then the rest. `zva` and
     * `anritsu` are what the analysers answer, `fmt0` and `fmt1` the
     * `{:.0f}` and `{:.1f}` formatting.
     */
    method Measure(p: Params, m: Meters, zva: Zva, anritsu: MesureCapacitor.VnaState,
                   fmt0: real -> string, fmt1: real -> string,
                   press: (nat, nat, nat) -> bool, setup: Setup, ts: string)
      returns (outcome: Outcome, ghost r: Run)
      requires Valid()
      modifies this`present, base`trace, base`dataFile, base`openedAt, base`quitRequested
      ensures Valid()
      ensures p.station == "None" ==>
        outcome == Failed(NO_ACTIVE_EXCEPTION) && present == old(present) &&
        base.trace == old(base.trace) && base.dataFile == old(base.dataFile)
      ensures p.station != "None" ==> present == Assigned(Constructions(p), setup)
      ensures p.station != "None" && setup.Breaks? ==>
        outcome == Failed(setup.error) && base.trace == old(base.trace) && base.dataFile == old(base.dataFile)
      ensures p.station != "None" && setup.Ready? && VnaCheck(p, zva, anritsu).Err? ==>
        outcome == Failed(VnaCheck(p, zva, anritsu).error) &&
        base.trace == old(base.trace) && base.dataFile == old(base.dataFile)
      ensures p.station != "None" && setup.Ready? && VnaCheck(p, zva, anritsu).Ok? && old(base.dataFile).Some? ==>
        outcome == Failed(NOT_CLOSED) &&
        base.trace == old(base.trace) && base.dataFile == old(base.dataFile)
      ensures p.station != "None" && setup.Ready? && VnaCheck(p, zva, anritsu).Ok? && old(base.dataFile).None? ==>
        var title := RunTitle(p, m, zva, anritsu, fmt0, fmt1, ts);
        var clock := ClockOf(p, zva);
        var t0 := old(base.trace) + Prologue(p, PathJoin(p.dataDir, title));
        && base.dataFile == Some(PathJoin(p.dataDir, title + ".txt")) && base.openedAt == |old(base.trace)|
        && (p.sweepType == "give_time" || p.sweepType == "initialise_instruments" ==>
              outcome == Completed && base.trace == t0 + [Saved(StartEnv(p, clock)), Alarms(StartEnv(p, clock))])
        && (p.sweepType != "give_time" && p.sweepType != "initialise_instruments" ==>
              var cx := Ctx(p, m, clock, press, old(base.quitRequested), StepEnvs(p, m, clock));
              && r == Loops(cx) && base.trace == t0 + r.events
              && (r.status.Running? ==> outcome == Completed)
              && (r.status.Quit? ==> outcome == Stopped)
              && (r.status.Halted? ==> outcome == Failed(r.status.error)))
    {
      r := Start;
      if p.station == "None" {
        return Failed(NO_ACTIVE_EXCEPTION), r;
      }
      present := Assigned(Constructions(p), setup);
      if setup.Breaks? {
        return Failed(setup.error), r;
      }
      var title := Title(p, m, zva, anritsu, fmt0, fmt1, ts);
      if title.Err? {
        return Failed(title.error), r;
      }
      var filename := title.value;
      var raised := base.PrepareSaving(PathJoin(p.dataDir, filename + ".txt"));
      if raised.Some? {
        return Failed(raised.value), r;
      }
      outcome, r := Acquire(p, m, zva, press, PathJoin(p.dataDir, filename));
    }

    /**
     * The VNA checks, then the run's name
     * (MesureTransitorUniversel.py:240-318): the checked power and the
     * set-up temperature as tags.
     */
    method Title(p: Params, m: Meters, zva: Zva, anritsu: MesureCapacitor.VnaState,
                 fmt0: real -> string, fmt1: real -> string, ts: string) returns (title: Result<string>)
      ensures VnaCheck(p, zva, anritsu).Err? ==> title == Err(VnaCheck(p, zva, anritsu).error)
      ensures VnaCheck(p, zva, anritsu).Ok? ==> title == Ok(RunTitle(p, m, zva, anritsu, fmt0, fmt1, ts))
    {
      var vnaTag := "";
      if p.srcVna == "zva67" || p.srcVna == "anritsu" {
        var pow := if p.srcVna == "zva67" then NewProber.PowerCheck(zva.state) else MesureCapacitor.PowerCheck(anritsu);
        if pow.Err? {
          return Err(pow.error);
        }
        vnaTag := "_pwr=" + fmt0(pow.value);
      }
      var tempTag := "";
      if p.station == "JANIS" {
        tempTag := "_T=" + fmt1((m.ta0 + m.tb0) / 2.0);
      } else if p.station == "Cascade" {
        tempTag := "_T=" + fmt1(m.ta0);
      }
      title := Ok(MesureCapacitor.RunName(ts, vnaTag + tempTag, p.comment));
    }

    /**
     * `tidy_up` (MesureTransitorUniversel.py:548-560): close the data file,
     * then Vds and Vg to 0, then the chuck source when it holds an instrument.
     */
    method TidyUp() returns (raised: Option<string>)
      requires Valid()
      modifies base`trace, base`dataFile, base`files
      ensures Valid() && base.dataFile == None && base.files == old(base.Disk())
      ensures var n := Covered(ZeroOrder, present);
        base.trace == old(base.trace) + [Teardown] +
                      (if old(base.dataFile).Some? then [Closed(old(base.dataFile).value)] else []) +
                      ZeroSets(ZeroOrder[..n]) +
                      (if n == |ZeroOrder| && SourceVchuck in present then [Set(VCHUCK, 0.0)] else []) &&
        raised == (if n == |ZeroOrder| then None else Some(NoAttribute(ZeroOrder[n])))
    {
      base.Record(Teardown);
      RowsSinceOther(old(base.trace), base.openedAt, Teardown);
      base.EndSaving();
      raised := base.ZeroSources(ZeroOrder, present);
      if raised.None? && SourceVchuck in present {
        base.Record(Set(VCHUCK, 0.0));
      }
    }
  }
}
