// The Keithley 2400 SourceMeter driver: the start-up sequence and its checks,
// the mode and range guards of `set_voltage` / `set_current` and their slope
// ramp, and the field a reading is taken from.
module Keithley2400 {
  import opened Common
  import opened NumPy
  import opened Visa
  import Ramp

  /** The driver updates a ramping source every 10 ms. */
  const TIME_STEP: real := 0.01

  const IDENTITY: string := "KEITHLEY INSTRUMENTS INC.,MODEL 2400"
  const NOT_COMPATIBLE: string := "Instrument not compatible with Keithley 2400 driver"
  const SIGNALS_ERROR: string := "Keithley 2400 signals error"
  /** The identification exchange and the error query that close the constructor. */
  const GREETING: seq<Command> := [Clear, Query("*IDN?")]
  const ERROR_QUERY: Command := Query("SYST:ERR?")
  /** Initialisation opens by clearing the error queue and switching the output off, and ends by switching it on. */
  const OUTPUT_OFF: seq<Command> := [Write(":STATus:QUEue:CLEar"), Write(":OUTPut:STATe OFF")]
  const OUTPUT_ON: Command := Write(":OUTPut:STATe ON")
  /** The commands a voltage and a current range are written with, before the number. */
  const VRANGE_HEAD: string := ":SOURce:VOLTage:RANGe "
  const IRANGE_HEAD: string := ":SOURce:CURR:RANGe "

  /** The two quantities the SourceMeter can source, with the commands that address each. */
  datatype Quantity = Voltage | Current
  {
    /** The reply of `:SOUR:FUNC:MODE?` when sourcing this quantity. */
    function Mode(): string
    {
      if Voltage? then "VOLT" else "CURR"
    }

    function RangeQuery(): string
    {
      if Voltage? then ":SOUR:VOLT:RANG?" else ":SOUR:CURR:RANG?"
    }

    function SetpointQuery(): string
    {
      if Voltage? then ":SOUR:VOLT?" else ":SOUR:CURR?"
    }

    /** The command a level is written with, before the number. */
    function Level(): string
    {
      if Voltage? then ":SOURce:VOLTage " else ":SOUR:CURR "
    }

    function NotSourcing(): string
    {
      if Voltage? then "The instrument is not set as voltage source" else "The instrument is not set as current source"
    }

    function OutOfRange(): string
    {
      if Voltage? then "The requested voltage is out of range" else "The requested current is out of range"
    }
  }

  /** The start-up commands with initialise: output off, function and zero level, the given ranges, output on. */
  function InitCommands(sourceMode: string, vrang: Option<real>, irang: Option<real>): seq<Command>
  {
    OUTPUT_OFF
    + ModeCommands(sourceMode) + RangeCommands(vrang, irang)
    + [OUTPUT_ON]
  }

  /** The function and its zero level, for a source mode `v` or `i` in either case; nothing otherwise. */
  function ModeCommands(sourceMode: string): (r: seq<Command>)
    ensures |r| <= 2
    ensures forall c :: c in r ==> c.Write? && c.text in {":SOUR:FUNC VOLT", ":SOUR:VOLT 0", ":SOUR:FUNC CURR", ":SOUR:CURR 0"}
  {
    if Lower(sourceMode) == "v" then [Write(":SOUR:FUNC VOLT"), Write(":SOUR:VOLT 0")]
    else if Lower(sourceMode) == "i" then [Write(":SOUR:FUNC CURR"), Write(":SOUR:CURR 0")]
    else []
  }

  /** The range commands, one for each range given. */
  function RangeCommands(vrang: Option<real>, irang: Option<real>): seq<Command>
  {
    (if vrang.Some? then [Number(VRANGE_HEAD, vrang.value, "")] else [])
    + (if irang.Some? then [Number(IRANGE_HEAD, irang.value, "")] else [])
  }

  /** The mode the driver records: set only while initialising a known mode. */
  function RecordedMode(sourceMode: string, initialise: bool): Option<string>
  {
    if initialise && (Lower(sourceMode) == "v" || Lower(sourceMode) == "i") then Some(Lower(sourceMode)) else None
  }

  /** What the constructor sends, or the exception it raises. */
  function Opened(sourceMode: string, vrang: Option<real>, irang: Option<real>, initialise: bool,
                  idn: string, err: string): Result<seq<Command>>
  {
    if !StartsWith(idn, IDENTITY) then Err(NOT_COMPATIBLE)
    else if !StartsWith(err, "0,") then Err(SIGNALS_ERROR)
    else Ok(GREETING
            + (if initialise then InitCommands(sourceMode, vrang, irang) else [])
            + [ERROR_QUERY])
  }

  class K2400 {
    const slope: real
    var sourceMode: Option<string>
    var log: seq<Command>

    constructor (slope: real)
      ensures this.slope == slope && sourceMode == None && log == []
    {
      this.slope := slope;
      sourceMode := None;
      log := [];
    }

    /**
     * `set_voltage` / `set_current`: the source must be in the quantity's mode
     * and the value must not exceed the range (the lower end is not checked);
     * then the level ramps from the present set-point to the value.
     */
    method SetLevel(q: Quantity, value: real, mode: string, rang: real, present: real) returns (raised: Option<string>)
      modifies this
      ensures mode != q.Mode() ==> raised == Some(q.NotSourcing()) && log == old(log) + [Query(":SOUR:FUNC:MODE?")]
      ensures mode == q.Mode() && value > rang ==>
        raised == Some(q.OutOfRange()) && log == old(log) + [Query(":SOUR:FUNC:MODE?"), Query(q.RangeQuery())]
      ensures mode == q.Mode() && value <= rang ==>
        var ramp := Ramp.Setpoints(present, value, TIME_STEP * slope, false);
        var asked := old(log) + [Query(":SOUR:FUNC:MODE?"), Query(q.RangeQuery()), Query(q.SetpointQuery())];
        && (ramp.Ok? ==> raised == None && log == asked + Numbers(q.Level(), ramp.value, ""))
        && (ramp.Err? ==> raised == Some(ramp.error) && log == asked)
      ensures sourceMode == old(sourceMode)
    {
      log := log + [Query(":SOUR:FUNC:MODE?")];
      if mode != q.Mode() {
        return Some(q.NotSourcing());
      }
      log := log + [Query(q.RangeQuery())];
      if value > rang {
        return Some(q.OutOfRange());
      }
      log := log + [Query(q.SetpointQuery())];
      assert log == old(log) + [Query(":SOUR:FUNC:MODE?"), Query(q.RangeQuery()), Query(q.SetpointQuery())];
      raised := RampTo(q.Level(), present, value, TIME_STEP * slope);
    }

    /** Ramps the level written with `head` from `present` to `value`. */
    method RampTo(head: string, present: real, value: real, step: real) returns (raised: Option<string>)
      modifies this
      ensures var ramp := Ramp.Setpoints(present, value, step, false);
        && (ramp.Ok? ==> raised == None && log == old(log) + Numbers(head, ramp.value, ""))
        && (ramp.Err? ==> raised == Some(ramp.error) && log == old(log))
      ensures sourceMode == old(sourceMode)
    {
      Ramp.SetpointsAreArange(present, value, step, false);
      if Abs(value - present) < step {
        log := log + [Number(head, value, "")];
        return None;
      }
      var slow := Arange(present, value, Sign(value - present) * step);
      if slow.Err? {
        return Some(slow.error);
      }
      WriteLevels(head, slow.value + [value]);
      raised := None;
    }

    /** Writes `head + v` for each value in turn. */
    method WriteLevels(head: string, vs: seq<real>)
      modifies this
      ensures log == old(log) + Numbers(head, vs, "")
      ensures sourceMode == old(sourceMode)
    {
      ghost var t0 := log;
      for i := 0 to |vs|
        invariant log == t0 + Numbers(head, vs[..i], "")
        invariant sourceMode == old(sourceMode)
      {
        NumbersAppend(head, vs[..i], vs[i], "");
        assert vs[..i + 1] == vs[..i] + [vs[i]];
        log := log + [Number(head, vs[i], "")];
      }
      assert vs[..|vs|] == vs;
    }

    method SetVoltage(value: real, mode: string, rang: real, present: real) returns (raised: Option<string>)
      modifies this
      ensures mode != "VOLT" ==> raised == Some("The instrument is not set as voltage source") && log == old(log) + [Query(":SOUR:FUNC:MODE?")]
      ensures mode == "VOLT" && value > rang ==>
        raised == Some("The requested voltage is out of range") && log == old(log) + [Query(":SOUR:FUNC:MODE?"), Query(":SOUR:VOLT:RANG?")]
      ensures mode == "VOLT" && value <= rang ==>
        var ramp := Ramp.Setpoints(present, value, TIME_STEP * slope, false);
        var asked := old(log) + [Query(":SOUR:FUNC:MODE?"), Query(":SOUR:VOLT:RANG?"), Query(":SOUR:VOLT?")];
        && (ramp.Ok? ==> raised == None && log == asked + Numbers(":SOURce:VOLTage ", ramp.value, ""))
        && (ramp.Err? ==> raised == Some(ramp.error) && log == asked)
      ensures sourceMode == old(sourceMode)
    {
      raised := SetLevel(Voltage, value, mode, rang, present);
    }

    method SetCurrent(value: real, mode: string, rang: real, present: real) returns (raised: Option<string>)
      modifies this
      ensures mode != "CURR" ==> raised == Some("The instrument is not set as current source") && log == old(log) + [Query(":SOUR:FUNC:MODE?")]
      ensures mode == "CURR" && value > rang ==>
        raised == Some("The requested current is out of range") && log == old(log) + [Query(":SOUR:FUNC:MODE?"), Query(":SOUR:CURR:RANG?")]
      ensures mode == "CURR" && value <= rang ==>
        var ramp := Ramp.Setpoints(present, value, TIME_STEP * slope, false);
        var asked := old(log) + [Query(":SOUR:FUNC:MODE?"), Query(":SOUR:CURR:RANG?"), Query(":SOUR:CURR?")];
        && (ramp.Ok? ==> raised == None && log == asked + Numbers(":SOUR:CURR ", ramp.value, ""))
        && (ramp.Err? ==> raised == Some(ramp.error) && log == asked)
      ensures sourceMode == old(sourceMode)
    {
      raised := SetLevel(Current, value, mode, rang, present);
    }

    /** `get_voltage`: switches the sense function to volts and reads the first field. */
    method GetVoltage(reading: string) returns (r: Result<string>)
      modifies this
      ensures r == Field(reading, 0)
      ensures log == old(log) + [Query(":SENS:FUNC:OFF \"CURR:DC\""), Query(":SENS:FUNC:ON \"VOLT:DC\""), Query(":read?")]
    {
      log := log + [Query(":SENS:FUNC:OFF \"CURR:DC\""), Query(":SENS:FUNC:ON \"VOLT:DC\""), Query(":read?")];
      r := Field(reading, 0);
    }

    /** `get_current`: switches the sense function to amperes and reads the second field. */
    method GetCurrent(reading: string) returns (r: Result<string>)
      modifies this
      ensures r == Field(reading, 1)
      ensures log == old(log) + [Query(":SENS:FUNC:OFF \"VOLT:DC\""), Query(":SENS:FUNC:ON \"CURR:DC\""), Query(":read?")]
    {
      log := log + [Query(":SENS:FUNC:OFF \"VOLT:DC\""), Query(":SENS:FUNC:ON \"CURR:DC\""), Query(":read?")];
      r := Field(reading, 1);
    }
  }

  /** `reading.split(',')[i]`, or the IndexError of a reading with too few fields. */
  function Field(reading: string, i: nat): (r: Result<string>)
    ensures r.Ok? <==> i < |Split(reading, ',')|
  {
    var fields := Split(reading, ',');
    if i < |fields| then Ok(fields[i]) else Err("IndexError: list index out of range")
  }

  /**
   * A reading `v,i,...` gives its voltage to `get_voltage` and its current to
   * `get_current`, whatever follows.
   */
  lemma ReadingFields(v: string, i: string, rest: seq<string>)
    requires NoSep([v, i] + rest, ',')
    ensures Field(Join([v, i] + rest, ","), 0) == Ok(v)
    ensures Field(Join([v, i] + rest, ","), 1) == Ok(i)
  {
    SplitJoin([v, i] + rest, ',');
  }

  /** A reading without a comma has no current field. */
  lemma SingleFieldHasNoCurrent(reading: string)
    requires ',' !in reading
    ensures Field(reading, 0) == Ok(reading)
    ensures Field(reading, 1).Err?
  {
    SplitOfField(reading, ',');
  }

  /** The initialising part of the constructor. */
  method Initialise(k: K2400, sourceMode: string, vrang: Option<real>, irang: Option<real>)
    modifies k
    ensures k.log == old(k.log) + InitCommands(sourceMode, vrang, irang)
    ensures k.sourceMode == if Lower(sourceMode) == "v" || Lower(sourceMode) == "i" then Some(Lower(sourceMode)) else old(k.sourceMode)
  {
    ghost var t0 := k.log;
    k.log := k.log + OUTPUT_OFF;
    ghost var t1 := k.log;
    SelectMode(k, sourceMode);
    ghost var t2 := k.log;
    assert t2 == t0 + (OUTPUT_OFF + ModeCommands(sourceMode));
    SelectRanges(k, vrang, irang);
    ghost var t3 := k.log;
    k.log := k.log + [OUTPUT_ON];
    assert k.log == t0 + (OUTPUT_OFF + ModeCommands(sourceMode) + RangeCommands(vrang, irang) + [OUTPUT_ON]);
  }

  /** Selects the source function and zeroes its level, for a known mode. */
  method SelectMode(k: K2400, sourceMode: string)
    modifies k
    ensures k.log == old(k.log) + ModeCommands(sourceMode)
    ensures k.sourceMode == if Lower(sourceMode) == "v" || Lower(sourceMode) == "i" then Some(Lower(sourceMode)) else old(k.sourceMode)
  {
    var m := Lower(sourceMode);
    if m == "v" {
      k.sourceMode := Some("v");
      k.log := k.log + [Write(":SOUR:FUNC VOLT"), Write(":SOUR:VOLT 0")];
    } else if m == "i" {
      k.sourceMode := Some("i");
      k.log := k.log + [Write(":SOUR:FUNC CURR"), Write(":SOUR:CURR 0")];
    }
  }

  /** Writes the ranges given. */
  method SelectRanges(k: K2400, vrang: Option<real>, irang: Option<real>)
    modifies k
    ensures k.log == old(k.log) + RangeCommands(vrang, irang)
    ensures k.sourceMode == old(k.sourceMode)
  {
    ghost var t0 := k.log;
    if vrang.Some? {
      k.log := k.log + [Number(VRANGE_HEAD, vrang.value, "")];
    }
    if irang.Some? {
      k.log := k.log + [Number(IRANGE_HEAD, irang.value, "")];
    }
  }

  /** The constructor `K2400(...)`. */
  method Open(sourceMode: string, vrang: Option<real>, irang: Option<real>, slope: real, initialise: bool,
              idn: string, err: string) returns (r: Result<K2400>)
    ensures r.Ok? <==> Opened(sourceMode, vrang, irang, initialise, idn, err).Ok?
    ensures r.Err? ==> r.error == Opened(sourceMode, vrang, irang, initialise, idn, err).error
    ensures r.Ok? ==> fresh(r.value) && r.value.slope == slope
    ensures r.Ok? ==> r.value.log == Opened(sourceMode, vrang, irang, initialise, idn, err).value
    ensures r.Ok? ==> r.value.sourceMode == RecordedMode(sourceMode, initialise)
  {
    var k := new K2400(slope);
    k.log := GREETING;
    if !StartsWith(idn, IDENTITY) {
      return Err(NOT_COMPATIBLE);
    }
    if initialise {
      Initialise(k, sourceMode, vrang, irang);
    }
    assert k.sourceMode == RecordedMode(sourceMode, initialise);
    ghost var init := if initialise then InitCommands(sourceMode, vrang, irang) else [];
    assert k.log == GREETING + init;
    k.log := k.log + [ERROR_QUERY];
    if !StartsWith(err, "0,") {
      return Err(SIGNALS_ERROR);
    }
    r := Ok(k);
  }

  /**
   * With initialise, the output is switched off before anything is configured
   * and switched on last, and not before.
   */
  lemma InitialisationOrder(sourceMode: string, vrang: Option<real>, irang: Option<real>)
    ensures var cmds := InitCommands(sourceMode, vrang, irang);
      && cmds[..2] == OUTPUT_OFF
      && cmds[|cmds| - 1] == OUTPUT_ON
      && OUTPUT_ON !in cmds[..|cmds| - 1]
  {
    var cmds := InitCommands(sourceMode, vrang, irang);
    var body := OUTPUT_OFF + ModeCommands(sourceMode) + RangeCommands(vrang, irang);
    assert cmds[..|cmds| - 1] == body;
    assert OUTPUT_ON !in ModeCommands(sourceMode);
  }

  /** A range is written exactly when one is given, once, with the given value. */
  lemma RangesWrittenIffGiven(sourceMode: string, vrang: Option<real>, irang: Option<real>)
    ensures var cmds := InitCommands(sourceMode, vrang, irang);
      && (forall v :: Number(VRANGE_HEAD, v, "") in cmds <==> vrang == Some(v))
      && (forall i :: Number(IRANGE_HEAD, i, "") in cmds <==> irang == Some(i))
  {
    var other := OUTPUT_OFF + ModeCommands(sourceMode);
    assert InitCommands(sourceMode, vrang, irang) == other + RangeCommands(vrang, irang) + [OUTPUT_ON];
    assert forall c :: c in other ==> c.Write?;
    VoltageRangeIffGiven(vrang, irang);
    CurrentRangeIffGiven(vrang, irang);
  }

  lemma VoltageRangeIffGiven(vrang: Option<real>, irang: Option<real>)
    ensures forall v :: Number(VRANGE_HEAD, v, "") in RangeCommands(vrang, irang) <==> vrang == Some(v)
  {
    assert VRANGE_HEAD[8] != IRANGE_HEAD[8];
  }

  lemma CurrentRangeIffGiven(vrang: Option<real>, irang: Option<real>)
    ensures forall i :: Number(IRANGE_HEAD, i, "") in RangeCommands(vrang, irang) <==> irang == Some(i)
  {
    assert VRANGE_HEAD[8] != IRANGE_HEAD[8];
  }



  /** An unknown source mode is not refused: no function is configured and no mode recorded. */
  lemma UnknownModeConfiguresNothing(vrang: Option<real>, irang: Option<real>)
    ensures RecordedMode("x", true) == None
    ensures Write(":SOUR:FUNC VOLT") !in InitCommands("x", vrang, irang)
    ensures Write(":SOUR:FUNC CURR") !in InitCommands("x", vrang, irang)
  {
    assert Lower("x") == "x";
  }
}
