// The Keithley 2600 SourceMeter driver: the channel check, the start-up
// sequence addressed to one SMU channel, and the voltage ramp, which (unlike
// the 2400's) writes a target exactly one step away at once.
module Keithley2600 {
  import opened Common
  import opened NumPy
  import opened Visa
  import Ramp

  /** The driver updates a ramping source every 10 ms. */
  const TIME_STEP: real := 0.01

  /** The name of a channel's source-measure unit in the instrument's scripts. */
  function Smu(ch: string): string
  {
    "smu" + ch
  }

  /** A channel name is accepted in either case, as `a` or `b`. */
  predicate ValidChannel(channel: string)
  {
    Lower(channel) == "a" || Lower(channel) == "b"
  }

  /** The start-up commands with initialise: a reset if asked, the display, the source function and output on. */
  function InitCommands(ch: string, reset: bool): seq<Command>
  {
    (if reset then [Write("reset()")] else [])
    + [Write("display." + Smu(ch) + ".measure.func = display.MEASURE_DCAMPS"),
       Write(Smu(ch) + ".source.func = " + Smu(ch) + ".OUTPUT_DCVOLTS"),
       Write(Smu(ch) + ".source.output = " + Smu(ch) + ".OUTPUT_ON")]
  }

  /** What the constructor sends, or the exception it raises; `model` answers `print(localnode.model)`. */
  function Opened(channel: string, initialise: bool, reset: bool, model: string): Result<seq<Command>>
  {
    if !ValidChannel(channel) then Err("Invalid channel")
    else if !StartsWith(model, "260") then Err("Instrument not compatible with Keithley 2600 driver")
    else Ok((if reset then [Clear] else []) + [Query("print(localnode.model)")]
            + (if initialise then InitCommands(Lower(channel), reset) else []))
  }

  class K2600 {
    const slope: real
    const channel: string
    var log: seq<Command>

    constructor (slope: real, channel: string)
      ensures this.slope == slope && this.channel == channel && log == []
    {
      this.slope := slope;
      this.channel := channel;
      log := [];
    }

    /** The command that writes a voltage level on this channel, before the number. */
    function Level(): string
      reads this
    {
      Smu(channel) + ".source.levelv = "
    }

    /**
     * `set_voltage`: reads the present set-point, then writes the value at once
     * when it is at most one step away, or ramps to it one step per tick.
     */
    method SetVoltage(value: real, present: real) returns (raised: Option<string>)
      modifies this
      ensures var ramp := Ramp.Setpoints(present, value, TIME_STEP * slope, true);
        var asked := old(log) + [Query("print(" + Smu(channel) + ".source.levelv)")];
        && (ramp.Ok? ==> raised == None && log == asked + Numbers(Level(), ramp.value, ""))
        && (ramp.Err? ==> raised == Some(ramp.error) && log == asked)
    {
      log := log + [Query("print(" + Smu(channel) + ".source.levelv)")];
      var step := TIME_STEP * slope;
      Ramp.SetpointsAreArange(present, value, step, true);
      if Abs(value - present) <= step {
        log := log + [Number(Level(), value, "")];
        return None;
      }
      var slow := Arange(present, value, Sign(value - present) * step);
      if slow.Err? {
        return Some(slow.error);
      }
      WriteLevels(slow.value + [value]);
      raised := None;
    }

    /** Writes the voltage levels in turn. */
    method WriteLevels(vs: seq<real>)
      modifies this
      ensures log == old(log) + Numbers(Level(), vs, "")
    {
      ghost var t0 := log;
      for i := 0 to |vs|
        invariant log == t0 + Numbers(Level(), vs[..i], "")
      {
        NumbersAppend(Level(), vs[..i], vs[i], "");
        assert vs[..i + 1] == vs[..i] + [vs[i]];
        log := log + [Number(Level(), vs[i], "")];
      }
      assert vs[..|vs|] == vs;
    }

    /** `get_voltsetpoint`: the reply to the set-point query. */
    method GetVoltsetpoint(reply: real) returns (r: real)
      modifies this
      ensures r == reply && log == old(log) + [Query("print(" + Smu(channel) + ".source.levelv)")]
    {
      log := log + [Query("print(" + Smu(channel) + ".source.levelv)")];
      r := reply;
    }

    /** `get_voltage`: the reply to the voltage measurement. */
    method GetVoltage(reply: real) returns (r: real)
      modifies this
      ensures r == reply && log == old(log) + [Query("print(" + Smu(channel) + ".measure.v())")]
    {
      log := log + [Query("print(" + Smu(channel) + ".measure.v())")];
      r := reply;
    }

    /** `get_current`: the reply to the current measurement. */
    method GetCurrent(reply: real) returns (r: real)
      modifies this
      ensures r == reply && log == old(log) + [Query("print(" + Smu(channel) + ".measure.i())")]
    {
      log := log + [Query("print(" + Smu(channel) + ".measure.i())")];
      r := reply;
    }
  }

  /** The constructor `K2600(...)`: nothing is sent for an invalid channel. */
  method Open(channel: string, slope: real, initialise: bool, reset: bool, model: string) returns (r: Result<K2600>)
    ensures r.Ok? <==> Opened(channel, initialise, reset, model).Ok?
    ensures r.Err? ==> r.error == Opened(channel, initialise, reset, model).error
    ensures r.Ok? ==> fresh(r.value) && r.value.slope == slope && r.value.channel == Lower(channel)
    ensures r.Ok? ==> r.value.log == Opened(channel, initialise, reset, model).value
  {
    var ch := Lower(channel);
    if ch != "a" && ch != "b" {
      return Err("Invalid channel");
    }
    var k := new K2600(slope, ch);
    if reset {
      k.log := k.log + [Clear];
    }
    k.log := k.log + [Query("print(localnode.model)")];
    if !StartsWith(model, "260") {
      return Err("Instrument not compatible with Keithley 2600 driver");
    }
    if initialise {
      if reset {
        k.log := k.log + [Write("reset()")];
      }
      k.log := k.log + [Write("display." + Smu(ch) + ".measure.func = display.MEASURE_DCAMPS"),
                        Write(Smu(ch) + ".source.func = " + Smu(ch) + ".OUTPUT_DCVOLTS"),
                        Write(Smu(ch) + ".source.output = " + Smu(ch) + ".OUTPUT_ON")];
    }
    r := Ok(k);
  }

  /**
   * The instrument is reset only when both initialise and reset are asked, and
   * cleared exactly when reset is asked, before anything else.
   */
  lemma ResetNeedsInitialise(channel: string, initialise: bool, reset: bool, model: string)
    requires Opened(channel, initialise, reset, model).Ok?
    ensures var cmds := Opened(channel, initialise, reset, model).value;
      && (Write("reset()") in cmds <==> initialise && reset)
      && (Clear in cmds <==> reset)
      && (reset ==> cmds[0] == Clear)
  {
    var ch := Lower(channel);
    var cmds := Opened(channel, initialise, reset, model).value;
    var init := if initialise then InitCommands(ch, reset) else [];
    var fixed := [Write("display." + Smu(ch) + ".measure.func = display.MEASURE_DCAMPS"),
                  Write(Smu(ch) + ".source.func = " + Smu(ch) + ".OUTPUT_DCVOLTS"),
                  Write(Smu(ch) + ".source.output = " + Smu(ch) + ".OUTPUT_ON")];
    assert Write("reset()") !in fixed by {
      assert Write("reset()") != fixed[0] by { assert |fixed[0].text| > 7; }
      assert Write("reset()") != fixed[1] by { assert |fixed[1].text| > 7; }
      assert Write("reset()") != fixed[2] by { assert |fixed[2].text| > 7; }
    }
    assert Clear !in init;
    assert cmds == (if reset then [Clear] else []) + [Query("print(localnode.model)")] + init;
  }

  /** With initialise, the output is switched on last. */
  lemma OutputOnLast(channel: string, reset: bool, model: string)
    requires Opened(channel, true, reset, model).Ok?
    ensures var cmds := Opened(channel, true, reset, model).value;
      cmds[|cmds| - 1] == Write(Smu(Lower(channel)) + ".source.output = " + Smu(Lower(channel)) + ".OUTPUT_ON")
  {
  }

  /** The channel name is case-insensitive: `'A'` and `'a'` open the same channel the same way. */
  lemma ChannelIgnoresCase(channel: string, initialise: bool, reset: bool, model: string)
    ensures Opened(channel, initialise, reset, model) == Opened(Lower(channel), initialise, reset, model)
  {
    assert Lower(Lower(channel)) == Lower(channel);
  }

  /**
   * Where the 2400 ramps, the 2600 writes a target exactly one step away at
   * once; both jump to a target nearer than one step.
   */
  lemma OneStepIsOneWrite(present: real, step: real)
    requires step > 0.0
    ensures Ramp.Setpoints(present, present + step, step, true) == Ok([present + step])
    ensures Ramp.Setpoints(present, present + step, step, false) == Ok([present, present + step])
  {
    var target := present + step;
    assert Abs(target - present) == step;
    assert !Ramp.Close(present, target, step, false);
    var s := Sign(target - present) * step;
    assert s == step;
    assert (target - present) / s == 1.0;
    assert Ramp.Count(present, target, s) == 1;
    var w := Ramp.Walk(present, s, 1);
    assert w == [present];
    assert Ramp.Setpoints(present, target, step, false) == Ok(w + [target]);
    assert w + [target] == [present, target];
  }
}
