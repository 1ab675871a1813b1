// The Bilt frame and its voltage-source and voltmeter modules. The frame owns
// the connection, so everything a module sends goes into the frame's log, and
// what a constructor sent before raising stays sent.
module Bilt {
  import opened Common
  import opened NumPy
  import opened Visa

  const NO_ERROR: string := "+000"
  /** The error query that closes every constructor, and what a non-zero answer raises. */
  const ERROR_QUERY: Command := Query("SYST:ERROR?")
  const SIGNALS_ERROR: string := "Bilt signals error"

  /** The identity prefix of a BN72 frame, quotes included. */
  const FRAME_IDENTITY: string := "\"FRAME/BN72"

  /** The source model that needs a trigger for its slope. */
  const RAMP_MODEL: string := "2142"

  /** What concatenating `None` to a command raises. */
  const NONE_CONCAT: string := "TypeError: can only concatenate str (not \"NoneType\") to str"

  /** What a constructor sent, and the exception it raised if any. */
  datatype Outcome = Outcome(sent: seq<Command>, raised: Option<string>)

  /** The frame, which every module talks through. */
  class Frame {
    var log: seq<Command>

    constructor ()
      ensures log == []
    {
      log := [];
    }
  }

  /** The frame constructor's exchange, or the exception it raises. */
  function FrameOpened(idn: string, err: string): Outcome
  {
    if !StartsWith(idn, FRAME_IDENTITY) then
      Outcome([Query("I0;*IDN?")], Some("Bilt does not respond or is incompatible with this driver"))
    else if Take(err, 4) != NO_ERROR then
      Outcome([Query("I0;*IDN?"), ERROR_QUERY], Some(SIGNALS_ERROR))
    else Outcome([Query("I0;*IDN?"), ERROR_QUERY], None)
  }

  /** `Bilt(connection)`: asks the frame module for its identity, then for errors. */
  method OpenFrame(idn: string, err: string) returns (r: Result<Frame>)
    ensures r.Ok? <==> FrameOpened(idn, err).raised.None?
    ensures r.Err? ==> r.error == FrameOpened(idn, err).raised.value
    ensures r.Ok? ==> fresh(r.value) && r.value.log == FrameOpened(idn, err).sent
  {
    var f := new Frame();
    f.log := f.log + [Query("I0;*IDN?")];
    if !StartsWith(idn, FRAME_IDENTITY) {
      return Err("Bilt does not respond or is incompatible with this driver");
    }
    f.log := f.log + [ERROR_QUERY];
    if Take(err, 4) != NO_ERROR {
      return Err(SIGNALS_ERROR);
    }
    r := Ok(f);
  }

  /** A frame opens exactly when it identifies as a BN72 and reports no error. */
  lemma FrameOpensIff(idn: string, err: string)
    ensures FrameOpened(idn, err).raised.None? <==> StartsWith(idn, FRAME_IDENTITY) && StartsWith(err, NO_ERROR)
  {
    if |err| >= 4 {
      assert Take(err, 4) == err[..4];
    }
  }

  /** The slope command: `"{}".format(slope)` prints `None` for a missing slope. */
  function SlopeCommand(channel: string, slope: Option<real>): Command
  {
    if slope.Some? then Number(channel + ";VOLT:SLOPE ", slope.value, "") else Write(channel + ";VOLT:SLOPE None")
  }

  /** The range commands: automatic, or fixed at the given range; a missing range raises after `AUTO 0`. */
  function RangeCommands(channel: string, rang: Option<string>): Outcome
  {
    if rang == Some("auto") then Outcome([Write(channel + ";VOLT:RANGE:AUTO 1")], None)
    else if rang.None? then Outcome([Write(channel + ";VOLT:RANGE:AUTO 0")], Some(NONE_CONCAT))
    else Outcome([Write(channel + ";VOLT:RANGE:AUTO 0"), Write(channel + ";VOLT:RANGE " + rang.value)], None)
  }

  /** The commands after the filter: slope (triggered on a 2142), zero volts, output on. */
  function SettleCommands(channel: string, slope: Option<real>, model: string): seq<Command>
  {
    (if model == RAMP_MODEL then [Write(channel + ";TRIG:INPUT 1")] else [])
    + [SlopeCommand(channel, slope), Write(channel + ";VOLT 0")]
    + (if model == RAMP_MODEL then [Write(channel + ";TRIG:INPUT:INIT")] else [])
    + [Write(channel + ";OUTPUT ON")]
  }

  /**
   * The initialisation of a voltage source: output off, range, filter, slope,
   * zero volts, output on; it stops at the first missing range or filter.
   */
  function InitCommands(channel: string, rang: Option<string>, filt: Option<string>, slope: Option<real>, model: string): Outcome
  {
    var range := RangeCommands(channel, rang);
    var head := [Write(channel + ";OUTPUT OFF")] + range.sent;
    if range.raised.Some? then Outcome(head, range.raised)
    else if filt.None? then Outcome(head, Some(NONE_CONCAT))
    else Outcome(head + [Write(channel + ";VOLT:FILTER " + filt.value)] + SettleCommands(channel, slope, model), None)
  }

  /** The identification query addressed to one channel. */
  function IdnQuery(channel: string): Command
  {
    Query(channel + ";*IDN?")
  }

  /** What the voltage-source constructor sends between the identification and the error query. */
  function SourceInit(channel: string, rang: Option<string>, filt: Option<string>, slope: Option<real>,
                      initialise: bool, model: string): Outcome
  {
    if initialise then InitCommands(channel, rang, filt, slope, model) else Outcome([], None)
  }

  /** The voltage-source constructor's exchange; `idn` answers the module's `*IDN?`, `err` the frame's error query. */
  function SourceOpened(channel: string, rang: Option<string>, filt: Option<string>, slope: Option<real>,
                        initialise: bool, idn: string, err: string): Outcome
  {
    var ask := [IdnQuery(channel)];
    var init := SourceInit(channel, rang, filt, slope, initialise, Take(idn, 4));
    if init.raised.Some? then Outcome(ask + init.sent, init.raised)
    else Outcome(ask + init.sent + [ERROR_QUERY], if Take(err, 4) != NO_ERROR then Some(SIGNALS_ERROR) else None)
  }

  /** A voltage source on one channel of the frame. */
  class VoltageSource {
    const frame: Frame
    const channel: string
    /** The first four characters of the module's identity. */
    const model: string

    constructor (frame: Frame, channel: string, model: string)
      ensures this.frame == frame && this.channel == channel && this.model == model
    {
      this.frame := frame;
      this.channel := channel;
      this.model := model;
    }

    /**
     * `set_voltage`: the value rounded to five decimals is written (and
     * triggered on a 2142) unless the present voltage, rounded alike, already
     * equals it; then the status is polled until it reads `1`.
     */
    method SetVoltage(value: real, reading: real, statuses: seq<string>)
      requires "1" in statuses
      modifies frame
      ensures frame.log == old(frame.log) + VoltageCommands(channel, model, value, reading, statuses)
    {
      ghost var cmds := VoltageCommands(channel, model, value, reading, statuses);
      frame.log := frame.log + [Query(channel + ";VOLT?")];
      if AlreadySet(value, reading) {
        assert cmds == [Query(channel + ";VOLT?")];
        return;
      }
      var v := RoundTo(value, 5);
      assert cmds == [Query(channel + ";VOLT?")] + ApplyCommands(channel, model, v, statuses);
      Apply(v, statuses);
    }

    /** Writes a new voltage, triggers a 2142 and waits for the source to settle. */
    method Apply(v: real, statuses: seq<string>)
      requires "1" in statuses
      modifies frame
      ensures frame.log == old(frame.log) + ApplyCommands(channel, model, v, statuses)
    {
      frame.log := frame.log + [Number(channel + ";VOLT ", v, "")];
      if model == RAMP_MODEL {
        frame.log := frame.log + [Write(channel + ";TRIG:INPUT:INIT")];
      }
      Poll(statuses);
    }

    /** Asks for the status until it reads `1`. */
    method Poll(statuses: seq<string>)
      requires "1" in statuses
      modifies frame
      ensures frame.log == old(frame.log) + Polls(channel, FirstIndex(statuses, "1") + 1)
    {
      ghost var t0 := frame.log;
      frame.log := frame.log + [Query(channel + ";VOLT:STATUS?")];
      var i := 0;
      var status := statuses[0];
      while status != "1"
        invariant 0 <= i < |statuses| && status == statuses[i]
        invariant "1" !in statuses[..i]
        invariant frame.log == t0 + Polls(channel, i + 1)
        decreases |statuses| - i
      {
        assert statuses[..i + 1] == statuses[..i] + [status];
        PollsAppend(channel, i + 1);
        i := i + 1;
        status := statuses[i];
        frame.log := frame.log + [Query(channel + ";VOLT:STATUS?")];
      }
      FirstIndexUnique(statuses, "1", i);
    }
  }

  /** `n` status queries. */
  function Polls(channel: string, n: nat): (r: seq<Command>)
    ensures |r| == n
    ensures forall c :: c in r ==> c == Query(channel + ";VOLT:STATUS?")
  {
    if n == 0 then [] else Polls(channel, n - 1) + [Query(channel + ";VOLT:STATUS?")]
  }

  lemma PollsAppend(channel: string, n: nat)
    ensures Polls(channel, n + 1) == Polls(channel, n) + [Query(channel + ";VOLT:STATUS?")]
  {
  }

  /** The position of the first `x` in `xs`. */
  function FirstIndex(xs: seq<string>, x: string): (r: nat)
    requires x in xs
    ensures r < |xs| && xs[r] == x && x !in xs[..r]
  {
    if xs[0] == x then 0
    else
      assert x in xs[1..];
      var k := FirstIndex(xs[1..], x);
      assert xs[..k + 1] == [xs[0]] + xs[1..][..k];
      k + 1
  }

  /** Any index holding the first `x` is `FirstIndex`. */
  lemma FirstIndexUnique(xs: seq<string>, x: string, i: nat)
    requires i < |xs| && xs[i] == x && x !in xs[..i]
    ensures FirstIndex(xs, x) == i
  {
  }

  /** Whether the present reading and the target agree to within 1e-12 once both are rounded to five decimals. */
  predicate AlreadySet(value: real, reading: real)
  {
    Abs(RoundTo(reading, 5) - RoundTo(value, 5)) < 0.000000000001
  }

  /** What `set_voltage` sends for the given present reading and status replies. */
  function VoltageCommands(channel: string, model: string, value: real, reading: real, statuses: seq<string>): seq<Command>
    requires "1" in statuses
  {
    if AlreadySet(value, reading) then [Query(channel + ";VOLT?")]
    else [Query(channel + ";VOLT?")] + ApplyCommands(channel, model, RoundTo(value, 5), statuses)
  }

  /** Writing a voltage: the value, the trigger of a 2142, then the status polls. */
  function ApplyCommands(channel: string, model: string, v: real, statuses: seq<string>): seq<Command>
    requires "1" in statuses
  {
    [Number(channel + ";VOLT ", v, "")]
    + (if model == RAMP_MODEL then [Write(channel + ";TRIG:INPUT:INIT")] else [])
    + Polls(channel, FirstIndex(statuses, "1") + 1)
  }

  /**
   * Setting a voltage the source already shows is a no-op: once the instrument
   * reads back the rounded value, setting the same value again only asks.
   */
  lemma SetVoltageIdempotent(channel: string, model: string, value: real, statuses: seq<string>)
    requires "1" in statuses
    ensures VoltageCommands(channel, model, value, RoundTo(value, 5), statuses) == [Query(channel + ";VOLT?")]
  {
    RoundToIdempotent(value, 5);
  }

  /**
   * A voltage that is written is written once, rounded to five decimals, and
   * the polling stops at the first status `1`.
   */
  lemma SetVoltageWritesRounded(channel: string, model: string, value: real, reading: real, statuses: seq<string>)
    requires "1" in statuses
    requires RoundTo(reading, 5) != RoundTo(value, 5)
    ensures var cmds := VoltageCommands(channel, model, value, reading, statuses);
      && Number(channel + ";VOLT ", RoundTo(value, 5), "") in cmds
      && (forall v :: Number(channel + ";VOLT ", v, "") in cmds ==> v == RoundTo(value, 5))
      && (Write(channel + ";TRIG:INPUT:INIT") in cmds <==> model == RAMP_MODEL)
      && |cmds| == 2 + (if model == RAMP_MODEL then 1 else 0) + FirstIndex(statuses, "1") + 1
  {
    AlreadySetIffEqual(value, reading);
    var cmds := VoltageCommands(channel, model, value, reading, statuses);
    var trig := if model == RAMP_MODEL then [Write(channel + ";TRIG:INPUT:INIT")] else [];
    var polls := Polls(channel, FirstIndex(statuses, "1") + 1);
    assert cmds == [Query(channel + ";VOLT?"), Number(channel + ";VOLT ", RoundTo(value, 5), "")] + trig + polls;
    assert Write(channel + ";TRIG:INPUT:INIT") !in polls;
  }

  /**
   * The 1e-12 tolerance of the comparison changes nothing: a voltage counts as
   * already set exactly when both roundings are equal.
   */
  lemma AlreadySetIffEqual(value: real, reading: real)
    ensures AlreadySet(value, reading) <==> RoundTo(reading, 5) == RoundTo(value, 5)
  {
    if RoundTo(reading, 5) != RoundTo(value, 5) {
      RoundedApart(reading, value);
    }
  }

  /** Two different five-decimal roundings are at least 1e-5 apart. */
  lemma RoundedApart(x: real, y: real)
    requires RoundTo(x, 5) != RoundTo(y, 5)
    ensures Abs(RoundTo(x, 5) - RoundTo(y, 5)) >= 0.00001
  {
    var p := Pow10(5);
    assert p == 100000.0;
    var a := RoundHalfEven(Shift(x, 5));
    var b := RoundHalfEven(Shift(y, 5));
    assert RoundTo(x, 5) - RoundTo(y, 5) == (a - b) as real / p;
  }

  /** The voltage-source constructor `BiltVoltageSource(bilt, channel, ...)`. */
  method OpenSource(frame: Frame, channel: string, rang: Option<string>, filt: Option<string>, slope: Option<real>,
                    initialise: bool, idn: string, err: string) returns (r: Result<VoltageSource>)
    modifies frame
    ensures var o := SourceOpened(channel, rang, filt, slope, initialise, idn, err);
      && frame.log == old(frame.log) + o.sent
      && (r.Ok? <==> o.raised.None?)
      && (r.Err? ==> r.error == o.raised.value)
    ensures r.Ok? ==> fresh(r.value) && r.value.frame == frame && r.value.channel == channel && r.value.model == Take(idn, 4)
  {
    ghost var t0 := frame.log;
    var model := Take(idn, 4);
    var raised := Identify(frame, channel, rang, filt, slope, initialise, model);
    ghost var init := SourceInit(channel, rang, filt, slope, initialise, model);
    SourceOpenedParts(channel, rang, filt, slope, initialise, idn, err, init);
    if raised.Some? {
      return Err(raised.value);
    }
    r := CheckSource(frame, channel, model, err);
    assert frame.log == t0 + ([IdnQuery(channel)] + init.sent + [ERROR_QUERY]);
  }

  /** The identification query, then with `initialise` the initialisation. */
  method Identify(frame: Frame, channel: string, rang: Option<string>, filt: Option<string>, slope: Option<real>,
                  initialise: bool, model: string) returns (raised: Option<string>)
    modifies frame
    ensures var init := SourceInit(channel, rang, filt, slope, initialise, model);
      frame.log == old(frame.log) + [IdnQuery(channel)] + init.sent && raised == init.raised
  {
    frame.log := frame.log + [IdnQuery(channel)];
    raised := None;
    if initialise {
      raised := Initialise(frame, channel, rang, filt, slope, model);
    }
  }

  lemma SourceOpenedParts(channel: string, rang: Option<string>, filt: Option<string>, slope: Option<real>,
                          initialise: bool, idn: string, err: string, init: Outcome)
    requires init == SourceInit(channel, rang, filt, slope, initialise, Take(idn, 4))
    ensures SourceOpened(channel, rang, filt, slope, initialise, idn, err).sent ==
            [IdnQuery(channel)] + init.sent + (if init.raised.None? then [ERROR_QUERY] else [])
    ensures SourceOpened(channel, rang, filt, slope, initialise, idn, err).raised ==
            if init.raised.Some? then init.raised else if Take(err, 4) != NO_ERROR then Some(SIGNALS_ERROR) else None
  {
  }

  /** The error query that ends the voltage-source constructor, and the source it returns. */
  method CheckSource(frame: Frame, channel: string, model: string, err: string) returns (r: Result<VoltageSource>)
    modifies frame
    ensures frame.log == old(frame.log) + [ERROR_QUERY]
    ensures r.Ok? <==> Take(err, 4) == NO_ERROR
    ensures r.Err? ==> r.error == SIGNALS_ERROR
    ensures r.Ok? ==> fresh(r.value) && r.value.frame == frame && r.value.channel == channel && r.value.model == model
  {
    frame.log := frame.log + [ERROR_QUERY];
    if Take(err, 4) != NO_ERROR {
      return Err(SIGNALS_ERROR);
    }
    var s := new VoltageSource(frame, channel, model);
    r := Ok(s);
  }

  /** The initialising part of the voltage-source constructor. */
  method Initialise(frame: Frame, channel: string, rang: Option<string>, filt: Option<string>, slope: Option<real>,
                    model: string) returns (raised: Option<string>)
    modifies frame
    ensures var o := InitCommands(channel, rang, filt, slope, model);
      frame.log == old(frame.log) + o.sent && raised == o.raised
  {
    ghost var t0 := frame.log;
    frame.log := frame.log + [Write(channel + ";OUTPUT OFF")];
    raised := SetRange(frame, channel, rang);
    if raised.Some? {
      return;
    }
    if filt.None? {
      return Some(NONE_CONCAT);
    }
    frame.log := frame.log + [Write(channel + ";VOLT:FILTER " + filt.value)];
    Settle(frame, channel, slope, model);
  }

  /** Selects automatic or fixed range. */
  method SetRange(frame: Frame, channel: string, rang: Option<string>) returns (raised: Option<string>)
    modifies frame
    ensures frame.log == old(frame.log) + RangeCommands(channel, rang).sent && raised == RangeCommands(channel, rang).raised
  {
    if rang == Some("auto") {
      frame.log := frame.log + [Write(channel + ";VOLT:RANGE:AUTO 1")];
      return None;
    }
    frame.log := frame.log + [Write(channel + ";VOLT:RANGE:AUTO 0")];
    if rang.None? {
      return Some(NONE_CONCAT);
    }
    frame.log := frame.log + [Write(channel + ";VOLT:RANGE " + rang.value)];
    raised := None;
  }

  /** Sets the slope, zeroes the voltage and switches the output on, triggering a 2142. */
  method Settle(frame: Frame, channel: string, slope: Option<real>, model: string)
    modifies frame
    ensures frame.log == old(frame.log) + SettleCommands(channel, slope, model)
  {
    if model == RAMP_MODEL {
      frame.log := frame.log + [Write(channel + ";TRIG:INPUT 1")];
    }
    frame.log := frame.log + [SlopeCommand(channel, slope), Write(channel + ";VOLT 0")];
    if model == RAMP_MODEL {
      frame.log := frame.log + [Write(channel + ";TRIG:INPUT:INIT")];
    }
    frame.log := frame.log + [Write(channel + ";OUTPUT ON")];
  }

  /**
   * A voltage source is switched off first and switched on last; without a
   * range or a filter the constructor raises with the output left off.
   */
  lemma InitialisationOrder(channel: string, rang: Option<string>, filt: Option<string>, slope: Option<real>, model: string)
    ensures var o := InitCommands(channel, rang, filt, slope, model);
      && o.sent[0] == Write(channel + ";OUTPUT OFF")
      && (o.raised.None? <==> rang.Some? && filt.Some?)
      && (o.raised.None? ==> o.sent[|o.sent| - 1] == Write(channel + ";OUTPUT ON"))
      && (o.raised.Some? ==> o.raised == Some(NONE_CONCAT) && Write(channel + ";OUTPUT ON") !in o.sent)
  {
    var o := InitCommands(channel, rang, filt, slope, model);
    var range := RangeCommands(channel, rang);
    var off := Write(channel + ";OUTPUT OFF");
    var on := Write(channel + ";OUTPUT ON");
    if o.raised.Some? {
      assert o.sent == [off] + range.sent;
      assert on != off by { OnIsNotOff(channel); }
      forall c | c in range.sent
        ensures c != on
      {
        assert c.text[..|channel|] == channel;
        TextsDiffer(channel, c.text[|channel|..], ";OUTPUT ON");
      }
    }
  }

  lemma OnIsNotOff(channel: string)
    ensures channel + ";OUTPUT ON" != channel + ";OUTPUT OFF"
  {
    assert |channel + ";OUTPUT ON"| != |channel + ";OUTPUT OFF"|;
  }

  /** Two commands on the same channel differ when what follows the channel differs. */
  lemma TextsDiffer(channel: string, a: string, b: string)
    requires a != b
    ensures channel + a != channel + b
  {
    assert (channel + a)[|channel|..] == a;
    assert (channel + b)[|channel|..] == b;
  }

  /** The slope trigger is set up and fired exactly for the 2142 model. */
  lemma TriggerOnlyFor2142(channel: string, slope: Option<real>, model: string)
    ensures var cmds := SettleCommands(channel, slope, model);
      && (Write(channel + ";TRIG:INPUT 1") in cmds <==> model == RAMP_MODEL)
      && (Write(channel + ";TRIG:INPUT:INIT") in cmds <==> model == RAMP_MODEL)
  {
    var cmds := SettleCommands(channel, slope, model);
    var fixed := [SlopeCommand(channel, slope), Write(channel + ";VOLT 0"), Write(channel + ";OUTPUT ON")];
    var t1 := Write(channel + ";TRIG:INPUT 1");
    var t2 := Write(channel + ";TRIG:INPUT:INIT");
    TextsDiffer(channel, ";TRIG:INPUT 1", ";VOLT 0");
    TextsDiffer(channel, ";TRIG:INPUT 1", ";OUTPUT ON");
    TextsDiffer(channel, ";TRIG:INPUT:INIT", ";VOLT 0");
    TextsDiffer(channel, ";TRIG:INPUT:INIT", ";OUTPUT ON");
    TextsDiffer(channel, ";TRIG:INPUT 1", ";TRIG:INPUT:INIT");
    if slope.None? {
      TextsDiffer(channel, ";TRIG:INPUT 1", ";VOLT:SLOPE None");
      TextsDiffer(channel, ";TRIG:INPUT:INIT", ";VOLT:SLOPE None");
    }
    assert t1 !in fixed && t2 !in fixed;
    if model != RAMP_MODEL {
      assert cmds == [fixed[0], fixed[1]] + [fixed[2]];
    }
  }

  /** A voltmeter on one channel of the frame. */
  class VoltMeter {
    const frame: Frame
    const channel: string

    constructor (frame: Frame, channel: string)
      ensures this.frame == frame && this.channel == channel
    {
      this.frame := frame;
      this.channel := channel;
    }

    /** `get_voltage`: the reply to the channel's measurement query. */
    method GetVoltage(reply: real) returns (r: real)
      modifies frame
      ensures r == reply && frame.log == old(frame.log) + [Query(channel + ";MEAS?")]
    {
      frame.log := frame.log + [Query(channel + ";MEAS?")];
      r := reply;
    }
  }

  /** The voltmeter constructor `BiltVoltMeter(bilt, channel, filt)`: sets the filter, then checks for errors. */
  method OpenMeter(frame: Frame, channel: string, filt: string, err: string) returns (r: Result<VoltMeter>)
    modifies frame
    ensures frame.log == old(frame.log) + [Write(channel + ";MEAS:FIL " + filt), ERROR_QUERY]
    ensures r.Ok? <==> StartsWith(err, NO_ERROR)
    ensures r.Err? ==> r.error == SIGNALS_ERROR
    ensures r.Ok? ==> fresh(r.value) && r.value.frame == frame && r.value.channel == channel
  {
    frame.log := frame.log + [Write(channel + ";MEAS:FIL " + filt), ERROR_QUERY];
    if Take(err, 4) != NO_ERROR {
      return Err(SIGNALS_ERROR);
    }
    var m := new VoltMeter(frame, channel);
    r := Ok(m);
  }
}
