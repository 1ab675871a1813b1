// The Anritsu MS4644B vector network analyser driver: the start-up checks, the
// sweep-done state machine that walks the ports through the status byte
// (section 11.2 of IEEE 488.2), single sweeps, traces split into real and
// imaginary parts, tables of traces, and the sweep-type guards.
module AnritsuVna {
  import opened Common
  import opened Visa

  /** The analyser sweeps this many ports, one after the other. */
  const TOTAL_PORTS: int := 2

  const ASCII: Command := Write(":FORM:DATA ASC;")
  const BINARY: Command := Write(":FORM:DATA REAL;")
  const CLEAR_STATUS: Command := Write("*CLS;")
  const ASK_STATUS: Command := Query("*STB?")
  const ASK_TYPE: Command := Query(":SENS:SWE:TYP?")

  /** Bit 7 (value 128) of a status byte, as Python's `int(stb) & 128` sees it. */
  predicate Bit7(stb: int)
  {
    stb % 256 >= 128
  }

  /** What a start-up sends, and the exception it raised if any. */
  datatype Outcome = Outcome(sent: seq<Command>, raised: Option<string>)

  /** The identity a connection answers with: a TCP/IP socket greets first. */
  function FirstResponse(connection: string): string
  {
    if StartsWith(connection, "TCPIP") then "100 Connection accepted ANRITSU,MS4644B" else "ANRITSU,MS4644B"
  }

  /** The constructor's exchange; `idn` and `err` are the replies to `*IDN?` and `SYST:ERR?`. */
  function Opened(connection: string, idn: string, err: string): Outcome
  {
    var ask := [ASCII, Query("*IDN?")];
    if !StartsWith(idn, FirstResponse(connection)) then Outcome(ask, Some("Unsupported device / cannot initialise"))
    else
      var sent := ask + [Write("*ESE 60;*SRE 48;*CLS;:FORM:BORD NORM;"), Write(":SENS1:SWE:TIM:TYP AUT;"),
                         Write(":SENS1:SWE:TIM:STAT 1;"), Query("SYST:ERR?")];
      if !StartsWith(err, "No Error") then Outcome(sent, Some("Device error")) else Outcome(sent, None)
  }

  /** What one `is_sweep_done` call found: whether the sweep is done, the port it left, what it sent. */
  datatype Check = Check(done: bool, port: int, sent: seq<Command>)

  /**
   * `is_sweep_done` from `port`, reading the status bytes `stbs` in turn: with
   * bit 7 set the port has finished, the status is cleared and the next port
   * is checked; after the last port the sweep is done and no port sweeps.
   */
  function SweepCheck(port: int, stbs: seq<int>): (r: Result<Check>)
    requires 0 <= port <= TOTAL_PORTS
    requires port == 0 || |stbs| > TOTAL_PORTS - port
    ensures r.Ok? <==> port != 0
    ensures r.Ok? && r.value.done ==> r.value.port == 0
    ensures r.Ok? && !r.value.done ==> port <= r.value.port <= TOTAL_PORTS
    decreases TOTAL_PORTS - port
  {
    if port == 0 then Err("No sweep is running")
    else if !Bit7(stbs[0]) then Ok(Check(false, port, [ASK_STATUS]))
    else if port == TOTAL_PORTS then Ok(Check(true, 0, [ASK_STATUS, CLEAR_STATUS]))
    else
      var rest := SweepCheck(port + 1, stbs[1..]).value;
      Ok(Check(rest.done, rest.port, [ASK_STATUS, CLEAR_STATUS] + rest.sent))
  }

  /**
   * A running sweep is done exactly when every port from the present one on
   * reports bit 7; otherwise the check stops at the first port that does not,
   * having advanced past those that did.
   */
  lemma {:induction false} SweepDoneIffAllPortsReport(port: int, stbs: seq<int>)
    requires 1 <= port <= TOTAL_PORTS && |stbs| > TOTAL_PORTS - port
    ensures var c := SweepCheck(port, stbs).value;
      && (c.done <==> forall i :: 0 <= i <= TOTAL_PORTS - port ==> Bit7(stbs[i]))
      && (!c.done ==> !Bit7(stbs[c.port - port]) && forall i :: 0 <= i < c.port - port ==> Bit7(stbs[i]))
    decreases TOTAL_PORTS - port
  {
    if Bit7(stbs[0]) && port < TOTAL_PORTS {
      SweepDoneIffAllPortsReport(port + 1, stbs[1..]);
      var c := SweepCheck(port, stbs).value;
      forall i | 1 <= i <= TOTAL_PORTS - port
        ensures stbs[i] == stbs[1..][i - 1]
      {
      }
    }
  }

  /** The status bytes one `is_sweep_done` call may read: at most one per port. */
  function Replies(p: (int, int)): (r: seq<int>)
    ensures |r| == TOTAL_PORTS
  {
    [p.0, p.1]
  }

  /**
   * What waiting for a sweep does: `is_sweep_done` is asked once per element
   * of `polls`, each the status bytes that call reads, until it answers true;
   * later elements are never asked for.
   */
  function Wait(port: int, polls: seq<(int, int)>): (r: Check)
    requires 1 <= port <= TOTAL_PORTS
    ensures r.done ==> r.port == 0
    ensures !r.done ==> 1 <= r.port <= TOTAL_PORTS
  {
    if |polls| == 0 then Check(false, port, [])
    else
      var w := Wait(port, polls[..|polls| - 1]);
      if w.done then w
      else
        var c := SweepCheck(w.port, Replies(polls[|polls| - 1])).value;
        Check(c.done, c.port, w.sent + c.sent)
  }

  /** Once the sweep is done, further status bytes change nothing: the wait has stopped. */
  lemma {:induction false} WaitStops(port: int, polls: seq<(int, int)>, n: nat)
    requires 1 <= port <= TOTAL_PORTS && n <= |polls|
    requires Wait(port, polls[..n]).done
    ensures Wait(port, polls) == Wait(port, polls[..n])
    decreases |polls| - n
  {
    if n < |polls| {
      assert polls[..n + 1][..n] == polls[..n];
      WaitStops(port, polls, n + 1);
    } else {
      assert polls[..n] == polls;
    }
  }

  /** The commands of `single_sweep` up to the trigger. */
  const SWEEP_COMMANDS: seq<Command> :=
    [Write(":SENS1:HOLD:FUNC HOLD;"), Write(":STAT:OPER:PTR 2"), Write(":STAT:OPER:ENAB 2"), CLEAR_STATUS,
     Write(":SENS1:HOLD:FUNC SING;"), Write(":TRIG:SOUR AUTO;"), Write(":TRIG;")]

  /** Every other element, from the first: `data[::2]`. */
  function Evens(data: seq<real>): (r: seq<real>)
    ensures |r| == (|data| + 1) / 2
    ensures forall i :: 0 <= i < |r| ==> r[i] == data[2 * i]
  {
    seq((|data| + 1) / 2, i requires 0 <= i < (|data| + 1) / 2 => data[2 * i])
  }

  /** Every other element, from the second: `data[1::2]`. */
  function Odds(data: seq<real>): (r: seq<real>)
    ensures |r| == |data| / 2
    ensures forall i :: 0 <= i < |r| ==> r[i] == data[2 * i + 1]
  {
    seq(|data| / 2, i requires 0 <= i < |data| / 2 => data[2 * i + 1])
  }

  /** Real and imaginary parts side by side, as the analyser sends a trace. */
  function Interleave(re: seq<real>, im: seq<real>): (r: seq<real>)
    requires |re| == |im|
    ensures |r| == 2 * |re|
  {
    if |re| == 0 then [] else [re[0], im[0]] + Interleave(re[1..], im[1..])
  }

  lemma {:induction false} InterleaveAt(re: seq<real>, im: seq<real>, i: nat)
    requires |re| == |im| && i < |re|
    ensures Interleave(re, im)[2 * i] == re[i] && Interleave(re, im)[2 * i + 1] == im[i]
  {
    if i > 0 {
      InterleaveAt(re[1..], im[1..], i - 1);
    }
  }

  /** Splitting an interleaved trace gives back its real and imaginary parts. */
  lemma SplitInterleave(re: seq<real>, im: seq<real>)
    requires |re| == |im|
    ensures Evens(Interleave(re, im)) == re
    ensures Odds(Interleave(re, im)) == im
  {
    forall i | 0 <= i < |re|
      ensures Evens(Interleave(re, im))[i] == re[i] && Odds(Interleave(re, im))[i] == im[i]
    {
      InterleaveAt(re, im, i);
    }
  }

  /** A trace of even length is its real and imaginary parts interleaved. */
  lemma InterleaveSplit(data: seq<real>)
    requires |data| % 2 == 0
    ensures Interleave(Evens(data), Odds(data)) == data
  {
    var d := Interleave(Evens(data), Odds(data));
    forall k | 0 <= k < |data|
      ensures d[k] == data[k]
    {
      InterleaveAt(Evens(data), Odds(data), k / 2);
    }
  }

  /** What `ask_values(q)` sends: binary format for the one query, then ASCII again. */
  function Values(q: string): seq<Command>
  {
    [BINARY, Query(q), ASCII]
  }

  /** What `get_trace(n)` sends. */
  function TraceCommands(n: int): seq<Command>
  {
    [Write(":CALC1:PAR" + IntText(n) + ":SEL;")] + Values(":CALC1:DATA:SDAT?")
  }

  /** What fetching the traces `nums` in turn sends. */
  function TracesCommands(nums: seq<int>): seq<Command>
  {
    if |nums| == 0 then [] else TracesCommands(nums[..|nums| - 1]) + TraceCommands(nums[|nums| - 1])
  }

  /** The message a sweep-type guard raises. */
  function GuardMessage(name: string, mode: string): string
  {
    "Function " + name + " can only be used when VNA is in " + mode + " sweep mode)"
  }

  /** The linear-sweep guard: the function runs only when the sweep type reads `LIN`. */
  function LinearOnly(name: string, sweepType: string): Option<string>
  {
    if sweepType == "LIN" then None else Some(GuardMessage(name, "linear"))
  }

  /** The segmented-sweep guard: the function runs only when the sweep type reads `FSEGM`. */
  function SegmentedOnly(name: string, sweepType: string): Option<string>
  {
    if sweepType == "FSEGM" then None else Some(GuardMessage(name, "FSEGM"))
  }

  /** The two guards exclude each other: no sweep type passes both. */
  lemma GuardsExclusive(a: string, b: string, sweepType: string)
    ensures LinearOnly(a, sweepType).None? ==> SegmentedOnly(b, sweepType).Some?
    ensures LinearOnly(a, sweepType).Some? <==> sweepType != "LIN"
    ensures SegmentedOnly(b, sweepType).Some? <==> sweepType != "FSEGM"
  {
  }

  class Vna {
    /** The port whose sweep is awaited, 0 when no sweep runs. */
    var sweepingPort: int
    var log: seq<Command>

    predicate Valid()
      reads this
    {
      0 <= sweepingPort <= TOTAL_PORTS
    }

    constructor (sent: seq<Command>)
      ensures Valid() && sweepingPort == 0 && log == sent
    {
      sweepingPort := 0;
      log := sent;
    }

    /**
     * `is_sweep_done`: raises when no sweep runs; otherwise reads the status
     * byte and either answers false, or clears it and moves on to the next
     * port, answering true (and stopping) after the last.
     */
    method IsSweepDone(stbs: seq<int>) returns (r: Result<bool>)
      requires Valid()
      requires sweepingPort == 0 || |stbs| > TOTAL_PORTS - sweepingPort
      modifies this
      ensures Valid()
      ensures var c := SweepCheck(old(sweepingPort), stbs);
        && (r.Ok? <==> c.Ok?)
        && (r.Err? ==> r.error == c.error && sweepingPort == old(sweepingPort) && log == old(log))
        && (r.Ok? ==> r.value == c.value.done && sweepingPort == c.value.port && log == old(log) + c.value.sent)
      decreases TOTAL_PORTS - sweepingPort
    {
      if sweepingPort == 0 {
        return Err("No sweep is running");
      }
      log := log + [ASK_STATUS];
      if !Bit7(stbs[0]) {
        return Ok(false);
      }
      if sweepingPort == TOTAL_PORTS {
        sweepingPort := 0;
        log := log + [CLEAR_STATUS];
        return Ok(true);
      }
      ghost var t0 := old(log);
      sweepingPort := sweepingPort + 1;
      log := log + [CLEAR_STATUS];
      r := IsSweepDone(stbs[1..]);
      assert log == t0 + ([ASK_STATUS, CLEAR_STATUS] + SweepCheck(old(sweepingPort) + 1, stbs[1..]).value.sent);
    }

    /** `stop_sweep`: puts the sweep on hold. */
    method StopSweep()
      modifies this
      ensures log == old(log) + [Write(":SENS1:HOLD:FUNC HOLD;")] && sweepingPort == old(sweepingPort)
    {
      log := log + [Write(":SENS1:HOLD:FUNC HOLD;")];
    }

    /**
     * `single_sweep`: holds, arms the sweep-complete event, clears the status,
     * triggers one sweep and awaits port 1; with `wait`, asks `is_sweep_done`
     * once per element of `polls` until it is true. `finished` is false only
     * when the polls ran out first.
     */
    method SingleSweep(wait: bool, polls: seq<(int, int)>) returns (finished: bool)
        modifies this
      ensures Valid()
      ensures !wait ==> finished && sweepingPort == 1 && log == old(log) + SWEEP_COMMANDS
      ensures wait ==> var w := Wait(1, polls);
        finished == w.done && sweepingPort == w.port && log == old(log) + SWEEP_COMMANDS + w.sent
    {
      StopSweep();
      log := log + [Write(":STAT:OPER:PTR 2"), Write(":STAT:OPER:ENAB 2"), CLEAR_STATUS,
                    Write(":SENS1:HOLD:FUNC SING;"), Write(":TRIG:SOUR AUTO;"), Write(":TRIG;")];
      sweepingPort := 1;
      finished := true;
      if wait {
        finished := WaitForSweep(polls);
      }
    }

    /** The waiting loop of `single_sweep`. */
    method WaitForSweep(polls: seq<(int, int)>) returns (finished: bool)
      requires 1 <= sweepingPort <= TOTAL_PORTS
        modifies this
      ensures var w := Wait(old(sweepingPort), polls);
        finished == w.done && sweepingPort == w.port && log == old(log) + w.sent
    {
      ghost var t0 := log;
      ghost var sent: seq<Command> := [];
      ghost var p0 := sweepingPort;
      var i := 0;
      finished := false;
      while !finished && i < |polls|
        invariant 0 <= i <= |polls|
        invariant Wait(p0, polls[..i]) == Check(finished, sweepingPort, sent)
        invariant log == t0 + sent
        decreases |polls| - i
      {
        assert polls[..i + 1][..i] == polls[..i];
        ghost var c := SweepCheck(sweepingPort, Replies(polls[i])).value;
        finished := Poll(polls[i]);
        sent := sent + c.sent;
        i := i + 1;
      }
      if finished {
        WaitStops(p0, polls, i);
      } else {
        assert polls[..i] == polls;
      }
    }

    /** One `is_sweep_done` while a sweep runs, which cannot raise. */
    method Poll(p: (int, int)) returns (done: bool)
      requires 1 <= sweepingPort <= TOTAL_PORTS
      modifies this
      ensures var c := SweepCheck(old(sweepingPort), Replies(p)).value;
        done == c.done && sweepingPort == c.port && log == old(log) + c.sent
    {
      var r := IsSweepDone(Replies(p));
      done := r.value;
    }

    /** `get_freq_list`: the frequencies, fetched in binary. */
    method GetFreqList(freqs: seq<real>) returns (r: seq<real>)
      modifies this
      ensures r == freqs && log == old(log) + Values(":SENS1:FREQ:DATA?") && sweepingPort == old(sweepingPort)
    {
      log := log + Values(":SENS1:FREQ:DATA?");
      r := freqs;
    }

    /** `get_trace`: selects trace `n`, fetches its data and splits it into real and imaginary parts. */
    method GetTrace(n: int, data: seq<real>) returns (sreal: seq<real>, simag: seq<real>)
      modifies this
      ensures sreal == Evens(data) && simag == Odds(data)
      ensures log == old(log) + TraceCommands(n) && sweepingPort == old(sweepingPort)
    {
      log := log + [Write(":CALC1:PAR" + IntText(n) + ":SEL;")] + Values(":CALC1:DATA:SDAT?");
      sreal := Evens(data);
      simag := Odds(data);
    }

    /**
     * `get_table`: the frequency list, then the real and the imaginary part of
     * each trace asked for, in order; `datas[k]` is what trace `nums[k]` returns.
     */
    method GetTable(nums: seq<int>, freqs: seq<real>, datas: seq<seq<real>>) returns (table: seq<seq<real>>)
      requires |datas| == |nums|
      modifies this
      ensures |table| == 1 + 2 * |nums| && table[0] == freqs
      ensures forall k :: 0 <= k < |nums| ==> table[1 + 2 * k] == Evens(datas[k]) && table[2 + 2 * k] == Odds(datas[k])
      ensures log == old(log) + Values(":SENS1:FREQ:DATA?") + TracesCommands(nums) && sweepingPort == old(sweepingPort)
    {
      var f := GetFreqList(freqs);
      table := [f];
      ghost var t0 := log;
      for k := 0 to |nums|
        invariant |table| == 1 + 2 * k && table[0] == freqs
        invariant forall j :: 0 <= j < k ==> table[1 + 2 * j] == Evens(datas[j]) && table[2 + 2 * j] == Odds(datas[j])
        invariant log == t0 + TracesCommands(nums[..k]) && sweepingPort == old(sweepingPort)
      {
        var sreal, simag := GetTrace(nums[k], datas[k]);
        table := table + [sreal, simag];
        assert nums[..k + 1][..k] == nums[..k];
      }
      assert nums[..|nums|] == nums;
    }

    /** `get_sweep_time`: twice the reported time, since two ports are swept. */
    method GetSweepTime(reply: real) returns (t: real)
      modifies this
      ensures t == 2.0 * reply && log == old(log) + [Query(":SENS:SWE:TIM?")] && sweepingPort == old(sweepingPort)
    {
      log := log + [Query(":SENS:SWE:TIM?")];
      t := 2.0 * reply;
    }

    /** `get_source_att`: the attenuator of a port. */
    method GetSourceAtt(port: int, reply: real) returns (a: real)
      modifies this
      ensures a == reply && log == old(log) + [Query(":SOUR:POW:PORT" + IntText(port) + ":ATT?")]
      ensures sweepingPort == old(sweepingPort)
    {
      log := log + [Query(":SOUR:POW:PORT" + IntText(port) + ":ATT?")];
      a := reply;
    }

    /** `get_sweep_type`: the reply to the sweep-type query. */
    method GetSweepType(reply: string) returns (t: string)
      modifies this
      ensures t == reply && log == old(log) + [ASK_TYPE] && sweepingPort == old(sweepingPort)
    {
      log := log + [ASK_TYPE];
      t := reply;
    }

    /** The linear-sweep guard around a write: asks the sweep type, then writes or raises. */
    method LinearWrite(name: string, cmd: Command, sweepType: string) returns (raised: Option<string>)
      modifies this
      ensures raised == LinearOnly(name, sweepType)
      ensures log == old(log) + [ASK_TYPE] + (if raised.None? then [cmd] else []) && sweepingPort == old(sweepingPort)
    {
      log := log + [ASK_TYPE];
      raised := LinearOnly(name, sweepType);
      if raised.None? {
        log := log + [cmd];
      }
    }

    /** `enable_averaging`, linear sweeps only. */
    method EnableAveraging(sweepType: string) returns (raised: Option<string>)
      modifies this
      ensures raised == LinearOnly("enable_averaging", sweepType)
      ensures log == old(log) + [ASK_TYPE] + (if raised.None? then [Write(":SENS1:AVER ON;")] else [])
      ensures sweepingPort == old(sweepingPort)
    {
      raised := LinearWrite("enable_averaging", Write(":SENS1:AVER ON;"), sweepType);
    }

    /** `disable_averaging`, linear sweeps only. */
    method DisableAveraging(sweepType: string) returns (raised: Option<string>)
      modifies this
      ensures raised == LinearOnly("disable_averaging", sweepType)
      ensures log == old(log) + [ASK_TYPE] + (if raised.None? then [Write(":SENS1:AVER OFF;")] else [])
      ensures sweepingPort == old(sweepingPort)
    {
      raised := LinearWrite("disable_averaging", Write(":SENS1:AVER OFF;"), sweepType);
    }

    /** `set_average_count`, linear sweeps only. */
    method SetAverageCount(count: int, sweepType: string) returns (raised: Option<string>)
      modifies this
      ensures raised == LinearOnly("set_average_count", sweepType)
      ensures log == old(log) + [ASK_TYPE] + (if raised.None? then [Write(":SENS1:AVER:COUNT " + IntText(count))] else [])
      ensures sweepingPort == old(sweepingPort)
    {
      raised := LinearWrite("set_average_count", Write(":SENS1:AVER:COUNT " + IntText(count)), sweepType);
    }

    /** `set_average_type`, linear sweeps only. */
    method SetAverageType(typ: string, sweepType: string) returns (raised: Option<string>)
      modifies this
      ensures raised == LinearOnly("set_average_type", sweepType)
      ensures log == old(log) + [ASK_TYPE] + (if raised.None? then [Write(":SENS1:AVER:TYP " + typ)] else [])
      ensures sweepingPort == old(sweepingPort)
    {
      raised := LinearWrite("set_average_type", Write(":SENS1:AVER:TYP " + typ), sweepType);
    }

    /**
     * `set_average`: guarded itself, and each of the three calls it makes is
     * guarded again, so a linear sweep asks for the sweep type four times.
     */
    method SetAverage(count: int, typ: string, sweepType: string) returns (raised: Option<string>)
      modifies this
      ensures raised == LinearOnly("set_average", sweepType)
      ensures raised.Some? ==> log == old(log) + [ASK_TYPE]
      ensures raised.None? ==> log == old(log) + [ASK_TYPE, ASK_TYPE, Write(":SENS1:AVER ON;"),
        ASK_TYPE, Write(":SENS1:AVER:COUNT " + IntText(count)), ASK_TYPE, Write(":SENS1:AVER:TYP " + typ)]
      ensures sweepingPort == old(sweepingPort)
    {
      log := log + [ASK_TYPE];
      raised := LinearOnly("set_average", sweepType);
      if raised.Some? {
        return;
      }
      var r1 := EnableAveraging(sweepType);
      var r2 := SetAverageCount(count, sweepType);
      var r3 := SetAverageType(typ, sweepType);
    }

    /** `get_source_power`, linear sweeps only. */
    method GetSourcePower(port: int, sweepType: string, reply: real) returns (r: Result<real>)
      modifies this
      ensures LinearOnly("get_source_power", sweepType).Some? ==>
        r == Err(LinearOnly("get_source_power", sweepType).value) && log == old(log) + [ASK_TYPE]
      ensures LinearOnly("get_source_power", sweepType).None? ==>
        r == Ok(reply) && log == old(log) + [ASK_TYPE, Query(":SOUR:POW:PORT" + IntText(port) + "?")]
      ensures sweepingPort == old(sweepingPort)
    {
      log := log + [ASK_TYPE];
      var raised := LinearOnly("get_source_power", sweepType);
      if raised.Some? {
        return Err(raised.value);
      }
      log := log + [Query(":SOUR:POW:PORT" + IntText(port) + "?")];
      r := Ok(reply);
    }

    /** `get_source_eff_pow`, linear sweeps only. */
    method GetSourceEffPow(port: int, sweepType: string, reply: real) returns (r: Result<real>)
      modifies this
      ensures LinearOnly("get_source_eff_pow", sweepType).Some? ==>
        r == Err(LinearOnly("get_source_eff_pow", sweepType).value) && log == old(log) + [ASK_TYPE]
      ensures LinearOnly("get_source_eff_pow", sweepType).None? ==>
        r == Ok(reply) && log == old(log) + [ASK_TYPE, Query(":SOUR:EFF:POW:PORT" + IntText(port) + "?")]
      ensures sweepingPort == old(sweepingPort)
    {
      log := log + [ASK_TYPE];
      var raised := LinearOnly("get_source_eff_pow", sweepType);
      if raised.Some? {
        return Err(raised.value);
      }
      log := log + [Query(":SOUR:EFF:POW:PORT" + IntText(port) + "?")];
      r := Ok(reply);
    }

    /** The segmented-sweep guard of `dump_freq_segments`: asks the sweep type and raises unless `FSEGM`. */
    method DumpFreqSegmentsGuard(sweepType: string) returns (raised: Option<string>)
      modifies this
      ensures raised == SegmentedOnly("dump_freq_segments", sweepType)
      ensures log == old(log) + [ASK_TYPE] && sweepingPort == old(sweepingPort)
    {
      log := log + [ASK_TYPE];
      raised := SegmentedOnly("dump_freq_segments", sweepType);
    }
  }

  /** The decimal text of an integer, as `'{}'.format(n)` prints it. */
  function IntText(n: int): (r: string)
    ensures |r| >= 1
    decreases if n < 0 then 1 - n else n
  {
    if n < 0 then "-" + IntText(-n)
    else if n < 10 then [Digit(n)]
    else IntText(n / 10) + [Digit(n % 10)]
  }

  function Digit(d: int): char
    requires 0 <= d < 10
  {
    ('0' as int + d) as char
  }

  /** The constructor `AnritsuVNA(connection)`. */
  method Open(connection: string, idn: string, err: string) returns (r: Result<Vna>)
    ensures r.Ok? <==> Opened(connection, idn, err).raised.None?
    ensures r.Err? ==> r.error == Opened(connection, idn, err).raised.value
    ensures r.Ok? ==> fresh(r.value) && r.value.Valid() && r.value.sweepingPort == 0
    ensures r.Ok? ==> r.value.log == Opened(connection, idn, err).sent
  {
    var sent := [ASCII, Query("*IDN?")];
    if !StartsWith(idn, FirstResponse(connection)) {
      return Err("Unsupported device / cannot initialise");
    }
    sent := sent + [Write("*ESE 60;*SRE 48;*CLS;:FORM:BORD NORM;"), Write(":SENS1:SWE:TIM:TYP AUT;"),
                    Write(":SENS1:SWE:TIM:STAT 1;"), Query("SYST:ERR?")];
    if !StartsWith(err, "No Error") {
      return Err("Device error");
    }
    var v := new Vna(sent);
    r := Ok(v);
  }

  /**
   * A socket connection expects the greeting before the identity: over TCP/IP
   * a reply that starts with the bare identity is refused whatever follows,
   * and the greeted identity is accepted exactly as the bare one is elsewhere.
   */
  lemma TcpipNeedsGreeting(connection: string, idn: string, err: string)
    ensures StartsWith(connection, "TCPIP") && StartsWith(idn, "ANRITSU") ==>
      Opened(connection, idn, err).raised == Some("Unsupported device / cannot initialise")
    ensures StartsWith(connection, "TCPIP") && StartsWith(idn, "100 Connection accepted ANRITSU,MS4644B") ==>
      (Opened(connection, idn, err).raised.None? <==> StartsWith(err, "No Error"))
    ensures !StartsWith(connection, "TCPIP") && StartsWith(idn, "ANRITSU,MS4644B") ==>
      (Opened(connection, idn, err).raised.None? <==> StartsWith(err, "No Error"))
  {
    var greeted := "100 Connection accepted ANRITSU,MS4644B";
    if StartsWith(connection, "TCPIP") && StartsWith(idn, "ANRITSU") {
      assert idn[0] == "ANRITSU"[0] != greeted[0];
      assert !StartsWith(idn, greeted);
    }
  }
}
