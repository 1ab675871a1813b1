// The Yokogawa 7651 DC source driver: range selection from the function table,
// the output-state decode, the function / output / range commands, the slope
// ramp of the set-point, the mode guards and the start-up checks.
module Yoko7651 {
  import opened Common
  import opened NumPy
  import opened Visa
  import Ramp

  /** One entry of `function_dict`: the panel code, the function and its full scale. */
  datatype Entry = Entry(key: string, func: string, rang: real)

  /** `function_dict`, in its declaration order. */
  const FUNCTION_TABLE: seq<Entry> := [
    Entry("F1R2", "VOLT", 0.01),
    Entry("F1R3", "VOLT", 0.1),
    Entry("F1R4", "VOLT", 1.0),
    Entry("F1R5", "VOLT", 10.0),
    Entry("F1R6", "VOLT", 30.0),
    Entry("F5R4", "CURR", 0.001),
    Entry("F5R5", "CURR", 0.01),
    Entry("F5R6", "CURR", 0.1)
  ]

  /** The driver updates a ramping source every 100 ms. */
  const TIME_STEP: real := 0.1

  /** `function_dict[key]`, or the KeyError it raises. */
  function Lookup(key: string): (r: Result<Entry>)
    ensures r.Ok? <==> exists i :: 0 <= i < |FUNCTION_TABLE| && FUNCTION_TABLE[i].key == key
    ensures r.Ok? ==> r.value in FUNCTION_TABLE && r.value.key == key
  {
    LookupFrom(key, 0)
  }

  function LookupFrom(key: string, i: nat): (r: Result<Entry>)
    requires i <= |FUNCTION_TABLE|
    ensures r.Ok? <==> exists j :: i <= j < |FUNCTION_TABLE| && FUNCTION_TABLE[j].key == key
    ensures r.Ok? ==> r.value in FUNCTION_TABLE && r.value.key == key
    decreases |FUNCTION_TABLE| - i
  {
    if i == |FUNCTION_TABLE| then Err("KeyError: '" + key + "'")
    else if FUNCTION_TABLE[i].key == key then Ok(FUNCTION_TABLE[i])
    else LookupFrom(key, i + 1)
  }

  /** An entry of the requested function whose full scale covers the requested range. */
  predicate Fits(e: Entry, func: string, rang: real)
  {
    e.func == Upper(func) && e.rang >= rang
  }

  /**
   * The running minimum of `determine_range` after the first `n` entries: an
   * entry replaces the one kept so far only when its range is strictly smaller.
   */
  function Smallest(func: string, rang: real, n: nat): Option<Entry>
    requires n <= |FUNCTION_TABLE|
  {
    if n == 0 then None
    else
      var kept := Smallest(func, rang, n - 1);
      var e := FUNCTION_TABLE[n - 1];
      if Fits(e, func, rang) && (kept.None? || e.rang < kept.value.rang) then Some(e) else kept
  }

  /** The entry with the smallest fitting range, if any entry fits at all. */
  predicate Least(e: Entry, func: string, rang: real, n: nat)
    requires n <= |FUNCTION_TABLE|
  {
    && e in FUNCTION_TABLE[..n]
    && Fits(e, func, rang)
    && forall j :: 0 <= j < n && Fits(FUNCTION_TABLE[j], func, rang) ==> e.rang <= FUNCTION_TABLE[j].rang
  }

  /**
   * The running minimum is a fitting entry of least range, and there is none
   * exactly when no entry fits.
   */
  lemma {:induction false} SmallestIsLeast(func: string, rang: real, n: nat)
    requires n <= |FUNCTION_TABLE|
    ensures Smallest(func, rang, n).None? <==> forall j :: 0 <= j < n ==> !Fits(FUNCTION_TABLE[j], func, rang)
    ensures Smallest(func, rang, n).Some? ==> Least(Smallest(func, rang, n).value, func, rang, n)
  {
    NoneIffNoneFits(func, rang, n);
    SomeIsLeast(func, rang, n);
  }

  lemma {:induction false} NoneIffNoneFits(func: string, rang: real, n: nat)
    requires n <= |FUNCTION_TABLE|
    ensures Smallest(func, rang, n).None? <==> forall j :: 0 <= j < n ==> !Fits(FUNCTION_TABLE[j], func, rang)
  {
    if n > 0 {
      NoneIffNoneFits(func, rang, n - 1);
    }
  }

  lemma {:induction false} SomeIsLeast(func: string, rang: real, n: nat)
    requires n <= |FUNCTION_TABLE|
    ensures Smallest(func, rang, n).Some? ==> Least(Smallest(func, rang, n).value, func, rang, n)
  {
    if n > 0 {
      SomeIsLeast(func, rang, n - 1);
      NoneIffNoneFits(func, rang, n - 1);
      assert FUNCTION_TABLE[..n] == FUNCTION_TABLE[..n - 1] + [FUNCTION_TABLE[n - 1]];
    }
  }

  /**
   * `determine_range`: the key of the entry of the requested function with the
   * smallest full scale not below `rang`, or None when there is none.
   */
  method DetermineRange(func: string, rang: real) returns (key: Option<string>)
    ensures key.None? <==> Smallest(func, rang, |FUNCTION_TABLE|).None?
    ensures key.Some? ==> key.value == Smallest(func, rang, |FUNCTION_TABLE|).value.key
  {
    var f := Upper(func);
    var minValue: Option<real> := None;
    key := None;
    for i := 0 to |FUNCTION_TABLE|
      invariant minValue.None? <==> Smallest(func, rang, i).None?
      invariant key.None? <==> minValue.None?
      invariant minValue.Some? ==> minValue.value == Smallest(func, rang, i).value.rang
      invariant key.Some? ==> key.value == Smallest(func, rang, i).value.key
    {
      var e := FUNCTION_TABLE[i];
      if e.func == f {
        if (minValue.None? || e.rang < minValue.value) && e.rang >= rang {
          minValue := Some(e.rang);
          key := Some(e.key);
        }
      }
    }
  }

  /** The command `set_range` writes for a key: the key without its function prefix, then `E`. */
  function RangeCommand(key: string): string
  {
    if |key| < 2 then "E" else key[2..] + "E"
  }

  /** A 2 V request on the voltage function selects range 5 (10 V) and writes `R5E`. */
  lemma TwoVoltsUseRangeFive()
    ensures Smallest("VOLT", 2.0, |FUNCTION_TABLE|) == Some(FUNCTION_TABLE[3])
    ensures RangeCommand(FUNCTION_TABLE[3].key) == "R5E"
  {
    assert Upper("VOLT") == "VOLT";
    assert Smallest("VOLT", 2.0, 3) == None;
    assert Smallest("VOLT", 2.0, 4) == Some(FUNCTION_TABLE[3]);
    assert Smallest("VOLT", 2.0, 5) == Some(FUNCTION_TABLE[3]);
    assert Smallest("VOLT", 2.0, 6) == Some(FUNCTION_TABLE[3]);
    assert Smallest("VOLT", 2.0, 7) == Some(FUNCTION_TABLE[3]);
  }

  /** Nothing above 30 V, or above 100 mA, fits. */
  lemma NoRangeAboveFullScale(rang: real)
    requires rang > 30.0
    ensures Smallest("VOLT", rang, |FUNCTION_TABLE|).None?
    ensures Smallest("CURR", rang, |FUNCTION_TABLE|).None?
  {
    SmallestIsLeast("VOLT", rang, |FUNCTION_TABLE|);
    SmallestIsLeast("CURR", rang, |FUNCTION_TABLE|);
  }

  function Digit(b: nat): char
    requires b < 2
  {
    if b == 0 then '0' else '1'
  }

  /** `'{0:b}'.format(n)` for a non-negative `n`: binary digits, most significant first. */
  function Binary(n: nat): (r: string)
    ensures |r| >= 1
    decreases n
  {
    if n < 2 then [Digit(n)] else Binary(n / 2) + [Digit(n % 2)]
  }

  function Pow2(k: nat): (r: nat)
    ensures r >= 1
  {
    if k == 0 then 1 else 2 * Pow2(k - 1)
  }

  /** Character `k` from the right of a digit string, `'0'` beyond its left end. */
  function FromRight(s: string, k: nat): char
  {
    if k < |s| then s[|s| - 1 - k] else '0'
  }

  /** Left-padding with zeros to `width` characters, as the `0` flag of a format spec does. */
  function ZeroPad(s: string, width: nat): (r: string)
    ensures |r| == if |s| < width then width else |s|
    ensures forall k :: 0 <= k < |r| ==> r[|r| - 1 - k] == FromRight(s, k)
  {
    if |s| >= width then s else seq(width - |s|, _ => '0') + s
  }

  /** `'{0:08b}'.format(n)`: at least eight characters, the sign counted among them. */
  function Format08b(n: int): (r: string)
    ensures |r| >= 8
  {
    if n >= 0 then ZeroPad(Binary(n), 8) else "-" + ZeroPad(Binary(-n), 7)
  }

  /** The bit of weight 2^k of `n`, by halving `k` times. */
  function Bit(n: nat, k: nat): (b: nat)
    ensures b < 2
  {
    if k == 0 then n % 2 else Bit(n / 2, k - 1)
  }

  /** The digit of weight 2^k in the binary rendering of `n`. */
  lemma {:induction false} BinaryBit(n: nat, k: nat)
    ensures FromRight(Binary(n), k) == Digit(Bit(n, k))
    decreases n
  {
    if n < 2 {
      if k > 0 {
        BitOfSmall(n, k);
      }
    } else if k > 0 {
      BinaryBit(n / 2, k - 1);
      var s := Binary(n / 2);
      assert Binary(n) == s + [Digit(n % 2)];
      if k - 1 < |s| {
        assert Binary(n)[|Binary(n)| - 1 - k] == s[|s| - 1 - (k - 1)];
      }
    }
  }

  lemma {:induction false} BitOfSmall(n: nat, k: nat)
    requires n < 2 && k > 0
    ensures Bit(n, k) == 0
    decreases k
  {
    if k > 1 {
      BitOfSmall(0, k - 1);
    }
  }

  /** The state `get_output` reads: character 3 of the 8-digit binary status. */
  function OutputState(status: int): (r: Result<string>)
  {
    var c := Format08b(status)[3];
    if c == '0' then Ok("OFF")
    else if c == '1' then Ok("ON")
    else Err("Invalid output state")
  }

  lemma BinaryDigits(n: nat, i: nat)
    requires i < |Binary(n)|
    ensures Binary(n)[i] == '0' || Binary(n)[i] == '1'
    decreases n
  {
    if n >= 2 && i < |Binary(n / 2)| {
      BinaryDigits(n / 2, i);
    }
  }

  /** Every status number decodes: the "Invalid output state" branch cannot be taken. */
  lemma OutputAlwaysDecodes(status: int)
    ensures OutputState(status).Ok?
  {
    var s := if status >= 0 then Binary(status) else Binary(-status);
    var w := if status >= 0 then 8 else 7;
    var p := ZeroPad(s, w);
    var k := |p| - 1 - (if status >= 0 then 3 else 2);
    assert p[|p| - 1 - k] == FromRight(s, k);
    if k < |s| {
      BinaryDigits(if status >= 0 then status else -status, |s| - 1 - k);
    }
  }

  /** For a status byte, the output is ON exactly when the bit of weight 16 is set. */
  lemma OutputIsBitFour(status: int)
    requires 0 <= status < 256
    ensures OutputState(status) == (if (status / 16) % 2 == 1 then Ok("ON") else Ok("OFF"))
  {
    BinaryBit(status, 4);
    assert Bit(status, 4) == (status / 16) % 2 by {
      assert Bit(status, 4) == Bit(status / 2, 3);
      assert Bit(status / 2, 3) == Bit(status / 2 / 2, 2);
      assert Bit(status / 2 / 2, 2) == Bit(status / 2 / 2 / 2, 1);
      assert Bit(status / 2 / 2 / 2, 1) == (status / 2 / 2 / 2 / 2) % 2;
      assert status / 2 / 2 / 2 / 2 == status / 16;
    }
    BinaryShort(status, 8);
    var p := ZeroPad(Binary(status), 8);
    assert |p| == 8;
    assert p[3] == p[|p| - 1 - 4];
  }

  lemma {:induction false} BinaryShort(n: nat, k: nat)
    requires k >= 1 && n < Pow2(k)
    ensures |Binary(n)| <= k
    decreases k
  {
    if n >= 2 {
      BinaryShort(n / 2, k - 1);
    }
  }

  /** The command `set_function` writes, or None for an unknown function. */
  function FunctionCommand(func: string): Option<string>
  {
    if Upper(func) == "VOLT" then Some("F1E")
    else if Upper(func) == "CURR" then Some("F5E")
    else None
  }

  /** The command `set_output` writes, or None for an unknown state. */
  function OutputCommand(state: string): Option<string>
  {
    if Upper(state) == "ON" then Some("O1E")
    else if Upper(state) == "OFF" then Some("O0E")
    else None
  }

  /** The commands accept their words in any case. */
  lemma CommandsIgnoreCase()
    ensures FunctionCommand("volt") == Some("F1E") && FunctionCommand("Curr") == Some("F5E")
    ensures OutputCommand("on") == Some("O1E") && OutputCommand("Off") == Some("O0E")
    ensures FunctionCommand("RES") == None && OutputCommand("STANDBY") == None
  {
    assert Upper("volt") == "VOLT";
    assert Upper("Curr") == "CURR";
    assert Upper("on") == "ON";
    assert Upper("Off") == "OFF";
    assert Upper("RES") != "VOLT" && Upper("RES") != "CURR";
    assert Upper("STANDBY") != "ON" && Upper("STANDBY") != "OFF";
  }

  /** The reply to `OD`: the unit letter at position 3 and the number after it. */
  datatype Od = Od(unit: char, value: real)

  /** `get_setpoint` accepts the reply only when its unit matches the function. */
  predicate UnitMatches(func: string, unit: char)
  {
    (func == "VOLT" && unit == 'V') || (func == "CURR" && unit == 'A')
  }

  /** The replies read while the driver starts: the `OS` block, the `OC` status and the `OD` set-point. */
  datatype Boot = Boot(model: string, panel: string, end: string, status: int, od: Od)

  class Yoko {
    const slope: real
    var func: string
    var rang: real
    var log: seq<Command>

    constructor (func: string, rang: real, slope: real)
      ensures this.func == Upper(func) && this.rang == rang && this.slope == slope
      ensures log == []
    {
      this.func := Upper(func);
      this.rang := rang;
      this.slope := slope;
      log := [];
    }

    /** `set_function`: the function command, then `func` follows the request. */
    method SetFunction(f: string) returns (raised: Option<string>)
      modifies this
      ensures FunctionCommand(f).Some? ==> raised == None && log == old(log) + [Write(FunctionCommand(f).value)] && func == Upper(f)
      ensures FunctionCommand(f).None? ==> raised == Some("Unknown function requested") && log == old(log) && func == old(func)
      ensures rang == old(rang)
    {
      var u := Upper(f);
      if u == "VOLT" {
        log := log + [Write("F1E")];
      } else if u == "CURR" {
        log := log + [Write("F5E")];
      } else {
        return Some("Unknown function requested");
      }
      func := u;
      raised := None;
    }

    /** `set_output`: `O1E` for ON, `O0E` for OFF. */
    method SetOutput(state: string) returns (raised: Option<string>)
      modifies this
      ensures OutputCommand(state).Some? ==> raised == None && log == old(log) + [Write(OutputCommand(state).value)]
      ensures OutputCommand(state).None? ==> raised == Some("Invalid output state requested") && log == old(log)
      ensures func == old(func) && rang == old(rang)
    {
      var u := Upper(state);
      if u == "ON" {
        log := log + [Write("O1E")];
      } else if u == "OFF" {
        log := log + [Write("O0E")];
      } else {
        return Some("Invalid output state requested");
      }
      raised := None;
    }

    /** `get_output`: asks `OC` and decodes the status number of the reply. */
    method GetOutput(status: int) returns (r: Result<string>)
      modifies this
      ensures r == OutputState(status)
      ensures log == old(log) + [Query("OC")] && func == old(func) && rang == old(rang)
    {
      log := log + [Query("OC")];
      r := OutputState(status);
    }

    /**
     * `set_range`: the code of the smallest fitting range of the present
     * function is written and the requested range becomes `rang`.
     */
    method SetRange(r: real) returns (raised: Option<string>)
      modifies this
      ensures var best := Smallest(func, r, |FUNCTION_TABLE|);
        && (best.None? ==> raised == Some("No compatible range could be found") && log == old(log) && rang == old(rang))
        && (best.Some? ==> raised == None && log == old(log) + [Write(RangeCommand(best.value.key))] && rang == r)
      ensures func == old(func)
    {
      var key := DetermineRange(func, r);
      if key.None? {
        return Some("No compatible range could be found");
      }
      log := log + [Write(RangeCommand(key.value))];
      rang := r;
      raised := None;
    }

    /** `get_setpoint`: asks `OD`; the reply's unit must match the function. */
    method GetSetpoint(od: Od) returns (r: Result<real>)
      modifies this
      ensures r == if UnitMatches(func, od.unit) then Ok(od.value) else Err("Invalid mode selected")
      ensures log == old(log) + [Query("OD")] && func == old(func) && rang == old(rang)
    {
      log := log + [Query("OD")];
      if !UnitMatches(func, od.unit) {
        return Err("Invalid mode selected");
      }
      r := Ok(od.value);
    }

    /**
     * `set_setpoint`: refuses a value beyond `rang` before talking to the
     * source, reads the present set-point, then writes the ramp toward the value.
     */
    method SetSetpoint(value: real, od: Od) returns (raised: Option<string>)
      modifies this
      ensures Abs(value) > old(rang) ==> raised == Some("Value exceeds range") && log == old(log)
      ensures Abs(value) <= old(rang) && !UnitMatches(func, od.unit) ==>
        raised == Some("Invalid mode selected") && log == old(log) + [Query("OD")]
      ensures Abs(value) <= old(rang) && UnitMatches(func, od.unit) ==>
        var ramp := Ramp.Setpoints(od.value, value, TIME_STEP * slope, false);
        && (ramp.Ok? ==> raised == None && log == old(log) + [Query("OD")] + Numbers("S", ramp.value, "E"))
        && (ramp.Err? ==> raised == Some(ramp.error) && log == old(log) + [Query("OD")])
      ensures func == old(func) && rang == old(rang)
    {
      var vStep := TIME_STEP * slope;
      if Abs(value) > rang {
        return Some("Value exceeds range");
      }
      var present := GetSetpoint(od);
      if present.Err? {
        return Some(present.error);
      }
      var current := present.value;
      Ramp.SetpointsAreArange(current, value, vStep, false);
      if Abs(value - current) < vStep {
        log := log + [Number("S", value, "E")];
        return None;
      }
      var slow := Arange(current, value, Sign(value - current) * vStep);
      if slow.Err? {
        return Some(slow.error);
      }
      ghost var t0 := log;
      for i := 0 to |slow.value|
        invariant log == t0 + Numbers("S", slow.value[..i], "E")
        invariant func == old(func) && rang == old(rang)
      {
        NumbersAppend("S", slow.value[..i], slow.value[i], "E");
        assert slow.value[..i + 1] == slow.value[..i] + [slow.value[i]];
        log := log + [Number("S", slow.value[i], "E")];
      }
      assert slow.value[..|slow.value|] == slow.value;
      NumbersAppend("S", slow.value, value, "E");
      log := log + [Number("S", value, "E")];
      raised := None;
    }

    method GetVoltage(od: Od) returns (r: Result<real>)
      modifies this
      ensures func != "VOLT" ==> r == Err("Wrong mode selected") && log == old(log)
      ensures func == "VOLT" ==> r == (if od.unit == 'V' then Ok(od.value) else Err("Invalid mode selected")) && log == old(log) + [Query("OD")]
      ensures func == old(func) && rang == old(rang)
    {
      if func != "VOLT" {
        return Err("Wrong mode selected");
      }
      r := GetSetpoint(od);
    }

    method SetVoltage(value: real, od: Od) returns (raised: Option<string>)
      modifies this
      ensures func != "VOLT" ==> raised == Some("Wrong mode selected") && log == old(log)
      ensures func == "VOLT" && Abs(value) > rang ==> raised == Some("Value exceeds range") && log == old(log)
      ensures func == "VOLT" && Abs(value) <= rang && od.unit != 'V' ==>
        raised == Some("Invalid mode selected") && log == old(log) + [Query("OD")]
      ensures func == "VOLT" && Abs(value) <= rang && od.unit == 'V' ==>
        var ramp := Ramp.Setpoints(od.value, value, TIME_STEP * slope, false);
        && (ramp.Ok? ==> raised == None && log == old(log) + [Query("OD")] + Numbers("S", ramp.value, "E"))
        && (ramp.Err? ==> raised == Some(ramp.error) && log == old(log) + [Query("OD")])
      ensures func == old(func) && rang == old(rang)
    {
      if func != "VOLT" {
        return Some("Wrong mode selected");
      }
      raised := SetSetpoint(value, od);
    }

    method GetCurrent(od: Od) returns (r: Result<real>)
      modifies this
      ensures func != "CURR" ==> r == Err("Wrong mode selected") && log == old(log)
      ensures func == "CURR" ==> r == (if od.unit == 'A' then Ok(od.value) else Err("Invalid mode selected")) && log == old(log) + [Query("OD")]
      ensures func == old(func) && rang == old(rang)
    {
      if func != "CURR" {
        return Err("Wrong mode selected");
      }
      r := GetSetpoint(od);
    }

    method SetCurrent(value: real, od: Od) returns (raised: Option<string>)
      modifies this
      ensures func != "CURR" ==> raised == Some("Wrong mode selected") && log == old(log)
      ensures func == "CURR" && Abs(value) > rang ==> raised == Some("Value exceeds range") && log == old(log)
      ensures func == "CURR" && Abs(value) <= rang && od.unit != 'A' ==>
        raised == Some("Invalid mode selected") && log == old(log) + [Query("OD")]
      ensures func == "CURR" && Abs(value) <= rang && od.unit == 'A' ==>
        var ramp := Ramp.Setpoints(od.value, value, TIME_STEP * slope, false);
        && (ramp.Ok? ==> raised == None && log == old(log) + [Query("OD")] + Numbers("S", ramp.value, "E"))
        && (ramp.Err? ==> raised == Some(ramp.error) && log == old(log) + [Query("OD")])
      ensures func == old(func) && rang == old(rang)
    {
      if func != "CURR" {
        return Some("Wrong mode selected");
      }
      raised := SetSetpoint(value, od);
    }
  }


  /**
   * What the initialising half of the constructor sends, or the exception
   * that stops it: the function and range must be known, and set-point 0 must
   * lie within the requested range and be reachable by the ramp.
   */
  function Initialised(func: string, rang: real, slope: real, od: Od): Result<seq<Command>>
  {
    if FunctionCommand(func).None? then Err("Unknown function requested")
    else if Smallest(func, rang, |FUNCTION_TABLE|).None? then Err("No compatible range could be found")
    else match Settled(Upper(func), rang, slope, od)
      case Err(e) => Err(e)
      case Ok(tail) =>
        Ok([Clear, Write("O0E"), Write(FunctionCommand(func).value),
            Write(RangeCommand(Smallest(func, rang, |FUNCTION_TABLE|).value.key))] + tail)
  }

  /** The end of the initialisation: set-point 0 by the ramp, then output on. */
  function Settled(func: string, rang: real, slope: real, od: Od): Result<seq<Command>>
  {
    if rang < 0.0 then Err("Value exceeds range")
    else if !UnitMatches(func, od.unit) then Err("Invalid mode selected")
    else match Ramp.Setpoints(od.value, 0.0, TIME_STEP * slope, false)
      case Err(e) => Err(e)
      case Ok(ramp) => Ok([Query("OD")] + Numbers("S", ramp, "E") + [Write("O1E")])
  }

  function Raised<T>(r: Result<T>): Option<string>
  {
    if r.Err? then Some(r.error) else None
  }

  /** The command words of the driver are already upper case. */
  lemma UpperWords()
    ensures Upper("ON") == "ON" && Upper("OFF") == "OFF"
    ensures Upper("VOLT") == "VOLT" && Upper("CURR") == "CURR"
  {
  }

  lemma UpperTwice(s: string)
    ensures Upper(Upper(s)) == Upper(s)
  {
  }

  /** Range selection only sees the upper-cased function name. */
  lemma {:induction false} SmallestUpper(func: string, rang: real, n: nat)
    requires n <= |FUNCTION_TABLE|
    ensures Smallest(Upper(func), rang, n) == Smallest(func, rang, n)
  {
    UpperTwice(func);
    if n > 0 {
      SmallestUpper(func, rang, n - 1);
    }
  }

  /** The first half of the initialisation: reset, output off, function, range. */
  method Prepare(y: Yoko, rang: real) returns (raised: Option<string>)
    modifies y
    ensures var f0 := old(y.func);
      && (raised.None? <==> FunctionCommand(f0).Some? && Smallest(f0, rang, |FUNCTION_TABLE|).Some?)
      && (raised.None? ==>
        && y.log == old(y.log) + [Clear, Write("O0E"), Write(FunctionCommand(f0).value),
                                  Write(RangeCommand(Smallest(f0, rang, |FUNCTION_TABLE|).value.key))]
        && y.func == Upper(f0) && y.rang == rang)
    ensures FunctionCommand(old(y.func)).None? ==> raised == Some("Unknown function requested")
    ensures FunctionCommand(old(y.func)).Some? && Smallest(old(y.func), rang, |FUNCTION_TABLE|).None? ==>
      raised == Some("No compatible range could be found")
  {
    ghost var t0 := y.log;
    ghost var f0 := y.func;
    UpperTwice(f0);
    SmallestUpper(f0, rang, |FUNCTION_TABLE|);
    y.log := y.log + [Clear];
    UpperWords();
    raised := y.SetOutput("OFF");
    raised := y.SetFunction(y.func);
    if raised.Some? {
      return;
    }
    ghost var t1 := y.log;
    assert t1 == t0 + [Clear, Write("O0E"), Write(FunctionCommand(f0).value)];
    raised := y.SetRange(rang);
  }

  /** The second half of the initialisation: set-point 0, output on. */
  method Finish(y: Yoko, od: Od) returns (raised: Option<string>)
    modifies y
    ensures raised == Raised(Settled(y.func, y.rang, y.slope, od))
    ensures raised.None? ==> y.log == old(y.log) + Settled(y.func, y.rang, y.slope, od).value
    ensures y.func == old(y.func) && y.rang == old(y.rang)
  {
    ghost var t0 := y.log;
    raised := y.SetSetpoint(0.0, od);
    if raised.Some? {
      return;
    }
    ghost var ramp := Ramp.Setpoints(od.value, 0.0, TIME_STEP * y.slope, false).value;
    assert y.log == t0 + [Query("OD")] + Numbers("S", ramp, "E");
    UpperWords();
    raised := y.SetOutput("ON");
  }

  /**
   * The initialising half of the constructor: reset, output off, the function
   * and range asked for, set-point 0 by the ramp, output on.
   */
  method Configure(y: Yoko, rang: real, od: Od) returns (raised: Option<string>)
    modifies y
    ensures raised == Raised(Initialised(old(y.func), rang, y.slope, od))
    ensures raised.None? ==> y.log == old(y.log) + Initialised(old(y.func), rang, y.slope, od).value
    ensures raised.None? ==> y.func == Upper(old(y.func)) && y.rang == rang
  {
    ghost var t0 := y.log;
    ghost var f0 := y.func;
    raised := Prepare(y, rang);
    if raised.Some? {
      return;
    }
    ghost var t1 := y.log;
    raised := Finish(y, od);
  }

  /**
   * Whether a source that is not re-initialised is accepted: it must already
   * have the requested function and range, with its output on.
   */
  predicate Ready(panel: Entry, func: string, rang: real, output: string)
  {
    Upper(func) == panel.func && rang == panel.rang && output != "OFF"
  }

  /**
   * What the constructor sends, or the exception it raises: the identity and
   * panel checks, then either the readiness check or the initialisation.
   */
  function Opened(func: string, rang: real, slope: real, initialise: bool, boot: Boot): Result<seq<Command>>
  {
    if !StartsWith(boot.model, "MDL7651REV1.") then Err("Instrument not compatible with Yokogawa 7651 driver")
    else if Lookup(Take(boot.panel, 4)).Err? then Err(Lookup(Take(boot.panel, 4)).error)
    else if !StartsWith(boot.end, "END") then Err("Yokogawa 7651 error.")
    else if OutputState(boot.status).Err? then Err(OutputState(boot.status).error)
    else if !initialise then
      if Ready(Lookup(Take(boot.panel, 4)).value, func, rang, OutputState(boot.status).value)
      then Ok([Query("OS"), Query("OC")])
      else Err("Yokogawa needs to be initialised")
    else match Initialised(Upper(func), rang, slope, boot.od)
      case Err(e) => Err(e)
      case Ok(cmds) => Ok([Query("OS"), Query("OC")] + cmds)
  }

  /** The constructor `Yoko7651(...)`. */
  method Open(func: string, rang: real, slope: real, initialise: bool, boot: Boot) returns (r: Result<Yoko>)
    ensures r.Ok? <==> Opened(func, rang, slope, initialise, boot).Ok?
    ensures r.Err? ==> r.error == Opened(func, rang, slope, initialise, boot).error
    ensures r.Ok? ==> fresh(r.value) && r.value.log == Opened(func, rang, slope, initialise, boot).value
    ensures r.Ok? ==> r.value.slope == slope && r.value.func == Upper(func) && r.value.rang == rang
  {
    var y := new Yoko(func, rang, slope);
    y.log := y.log + [Query("OS")];
    if !StartsWith(boot.model, "MDL7651REV1.") {
      return Err("Instrument not compatible with Yokogawa 7651 driver");
    }
    var panel := Lookup(Take(boot.panel, 4));
    if panel.Err? {
      return Err(panel.error);
    }
    if !StartsWith(boot.end, "END") {
      return Err("Yokogawa 7651 error.");
    }
    var output := y.GetOutput(boot.status);
    if output.Err? {
      return Err(output.error);
    }
    if !initialise && !Ready(panel.value, func, rang, output.value) {
      return Err("Yokogawa needs to be initialised");
    }
    if initialise {
      ghost var t0 := y.log;
      assert t0 == [Query("OS"), Query("OC")];
      UpperTwice(func);
      var raised := Configure(y, rang, boot.od);
      if raised.Some? {
        return Err(raised.value);
      }
    }
    r := Ok(y);
  }

  /** Without initialise, an accepted source receives no command at all, only the two queries. */
  lemma NoInitialiseOnlyAsks(func: string, rang: real, slope: real, boot: Boot)
    requires Opened(func, rang, slope, false, boot).Ok?
    ensures Opened(func, rang, slope, false, boot).value == [Query("OS"), Query("OC")]
    ensures Upper(func) == Lookup(Take(boot.panel, 4)).value.func && rang == Lookup(Take(boot.panel, 4)).value.rang
  {
  }

  /**
   * A successful initialisation first switches the output off, and the last
   * two commands are set-point 0 and output on.
   */
  lemma InitialisationOrder(func: string, rang: real, slope: real, od: Od)
    requires Initialised(func, rang, slope, od).Ok?
    ensures var init := Initialised(func, rang, slope, od).value;
      && |init| >= 7
      && init[..2] == [Clear, Write("O0E")]
      && init[|init| - 2] == Number("S", 0.0, "E")
      && init[|init| - 1] == Write("O1E")
  {
    SettledEnds(Upper(func), rang, slope, od);
    var tail := Settled(Upper(func), rang, slope, od).value;
    var init := Initialised(func, rang, slope, od).value;
    assert init[|init| - 2] == tail[|tail| - 2];
  }

  lemma SettledEnds(func: string, rang: real, slope: real, od: Od)
    requires Settled(func, rang, slope, od).Ok?
    ensures var tail := Settled(func, rang, slope, od).value;
      |tail| >= 3 && tail[|tail| - 2] == Number("S", 0.0, "E") && tail[|tail| - 1] == Write("O1E")
  {
    var ramp := Ramp.Setpoints(od.value, 0.0, TIME_STEP * slope, false).value;
    var tail := Settled(func, rang, slope, od).value;
    assert tail[|tail| - 2] == Numbers("S", ramp, "E")[|ramp| - 1];
  }

  /**
   * A negative range passes range selection (every entry covers it) and is
   * then refused by the set-point check, before any set-point is written.
   */
  lemma NegativeRangeRefused(func: string, rang: real, slope: real, boot: Boot)
    requires rang < 0.0 && FunctionCommand(func).Some?
    ensures Smallest(func, rang, |FUNCTION_TABLE|).Some?
    ensures Initialised(Upper(func), rang, slope, boot.od) == Err("Value exceeds range")
  {
    UpperTwice(func);
    SmallestUpper(func, rang, |FUNCTION_TABLE|);
    SmallestIsLeast(func, rang, |FUNCTION_TABLE|);
    var j := if Upper(func) == "VOLT" then 0 else 5;
    assert Fits(FUNCTION_TABLE[j], func, rang);
  }
}
