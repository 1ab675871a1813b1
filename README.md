# P13pt measurement core in Dafny

This project models the measurement core of P13pt, a collection of Python tools
for DC and RF measurements on transistors and capacitors.

- **MAScriL's framework** (`Mascril`). A measurement script binds values to names. `save_row` writes one
  tab-separated line of the script's observables, with `None` for missing names, to a data file opened in
  append mode. It then evaluates the script's alarm rules. An ALARM_QUIT rule that fires sets the
  `quit_requested` flag, which the scripts poll. `run` calls `tidy_up` after `measure` whatever happens and
  only reports what was raised. The framework keeps a trace of what a run did, in order: set-points, quit
  checks, rows, alarm lists and spectra.
- **The parameter types** (`Parameter`). A sweep either evaluates an expression or builds a range from
  start, stop and step, with the there-and-back, from-zero and to-zero options. The model covers its value
  count, the select lists, and folder, string and boolean fields.
- **The eleven measurement scripts** (`Dc2Gates`, `Vna2Gates`, `Lockin2Gates`, `Vna1Gate`, `Cascade`,
  `MesureCapacitor`, `LeakDetect`, `Breakdown`, `PowerSweep`, `NewProber`, `MesureTransitorUniversel`).
  Each script is a class over the framework's state. Its `Measure` is proved against a plan function that
  lists everything an uninterrupted run does. The contract also covers the three ways a run can end: it
  fails, it completes, or it stops at the first quit check that sees the flag. Lemmas on the plan state
  the scripts' promises: which values go to which source and in which order, how many rows and spectra are
  written, and what the data file holds. `TidyUp` states the order of the clean-up, and which
  never-assigned instrument makes it raise.
- **The instrument drivers**:
  - the Yokogawa 7651 (`Yoko7651`), with range choice, output-bit decoding, mode guards and the slope ramp
    shared in `Ramp`;
  - the Keithley 2400 and 2600 (`Keithley2400`, `Keithley2600`);
  - the Bilt frame with its sources and meters (`Bilt`), including the idempotent `set_voltage`;
  - the Anritsu network analyser (`AnritsuVna`), including the port-by-port sweep-done state machine read
    from the status byte (section 11.2 of IEEE 488.2);
  - the TIC 500 temperature controller (`Tic500`).

  Each driver's traffic with its instrument is a log of `Visa` commands, and the instrument's replies are
  inputs.
- **The P13 spectrum files** (`RfSpectrum`). This covers the conversion to Touchstone 1.1: the option line
  `# hz s ri r 50`, then each two-port line reordered to S11, S21, S12, S22. It also covers how the
  `Network` constructor picks a reader and builds the S matrix.
- **Two GUI tools, without their widgets**:
  - the spectrum fitter's recent-sessions list, display style, index guard and session file (`SpectrumFitter`);
  - the slow-scan aligner's one- and two-point alignment, scroll zoom, image extent and file names (`SscAlign`).

Numbers are exact reals. Python's rounding, `np.arange`, `int()` truncation and `ceil` are written out in
`NumPy`. The printing of numbers and Python's `float()` are parameters.

## Model

| member | source | states |
|---|---|---|
| Yoko7651.Lookup | P13pt/drivers/yoko7651.py:18-25 | `function_dict[key]` succeeds exactly for the eight table keys and returns that key's entry; any other key is a KeyError |
| Yoko7651.SmallestIsLeast | P13pt/drivers/yoko7651.py:91-99 | the running minimum of `determine_range` is a fitting entry of least full scale, and it is absent exactly when no entry of the function covers the range |
| Yoko7651.DetermineRange | P13pt/drivers/yoko7651.py:84-99 | the loop over the table returns the key of the smallest fitting range of the (upper-cased) function, or None when none fits |
| Yoko7651.SmallestUpper | P13pt/drivers/yoko7651.py:88 | range selection sees only the upper-cased function name |
| Yoko7651.TwoVoltsUseRangeFive | P13pt/drivers/yoko7651.py:128-132 | a 2 V request selects `F1R5` (10 V) and `set_range` writes `R5E` (also line 21) |
| Yoko7651.NoRangeAboveFullScale | P13pt/drivers/yoko7651.py:130-131 | nothing above 30 V or 100 mA fits, so `set_range` raises there (also lines 22, 25) |
| Yoko7651.ZeroPad | P13pt/drivers/yoko7651.py:138 | zero padding reaches the requested width and keeps every digit at its place counted from the right |
| Yoko7651.BinaryBit | P13pt/drivers/yoko7651.py:138 | the digit of weight 2^k of `'{0:b}'.format(n)` is bit k of n |
| Yoko7651.OutputAlwaysDecodes | P13pt/drivers/yoko7651.py:138-144 | character 3 of the 8-digit binary status is always a binary digit, so "Invalid output state" is never raised |
| Yoko7651.OutputIsBitFour | P13pt/drivers/yoko7651.py:137-142 | for a status byte, the output reads ON exactly when its bit of weight 16 is set |
| Yoko7651.CommandsIgnoreCase | P13pt/drivers/yoko7651.py:146-153 | function and output words are accepted in any case; unknown words produce no command (also lines 109-116) |
| Yoko7651.Yoko.constructor | P13pt/drivers/yoko7651.py:28-33 | the function is stored upper-cased, range and slope as given, nothing sent yet |
| Yoko7651.Yoko.SetFunction | P13pt/drivers/yoko7651.py:109-117 | writes `F1E`/`F5E` and adopts the upper-cased function, or raises "Unknown function requested" without writing or changing it |
| Yoko7651.Yoko.SetOutput | P13pt/drivers/yoko7651.py:146-153 | writes `O1E`/`O0E`, or raises "Invalid output state requested" without writing |
| Yoko7651.Yoko.GetOutput | P13pt/drivers/yoko7651.py:136-144 | asks `OC` and returns the decoded status, changing nothing else |
| Yoko7651.Yoko.SetRange | P13pt/drivers/yoko7651.py:128-133 | writes the code of the smallest fitting range and adopts the requested range, or raises "No compatible range could be found" without writing |
| Yoko7651.Yoko.GetSetpoint | P13pt/drivers/yoko7651.py:156-161 | asks `OD`; returns the value only when the reply's unit matches the function, else "Invalid mode selected" |
| Yoko7651.Yoko.SetSetpoint | P13pt/drivers/yoko7651.py:163-182 | a value beyond the range is refused before any exchange; otherwise the present set-point is read and the ramp's set-points are written in order, ending at the value |
| Yoko7651.Yoko.GetVoltage | P13pt/drivers/yoko7651.py:185-188 | raises "Wrong mode selected" outside VOLT, otherwise reads the set-point |
| Yoko7651.Yoko.SetVoltage | P13pt/drivers/yoko7651.py:190-193 | raises "Wrong mode selected" outside VOLT with nothing sent; in VOLT, "Value exceeds range" with nothing sent, "Invalid mode selected" after the OD query when the set-point is not in volts, else the ramp's writes after OD or its zero-step error |
| Yoko7651.Yoko.GetCurrent | P13pt/drivers/yoko7651.py:195-198 | raises "Wrong mode selected" outside CURR, otherwise reads the set-point |
| Yoko7651.Yoko.SetCurrent | P13pt/drivers/yoko7651.py:200-203 | raises "Wrong mode selected" outside CURR with nothing sent; in CURR, "Value exceeds range" with nothing sent, "Invalid mode selected" after the OD query when the set-point is not in amperes, else the ramp's writes after OD or its zero-step error |
| Yoko7651.Prepare | P13pt/drivers/yoko7651.py:75-79 | reset, output off, function and range are sent in that order, stopping at the first exception |
| Yoko7651.Finish | P13pt/drivers/yoko7651.py:80-81 | set-point 0 by the ramp, then output on |
| Yoko7651.Configure | P13pt/drivers/yoko7651.py:72-81 | the initialisation sends exactly the specified command sequence or raises its first exception, leaving the requested function and range adopted |
| Yoko7651.Open | P13pt/drivers/yoko7651.py:28-81 | the constructor succeeds exactly when the identity, panel and readiness checks pass (or initialisation succeeds), and its log is the specified exchange |
| Yoko7651.NoInitialiseOnlyAsks | P13pt/drivers/yoko7651.py:41-70 | without initialise an accepted source receives only the `OS` and `OC` queries, and its function and range are the requested ones |
| Yoko7651.InitialisationOrder | P13pt/drivers/yoko7651.py:75-81 | a successful initialisation first switches the output off and ends with set-point 0 then output on |
| Yoko7651.NegativeRangeRefused | P13pt/drivers/yoko7651.py:129-131 | a negative range passes range selection and is then refused by the set-point check with "Value exceeds range" (also lines 96, 167-168) |
| Ramp.Setpoints | P13pt/drivers/yoko7651.py:165-182 | every ramp that does not raise writes at least one set-point and its last one is the target |
| Ramp.SetpointsAreArange | P13pt/drivers/yoko7651.py:177-181 | the walk written is exactly `np.arange`'s sequence |
| Ramp.CloseIsOneWrite | P13pt/drivers/yoko7651.py:172-174 | a target within one step is the single value written |
| Ramp.RampFails | P13pt/drivers/yoko7651.py:177-178 | the ramp fails exactly when the target is out of reach and the signed step is zero |
| Ramp.NegativeStepJumps | P13pt/drivers/yoko7651.py:172-174 | with a negative slope every target is "close", so it is written at once |
| Ramp.RampWalksToTarget | P13pt/drivers/yoko7651.py:177-182 | with a positive step the ramp starts at the present set-point, moves one step toward the target per write, never passes it, and ends at it |
| Keithley2400.ModeCommands | P13pt/drivers/keithley2400.py:35-42 | a mode `v`/`i` in either case configures that function and zeroes its level; any other mode yields no command |
| Keithley2400.K2400.constructor | P13pt/drivers/keithley2400.py:18-19 | slope and recorded mode as given, nothing sent |
| Keithley2400.K2400.SetLevel | P13pt/drivers/keithley2400.py:54-94 | the source must report the quantity's mode and the value must not exceed the queried range (the lower end is not checked); then the set-point is read and the ramp's levels are written |
| Keithley2400.K2400.RampTo | P13pt/drivers/keithley2400.py:86-94 | writes the ramp's levels in order, ending at the value, or raises on a zero step |
| Keithley2400.K2400.SetVoltage | P13pt/drivers/keithley2400.py:75-94 | "not set as voltage source" after the mode query, "out of range" after the range query, otherwise the set-point query and the ramp's writes, or its zero-step error with only the three queries sent |
| Keithley2400.K2400.SetCurrent | P13pt/drivers/keithley2400.py:54-73 | "not set as current source" after the mode query, "out of range" after the range query, otherwise the set-point query and the ramp's writes, or its zero-step error with only the three queries sent |
| Keithley2400.K2400.GetVoltage | P13pt/drivers/keithley2400.py:102-105 | switches the sense function to volts and returns the first field of the reading |
| Keithley2400.K2400.GetCurrent | P13pt/drivers/keithley2400.py:107-110 | switches the sense function to amperes and returns the second field of the reading |
| Keithley2400.Field | P13pt/drivers/keithley2400.py:105-110 | `reading.split(',')[i]` is the i-th comma-free field, or IndexError when the reading has too few |
| Keithley2400.ReadingFields | P13pt/drivers/keithley2400.py:105-110 | a reading `v,i,...` gives v to `get_voltage` and i to `get_current` whatever follows |
| Keithley2400.SingleFieldHasNoCurrent | P13pt/drivers/keithley2400.py:110 | a reading without a comma makes `get_current` raise IndexError |
| Keithley2400.Initialise | P13pt/drivers/keithley2400.py:31-49 | the initialising writes, in order |
| Keithley2400.Open | P13pt/drivers/keithley2400.py:16-52 | the constructor raises on a foreign identity or an error status, and otherwise sends exactly the specified exchange |
| Keithley2400.InitialisationOrder | P13pt/drivers/keithley2400.py:33-49 | the output is switched off before anything is configured and switched on last |
| Keithley2400.RangesWrittenIffGiven | P13pt/drivers/keithley2400.py:44-47 | a range is written exactly when one is given, once, with its value |
| Keithley2400.UnknownModeConfiguresNothing | P13pt/drivers/keithley2400.py:35-42 | an unknown source mode is not refused: no function is configured and no mode recorded |
| Keithley2600.K2600.constructor | P13pt/drivers/keithley2600.py:20-22 | the channel is stored lower-cased with the slope |
| Keithley2600.K2600.SetVoltage | P13pt/drivers/keithley2600.py:45-58 | reads the set-point, then writes the value at once when at most one step away, or the ramp's levels ending at the value |
| Keithley2600.K2600.GetVoltsetpoint | P13pt/drivers/keithley2600.py:60-61 | the reply to this channel's set-point query |
| Keithley2600.K2600.GetVoltage | P13pt/drivers/keithley2600.py:63-64 | the reply to this channel's voltage measurement |
| Keithley2600.K2600.GetCurrent | P13pt/drivers/keithley2600.py:66-67 | the reply to this channel's current measurement |
| Keithley2600.Open | P13pt/drivers/keithley2600.py:16-43 | an invalid channel raises before anything is sent; otherwise the clear, model check and initialisation are sent as specified |
| Keithley2600.ResetNeedsInitialise | P13pt/drivers/keithley2600.py:31-39 | the instrument is cleared exactly when reset is asked, and `reset()` is written only when both initialise and reset are asked |
| Keithley2600.OutputOnLast | P13pt/drivers/keithley2600.py:43 | with initialise, the output is switched on last |
| Keithley2600.ChannelIgnoresCase | P13pt/drivers/keithley2600.py:22-24 | `'A'` and `'a'` open the same channel with the same exchange |
| Keithley2600.OneStepIsOneWrite | P13pt/drivers/keithley2600.py:51-53 | a target exactly one step away is written at once (the 2400's `<` would ramp) |
| Keithley2400.SelectMode | P13pt/drivers/keithley2400.py:35-42 | a mode `v` or `i` in any case selects that source function at level 0 and is recorded; any other mode writes and records nothing |
| Keithley2400.SelectRanges | P13pt/drivers/keithley2400.py:44-47 | the voltage range, then the current range, is written exactly when given; the source mode is untouched |
| Bilt.Frame.constructor | P13pt/drivers/bilt.py:100-104 | a frame starts with an empty exchange |
| Bilt.OpenFrame | P13pt/drivers/bilt.py:100-109 | asks the frame module for its identity and then for errors, raising the matching exception, as `FrameOpened` specifies |
| Bilt.FrameOpensIff | P13pt/drivers/bilt.py:106-109 | a frame opens exactly when it identifies as a BN72 frame and reports error `+000` |
| Bilt.VoltageSource.constructor | P13pt/drivers/bilt.py:35-41 | channel and model (the first four characters of the identity) as given |
| Bilt.VoltageSource.SetVoltage | P13pt/drivers/bilt.py:80-96 | the value rounded to five decimals is written (and triggered on a 2142), then the status is polled until `1`; nothing is written when the rounded reading already equals it |
| Bilt.VoltageSource.Apply | P13pt/drivers/bilt.py:87-96 | writes the value, triggers a 2142, then polls the status |
| Bilt.VoltageSource.Poll | P13pt/drivers/bilt.py:94-96 | asks for the status as many times as it takes to read the first `1`, and no more |
| Bilt.FirstIndexUnique | P13pt/drivers/bilt.py:95-96 | the polling stops at the first `1` of the replies |
| Bilt.SetVoltageIdempotent | P13pt/drivers/bilt.py:81-84 | once the instrument reads back the rounded value, setting the same value again only asks |
| Bilt.SetVoltageWritesRounded | P13pt/drivers/bilt.py:81-96 | a voltage that is written is written once, rounded to five decimals, and polling stops at the first status `1` |
| Bilt.AlreadySetIffEqual | P13pt/drivers/bilt.py:83 | the 1e-12 tolerance changes nothing: a voltage counts as set exactly when both five-decimal roundings are equal |
| Bilt.RoundedApart | P13pt/drivers/bilt.py:81-83 | two different five-decimal roundings are at least 1e-5 apart |
| Bilt.OpenSource | P13pt/drivers/bilt.py:31-78 | the voltage-source constructor sends exactly the specified exchange or raises its first exception |
| Bilt.Identify | P13pt/drivers/bilt.py:41-72 | the module is asked for its identity, then with initialise configured, as `SourceInit` specifies |
| Bilt.CheckSource | P13pt/drivers/bilt.py:76-77 | the error query ends the constructor; it raises exactly when the reply does not start with `+000`, and otherwise returns the source on the channel with its model |
| Bilt.Initialise | P13pt/drivers/bilt.py:43-72 | output off, range, filter, slope, zero volts, output on, in order, stopping at a missing range or filter |
| Bilt.SetRange | P13pt/drivers/bilt.py:47-52 | `AUTO 1` for "auto", otherwise `AUTO 0` then the range, raising when the range is missing |
| Bilt.Settle | P13pt/drivers/bilt.py:57-72 | slope (the `None` text for a missing slope), zero volts and output on, with the 2142 trigger |
| Bilt.InitialisationOrder | P13pt/drivers/bilt.py:45-72 | a source is switched off first and on last; a missing range or filter raises with the output left off |
| Bilt.TriggerOnlyFor2142 | P13pt/drivers/bilt.py:58-69 | the slope trigger is set up and fired exactly for the 2142 model |
| Bilt.VoltMeter.constructor | P13pt/drivers/bilt.py:14-16 | the voltmeter's channel as given |
| Bilt.VoltMeter.GetVoltage | P13pt/drivers/bilt.py:26-27 | the reply to the channel's measurement query |
| Bilt.OpenMeter | P13pt/drivers/bilt.py:14-24 | the voltmeter constructor sets the filter, then raises when the error query does not start with `+000` |
| Tic500.Open | P13pt/drivers/tic500.py:13-20 | as written: the one identity query; raises exactly when the reply starts with the TIC 500's identity |
| Tic500.OpenIntended | P13pt/drivers/tic500.py:19-20 | as intended by the message: raises exactly when the reply is not a TIC 500's |
| Tic500.GenuineControllerRefused | P13pt/drivers/tic500.py:19-20 | as written, a genuine TIC 500 is refused and a silent instrument accepted |
| Tic500.IntendedAcceptsGenuine | P13pt/drivers/tic500.py:19-20 | the corrected check accepts exactly the replies starting with the identity, the opposite of the written one |
| Tic500.TempQuery | P13pt/drivers/tic500.py:22-25 | the query is the upper-cased channel plus `?` exactly for the three channels, else "Invalid channel" |
| Tic500.GetTempIgnoresCase | P13pt/drivers/tic500.py:23-25 | any spelling of a channel name reads the same channel |
| Tic500.GetTempAsksOnce | P13pt/drivers/tic500.py:25 | the result depends only on the controller's answer to the one query sent |
| Tic500.UnknownChannelAsksNothing | P13pt/drivers/tic500.py:23-24 | an unknown channel is refused before anything is asked |
| Tic500.ChannelSpellings | P13pt/drivers/tic500.py:23 | the three channels are accepted in lower case; a suffixed name is not a channel |
| AnritsuVna.SweepCheck | P13pt/drivers/anritsuvna.py:144-167 | `is_sweep_done` from a port: answers true exactly when that port and every later one report bit 7, clearing the status once per finished port |
| AnritsuVna.SweepDoneIffAllPortsReport | P13pt/drivers/anritsuvna.py:156-167 | a running sweep is done exactly when every port from the present one on reports bit 7; otherwise the check stops at the first that does not, having moved past the ones that did |
| AnritsuVna.Wait | P13pt/drivers/anritsuvna.py:219-221 | the wait asks `is_sweep_done` once per poll until it answers true, and leaves no sweep running when it does |
| AnritsuVna.WaitStops | P13pt/drivers/anritsuvna.py:219-221 | once the sweep is done, further status bytes change nothing |
| AnritsuVna.Evens | P13pt/drivers/anritsuvna.py:116 | `data[::2]`: half the length rounded up, element k is `data[2k]` |
| AnritsuVna.Odds | P13pt/drivers/anritsuvna.py:117 | `data[1::2]`: half the length rounded down, element k is `data[2k+1]` |
| AnritsuVna.SplitInterleave | P13pt/drivers/anritsuvna.py:116-117 | splitting an interleaved trace gives back its real and imaginary parts |
| AnritsuVna.InterleaveSplit | P13pt/drivers/anritsuvna.py:116-117 | a trace of even length is its two halves interleaved again |
| AnritsuVna.GuardsExclusive | P13pt/drivers/anritsuvna.py:233-255 | no sweep type passes both the linear and the segmented guard |
| AnritsuVna.Vna.constructor | P13pt/drivers/anritsuvna.py:32-36 | no sweep running and an empty exchange |
| AnritsuVna.Vna.IsSweepDone | P13pt/drivers/anritsuvna.py:144-167 | raises "No sweep is running" without a sweep; otherwise answers and moves the sweeping port exactly as `SweepCheck` |
| AnritsuVna.Vna.StopSweep | P13pt/drivers/anritsuvna.py:195-198 | writes the hold command and nothing else |
| AnritsuVna.Vna.SingleSweep | P13pt/drivers/anritsuvna.py:200-221 | holds, arms the sweep-complete event, clears, triggers one sweep from port 1, and with `wait` polls as `Wait` specifies |
| AnritsuVna.Vna.WaitForSweep | P13pt/drivers/anritsuvna.py:219-221 | the waiting loop's exchange and final port are those of `Wait` |
| AnritsuVna.Vna.Poll | P13pt/drivers/anritsuvna.py:151-167 | one `is_sweep_done` while a sweep runs, as `SweepCheck` |
| AnritsuVna.Vna.GetFreqList | P13pt/drivers/anritsuvna.py:70-97 | the frequencies, fetched between the binary and the ASCII format commands |
| AnritsuVna.Vna.GetTrace | P13pt/drivers/anritsuvna.py:99-118 | selects the trace, fetches it in binary, and returns its even and odd elements |
| AnritsuVna.Vna.GetTable | P13pt/drivers/anritsuvna.py:120-142 | the frequency list, then real and imaginary parts of each trace asked for, in order: 1 + 2n rows |
| AnritsuVna.Vna.GetSweepTime | P13pt/drivers/anritsuvna.py:169-178 | twice the reported time |
| AnritsuVna.Vna.GetSourceAtt | P13pt/drivers/anritsuvna.py:180-193 | the reply to the port's attenuator query |
| AnritsuVna.Vna.GetSweepType | P13pt/drivers/anritsuvna.py:223-231 | the reply to the sweep-type query |
| AnritsuVna.Vna.LinearWrite | P13pt/drivers/anritsuvna.py:245-255 | asks the sweep type, then writes when it reads `LIN`, else raises the guard's message naming the function |
| AnritsuVna.Vna.EnableAveraging | P13pt/drivers/anritsuvna.py:276-280 | the guarded averaging-on write |
| AnritsuVna.Vna.DisableAveraging | P13pt/drivers/anritsuvna.py:282-286 | the guarded averaging-off write |
| AnritsuVna.Vna.SetAverageCount | P13pt/drivers/anritsuvna.py:288-296 | the guarded average-count write |
| AnritsuVna.Vna.SetAverageType | P13pt/drivers/anritsuvna.py:298-309 | the guarded average-type write |
| AnritsuVna.Vna.SetAverage | P13pt/drivers/anritsuvna.py:311-318 | guarded itself and each of its three calls guarded again: a linear sweep asks for the sweep type four times |
| AnritsuVna.Vna.GetSourcePower | P13pt/drivers/anritsuvna.py:320-334 | the guarded source-power query |
| AnritsuVna.Vna.GetSourceEffPow | P13pt/drivers/anritsuvna.py:336-350 | the guarded effective-power query |
| AnritsuVna.Vna.DumpFreqSegmentsGuard | P13pt/drivers/anritsuvna.py:233-257 | `dump_freq_segments` raises unless the sweep type reads `FSEGM` |
| AnritsuVna.IntText | P13pt/drivers/anritsuvna.py:113 | the decimal text of a trace number is never empty |
| AnritsuVna.Open | P13pt/drivers/anritsuvna.py:34-62 | the constructor sends exactly the specified exchange and raises on a wrong identity or a device error |
| AnritsuVna.TcpipNeedsGreeting | P13pt/drivers/anritsuvna.py:45-48 | for every connection and reply: over TCP/IP a reply starting with the bare identity is refused, the greeted identity passes exactly when the error reply reads "No Error", and elsewhere the bare identity passes on the same condition |
| Parameter.FlatLength | P13pt/mascril/parameter.py:234-247 | `np.asarray(v, dtype=float).flatten()` holds as many elements as the product of v's shape |
| Parameter.FlattenEachFails | P13pt/mascril/parameter.py:233-234 | once an item of a list fails to convert, the whole conversion fails |
| Parameter.ParseGiven | P13pt/mascril/parameter.py:242-254 | a list, ndarray or number numpy converts gives its elements in row-major order and their listing, never `could not evaluate`; a ragged one gives the default `[0]` and `could not evaluate` |
| Parameter.ParseValue | P13pt/mascril/parameter.py:226-256 | the values and text returned are those the evaluation, conversion and fallback rules specify |
| Parameter.OneWayShape | P13pt/mascril/parameter.py:276-279 | a range needs a non-zero step between two different ends; it starts at start, advances by |step| toward stop, stays short of stop until its last value, and ends at stop within 1e-15 |
| Parameter.AllerRetour | P13pt/mascril/parameter.py:281-282 | A/R appends the reversed range: a palindrome twice as long |
| Parameter.FromZeroShape | P13pt/mascril/parameter.py:283-284 | from 0 prepends 0, |step|, ... toward a non-zero first value, without it; the values after are unchanged |
| Parameter.ToZeroShape | P13pt/mascril/parameter.py:285-286 | to 0 appends the last value again, then values toward 0 without 0, when the last value is not 0; the values before are unchanged |
| Parameter.ExactOneWay | P13pt/mascril/parameter.py:276-279 | when the step divides the span n ≥ 1 times, the range has n + 1 values with stop last |
| Parameter.CountOfExactRange | P13pt/mascril/parameter.py:307-317 | when the step divides the span exactly, the count shown is the length of the range `apply` builds, and A/R doubles both |
| Parameter.CountOneShort | P13pt/mascril/parameter.py:276-279 | when the step does not divide the span the count is one short: 0 → 1 by 0.3 shows 4 for five values (also line 317) |
| Parameter.Sweep.constructor | P13pt/mascril/parameter.py:141-152 | once `__init__` returns, the value is the parsed initial value; the read-only field shows the parsed text outside CLI mode |
| Parameter.NewSweep | P13pt/mascril/parameter.py:141-164 | outside CLI mode a text whose evaluation or conversion raises ends construction with AttributeError, the warning needing `self.dialog` before it exists; otherwise a fresh parameter holding the parsed value and showing its text |
| Parameter.Sweep.Setup | P13pt/mascril/parameter.py:258-261 | the dialog opens exactly when there is a main window |
| Parameter.Sweep.Apply | P13pt/mascril/parameter.py:263-295 | CLI and unparsable fields change nothing; range mode stores the rounded range and its listing and closes the dialog; manual mode stores the parsed text, the dialog staying open exactly on `could not evaluate` |
| Parameter.Sweep.ValuesChanged | P13pt/mascril/parameter.py:297-317 | the count is updated exactly for a non-zero step whose three fields parse, outside CLI mode |
| Parameter.IndexOf | P13pt/mascril/parameter.py:118-131 | `findText`: the first index holding x, or -1 exactly when x is absent |
| Parameter.Select.constructor | P13pt/mascril/parameter.py:107-108 | no entries, no current index, no stored value |
| Parameter.Select.Init | P13pt/mascril/parameter.py:107-120 | in CLI mode the default entry (Python indexing, IndexError outside); otherwise the entries are added in order and it raises "Duplicate item in Select()" exactly when they are not distinct |
| Parameter.Select.SetValue | P13pt/mascril/parameter.py:127-135 | stores the value; outside CLI mode it succeeds exactly for an entry, which becomes current, and raises "Item not part of list" otherwise |
| Parameter.Field.constructor | P13pt/mascril/parameter.py:34-50 | Folder/String/Boolean: the initial value is stored and read back (also lines 69-75, 89-94) |
| Parameter.Field.SetValue | P13pt/mascril/parameter.py:100-104 | the setter stores the value and reading gives it back; in CLI mode the widget is untouched (also lines 56-60, 81-85) |
| Parameter.Field.Edit | P13pt/mascril/parameter.py:96-98 | after an edit in the widget the parameter reads the edit while the stored value stays (also lines 52-54, 77-79) |
| Parameter.Browse | P13pt/mascril/parameter.py:62-65 | a chosen directory replaces the widget's text; a cancelled dialog keeps it |
| Mascril.Quot | P13pt/mascril/modules/dc2gates.py:82-84 | a quotient involving a numpy scalar is the real quotient for a non-zero divisor and inf/-inf/nan (never an exception) for a zero one |
| Mascril.LeakCurrent | P13pt/mascril/modules/dc2gates.py:82-83 | `Ileak = (Vg - Vgm)/Rg`: the real quotient for a non-zero resistor, a non-finite value for a zero one |
| Mascril.SeriesResistance | P13pt/mascril/modules/dc2gates.py:84 | `Rs = Rds*Vdsm/(Vds - Vdsm)`: the divider formula, non-finite when Vds equals Vdsm |
| Mascril.BindDomain | P13pt/mascril/measurement.py:93-119 | the `locals()` the alarms and the data row see bind exactly the names the script assigned |
| Mascril.BindLookup | P13pt/mascril/measurement.py:93-119 | with distinct names, each name is bound to the value assigned to it |
| Mascril.Eval | P13pt/mascril/measurement.py:93 | evaluating a name succeeds exactly when it is bound (otherwise NameError); negation and abs of any number, inf and nan included, return a number; a comparison of two numbers returns a boolean and never raises |
| Mascril.InfinitiesBound | P13pt/mascril/measurement.py:93 | under numpy's order inf is above every real and -inf below it, and `np.abs(-inf)` is inf |
| Mascril.NanUnordered | P13pt/mascril/measurement.py:93 | every comparison with nan is False, nan == nan included, and nan != x is True |
| Mascril.LeakAlarmEntry | P13pt/mascril/measurement.py:86-104 | a CALLCOPS alarm `np.abs(Ileak) > limit` stores True exactly when the leak current through a non-zero resistor exceeds the limit; with a zero resistor it stores True for distinct voltages (inf) and leaves 0 for equal ones (nan) |
| Mascril.AlarmData | P13pt/mascril/measurement.py:86-110 | the emitted list has one entry per alarm, entry i filled by alarm i alone |
| Mascril.EntryCases | P13pt/mascril/measurement.py:86-109 | blank conditions leave 0; a condition whose evaluation raises (an unbound name, text in arithmetic, a Python-float division by zero, a syntax error) stores its exception; SHOWVALUE stores the value; CALLCOPS and QUIT store True when the value is truthy; an alarm quits exactly when it is a QUIT rule storing True |
| Mascril.NoQuitRuleNoQuit | P13pt/mascril/measurement.py:105-109 | without an ALARM_QUIT rule no alarm ever requests quit |
| Mascril.RowCells | P13pt/mascril/measurement.py:116-122 | one cell per observable, in order: its bound value, or None when unbound |
| Mascril.DataLineFields | P13pt/mascril/measurement.py:116-123 | every data line splits on tabs into one field per observable, matching the header, the fields being the printed cells (`None` for unbound names) (also line 80) |
| Mascril.RunMessages | P13pt/mascril/measurement.py:56-66 | `run` prints one message per exception caught, acquisition first, clean-up second |
| Mascril.Covered | P13pt/mascril/modules/dc2gates.py:93-100 | the `tidy_up` statements run up to the first source attribute never assigned |
| Mascril.DiskAfter | P13pt/mascril/measurement.py:123-124 | a data file opened in append mode holds its earlier lines, the header and one row per saved row, in order (every row is flushed) (also lines 79-80) |
| Mascril.MeasurementBase.constructor | P13pt/mascril/measurement.py:34-38 | no data file open, quit not requested, nothing recorded, the files as given |
| Mascril.MeasurementBase.PrepareSaving | P13pt/mascril/measurement.py:70-82 | with a file still open it raises "The last data file has not been properly closed." and changes nothing; otherwise the file keeps its lines and the header follows them |
| Mascril.MeasurementBase.EvaluateAlarms | P13pt/mascril/measurement.py:84-110 | emits `AlarmData` (conditions evaluated with numpy's inf and nan semantics) and requests quit exactly when some QUIT rule fires, keeping an earlier request |
| Mascril.MeasurementBase.SaveRow | P13pt/mascril/measurement.py:112-127 | without a data file it raises "No data file has been opened." and changes nothing; otherwise the row is written first, then the alarms are evaluated |
| Mascril.MeasurementBase.EndSaving | P13pt/mascril/measurement.py:129-132 | closing leaves the data file's lines on disk and no file open; closing nothing changes nothing |
| Mascril.MeasurementBase.Quit | P13pt/mascril/measurement.py:145-147 | quit is requested afterwards |
| Mascril.MeasurementBase.PollQuit | P13pt/mascril/measurement.py:147 | the scripts' check of the flag stops exactly when quit was requested before or by the operator now |
| Mascril.MeasurementBase.ZeroSources | P13pt/mascril/modules/dc2gates.py:93-100 | each assigned source is set to 0 in order until the first attribute never assigned, which raises AttributeError |
| Mascril.MeasurementBase.Report | P13pt/mascril/measurement.py:56-66 | the console gains exactly `RunMessages` |
| Dc2Gates.StepObservables | P13pt/mascril/modules/dc2gates.py:68-87 | the bindings of a step hold every observable, so its data line has no None cell (also line 24) |
| Dc2Gates.StepVoltages | P13pt/mascril/modules/dc2gates.py:59-79 | a step's row records the Vds, Vg1 and Vg2 it set (Vg2 = Vg1 under commongate) and the three meter readings |
| Dc2Gates.StepDerived | P13pt/mascril/modules/dc2gates.py:82-84 | the row's Ileak1, Ileak2 and Rs are the leak currents through Rg1, Rg2 and the divider formula for Rds, inf/nan for a zero denominator |
| Dc2Gates.Gate1Sets | P13pt/mascril/modules/dc2gates.py:64-71 | the Vg1 loop sends the Vg1 values in order to sourceVg1 (and sourceVg2 under commongate) and nothing to the others |
| Dc2Gates.Gate1Rows | P13pt/mascril/modules/dc2gates.py:64-87 | the Vg1 loop saves one row per Vg1 value, in order |
| Dc2Gates.Gate2Sets | P13pt/mascril/modules/dc2gates.py:61-71 | in the Vg2 loop the Vg1-following sources run through the Vg1 values once per Vg2 value; sourceVg2 otherwise gets the Vg2 values in order |
| Dc2Gates.Gate2Rows | P13pt/mascril/modules/dc2gates.py:61-87 | a full Vg2 loop saves one data row per (Vg2, Vg1) pair |
| Dc2Gates.PlanSets | P13pt/mascril/modules/dc2gates.py:59-71 | without a quit request each Vds value is sent once in order; the Vg1-following sources run through Vg1s once per (Vds, Vg2) pair; sourceVg2 otherwise runs through Vg2s once per Vds value and never under commongate; meters receive nothing |
| Dc2Gates.PlanRows | P13pt/mascril/modules/dc2gates.py:59-87 | without a quit request the sweep saves |Vdss|·|Vg2s|·|Vg1s| rows |
| Dc2Gates.PlanFile | P13pt/mascril/modules/dc2gates.py:56-87 | after a complete sweep the data file holds its earlier lines, the header and |Vdss|·|Vg2s|·|Vg1s| rows, one per step in order |
| Dc2Gates.Measurement.constructor | P13pt/mascril/modules/dc2gates.py:24-31 | a fresh measurement with the script's nine observables and its three alarms, none of which quits: nothing open, nothing recorded, no instrument assigned |
| Dc2Gates.Measurement.Step | P13pt/mascril/modules/dc2gates.py:65-87 | the quit check returns exactly when quit was requested; otherwise the step sets Vg1 (and Vg2 under commongate) and saves the step's row, as `Pass` specifies |
| Dc2Gates.Measurement.SweepVg1 | P13pt/mascril/modules/dc2gates.py:64-87 | the loop either runs all Vg1 steps or stops at the first quit check that sees the flag, with exactly the earlier steps done; with no stop pressed it never stops |
| Dc2Gates.Measurement.StepVg2 | P13pt/mascril/modules/dc2gates.py:61-87 | one Vg2 iteration: Vg2 unless commongate, then the Vg1 loop, or the stop inside it |
| Dc2Gates.Measurement.SweepVg2 | P13pt/mascril/modules/dc2gates.py:61-87 | all Vg2 iterations, or those before the stop and the stopped one's prefix |
| Dc2Gates.Measurement.StepVds | P13pt/mascril/modules/dc2gates.py:59-87 | one Vds iteration: Vds, then the Vg2 loop, or the stop inside it |
| Dc2Gates.Measurement.SweepVds | P13pt/mascril/modules/dc2gates.py:59-87 | the whole plan of the three loops, or everything up to the quit check that stopped it |
| Dc2Gates.Measurement.Acquire | P13pt/mascril/modules/dc2gates.py:59-91 | the sweep on the bindings `measure` computes: the plan, or the plan up to the stopping check |
| Dc2Gates.Measurement.Measure | P13pt/mascril/modules/dc2gates.py:33-91 | a failing instrument set-up or an unclosed data file fails with nothing recorded; otherwise the file `data_dir/<timestamp>_<comment>.txt` is opened and the run completes the plan or stops at the first quit check seeing the flag; without quit it completes |
| Dc2Gates.Measurement.TidyUp | P13pt/mascril/modules/dc2gates.py:93-100 | the data file is closed, then Vds, Vg1, Vg2 go to 0 in order up to the first source never assigned, which raises AttributeError |
| Dc2Gates.Measurement.Run | P13pt/mascril/measurement.py:56-66 | clean-up always follows the acquisition, each failure is reported on the console, the data file ends closed, and a run without quit or failure writes the whole plan |
| Dc2Gates.Measurement.Conclude | P13pt/mascril/measurement.py:62-66 | `tidy_up`, then the report of both outcomes |
| Dc2Gates.ZeroResistorLeakAlarm | P13pt/mascril/modules/dc2gates.py:26-28 | with Rg1 = 0 the Ileak1 alarm calls the cops when Vg1 differs from its reading (inf > 1e-8) and leaves its entry at 0 when they agree (nan compares False) |
| Breakdown.CheckSegments | P13pt/mascril/modules/breakdown2400_ZVA67.py:68-77 | the segment loop succeeds exactly when every segment repeats the first one's power, giving that power (None without segments), and raises "Please select the same power…" otherwise |
| Breakdown.PowerCheck | P13pt/mascril/modules/breakdown2400_ZVA67.py:64-89 | the VNA checks pass exactly for a segmented sweep with one power, no automatic attenuator, equal attenuations and at least one segment; the reported power is every segment's power minus either attenuation; a failure raises one of the script's messages (or the TypeError of `None - float` without segments) |
| Breakdown.VnaPower | P13pt/mascril/modules/breakdown2400_ZVA67.py:64-89 | the checks in the source's order give exactly `PowerCheck` |
| Breakdown.PlanFile | P13pt/mascril/modules/breakdown2400_ZVA67.py:102-143 | after a complete run the data file inside the run's folder holds its earlier lines, the header and one row per Vg value, in order, and Vg receives the values in list order |
| Breakdown.Measurement.constructor | P13pt/mascril/modules/breakdown2400_ZVA67.py:18-32 | a fresh measurement with the script's observables and alarm, nothing open or recorded |
| Breakdown.Measurement.MeasurePoint | P13pt/mascril/modules/breakdown2400_ZVA67.py:134-153 | a point sets Vg, saves its row and, with the VNA, saves one spectrum tagged with Vg |
| Breakdown.Measurement.Step | P13pt/mascril/modules/breakdown2400_ZVA67.py:130-153 | the quit check stops exactly when quit was requested; otherwise the step's point follows it |
| Breakdown.Measurement.Sweep | P13pt/mascril/modules/breakdown2400_ZVA67.py:130-153 | the Vg loop runs every point or stops at the first quit check that sees the flag, with exactly the earlier points done; with no stop pressed it completes |
| Breakdown.Measurement.Acquire | P13pt/mascril/modules/breakdown2400_ZVA67.py:108-153 | once the data file is open: the VNA configuration file (with the VNA), then the Vg loop; it never fails |
| Breakdown.Measurement.Start | P13pt/mascril/modules/breakdown2400_ZVA67.py:101-153 | the run's folder is created, the data file opened inside it (or the unclosed-file exception raised), then the acquisition |
| Breakdown.Measurement.Measure | P13pt/mascril/modules/breakdown2400_ZVA67.py:34-158 | a failing set-up or VNA check fails with nothing recorded; otherwise the folder `<timestamp>_pwr=<power>_<comment>` holds the data file and the run completes the plan or stops at a quit check; without quit it completes |
| Breakdown.Measurement.TidyUp | P13pt/mascril/modules/breakdown2400_ZVA67.py:160-165 | the data file is closed, then Vg goes to 0, raising AttributeError when the source was never assigned |
| MesureCapacitor.CheckSegments | P13pt/mascril/modules/MesureCapacitor_Anritsu_Keithley2400.py:62-72 | the segment loop succeeds exactly when every segment has equal port powers equal to the first's, giving that power (None without segments), and raises "Please select the same power…" otherwise |
| MesureCapacitor.PowerCheck | P13pt/mascril/modules/MesureCapacitor_Anritsu_Keithley2400.py:57-79 | the VNA checks pass exactly for an FSEGM sweep with one power on both ports, equal attenuators and at least one segment; the power is every segment's power minus the attenuation; failures raise one of the script's messages or the TypeError of `None - float` |
| MesureCapacitor.VnaPower | P13pt/mascril/modules/MesureCapacitor_Anritsu_Keithley2400.py:57-78 | the checks in the source's order give exactly `PowerCheck` |
| MesureCapacitor.RunTitleParts | P13pt/mascril/modules/MesureCapacitor_Anritsu_Keithley2400.py:79-85 | the run's name is the timestamp, then `_pwr=<power>` only with the VNA, then `_<comment>` only for a non-empty comment |
| MesureCapacitor.StepRecords | P13pt/mascril/modules/MesureCapacitor_Anritsu_Keithley2400.py:103-116 | a step's row records the Vg it set and the leak current read back |
| MesureCapacitor.PlanRows | P13pt/mascril/modules/MesureCapacitor_Anritsu_Keithley2400.py:103-116 | without a quit request Vg takes the values in list order, one row per value |
| MesureCapacitor.PlanSpectra | P13pt/mascril/modules/MesureCapacitor_Anritsu_Keithley2400.py:119-131 | without a quit request and with the VNA exactly one spectrum per row, tagged with its Vg; none without the VNA |
| MesureCapacitor.PlanFile | P13pt/mascril/modules/MesureCapacitor_Anritsu_Keithley2400.py:92-116 | after a complete sweep the data file holds its earlier lines, the header and one row per Vg value, in order |
| MesureCapacitor.Measurement.constructor | P13pt/mascril/modules/MesureCapacitor_Anritsu_Keithley2400.py:30-34 | a fresh measurement with the script's observables and alarm, nothing open or recorded |
| MesureCapacitor.Measurement.MeasurePoint | P13pt/mascril/modules/MesureCapacitor_Anritsu_Keithley2400.py:107-131 | a point sets Vg, saves its row and, with the VNA, one spectrum; the quit flag is untouched |
| MesureCapacitor.Measurement.Step | P13pt/mascril/modules/MesureCapacitor_Anritsu_Keithley2400.py:104-131 | the quit check stops exactly when quit was requested; otherwise the point follows |
| MesureCapacitor.Measurement.Sweep | P13pt/mascril/modules/MesureCapacitor_Anritsu_Keithley2400.py:103-131 | every point, or the points before the first quit check seeing the flag; with no stop pressed it completes |
| MesureCapacitor.Measurement.Acquire | P13pt/mascril/modules/MesureCapacitor_Anritsu_Keithley2400.py:94-131 | once the data file is open: the VNA configuration (with the VNA), then the Vg loop; it never fails |
| MesureCapacitor.Measurement.Start | P13pt/mascril/modules/MesureCapacitor_Anritsu_Keithley2400.py:88-131 | the spectra folder is created whether or not the VNA is used, then the data file is opened (or the unclosed-file exception raised) and the acquisition runs |
| MesureCapacitor.Measurement.Measure | P13pt/mascril/modules/MesureCapacitor_Anritsu_Keithley2400.py:36-136 | a failing set-up or VNA check fails with nothing recorded; otherwise the run completes the plan or stops at a quit check; without quit it completes |
| MesureCapacitor.Measurement.TidyUp | P13pt/mascril/modules/MesureCapacitor_Anritsu_Keithley2400.py:138-143 | the data file is closed, then Vg goes to 0, raising AttributeError when the source was never assigned |
| Cascade.StepRecords | P13pt/mascril/modules/cascade2600_panhui.py:55-79 | a step's row records the Vg it set, the fixed Vds, the four read-backs, and Rds = Vds/Ids from the set (not measured) drain voltage |
| Cascade.PlanSweeps | P13pt/mascril/modules/cascade2600_panhui.py:49-83 | without a quit request or a failure Vds is set once before the loop and never again, Vg takes the values in list order, one row per value |
| Cascade.Measurement.constructor | P13pt/mascril/modules/cascade2600_panhui.py:10-24 | a fresh measurement with the script's observables and alarm, nothing open or recorded |
| Cascade.Measurement.MeasurePoint | P13pt/mascril/modules/cascade2600_panhui.py:55-83 | a point sets Vg and saves its row, or raises "float division by zero" after setting Vg when Ids reads 0 |
| Cascade.Measurement.Step | P13pt/mascril/modules/cascade2600_panhui.py:51-83 | stops at the quit check exactly when quit was requested, fails exactly when computing Rds raises, and otherwise completes the point |
| Cascade.Measurement.Sweep | P13pt/mascril/modules/cascade2600_panhui.py:50-83 | every point, or the points before the first stop or failure, which happens at no earlier point; with no stop pressed it never stops |
| Cascade.Measurement.Acquire | P13pt/mascril/modules/cascade2600_panhui.py:49-83 | Vds once, then the Vg loop; when no Ids reads 0 it does not fail |
| Cascade.Measurement.Measure | P13pt/mascril/modules/cascade2600_panhui.py:26-88 | a failing set-up or an unclosed data file fails with nothing recorded; otherwise the data file is opened and the run completes, stops at a quit check, or fails on a zero current |
| Cascade.Measurement.TidyUp | P13pt/mascril/modules/cascade2600_panhui.py:90-96 | the data file is closed, then Vds and Vg go to 0 in order up to the first source never assigned |
| LeakDetect.PointRecords | P13pt/mascril/modules/MesureCapacitor_Anritsu_Keithley2400_leakdetect.py:107-118 | a point's row records the Vg it set and both readings |
| LeakDetect.Next | P13pt/mascril/modules/MesureCapacitor_Anritsu_Keithley2400_leakdetect.py:150-165 | one iteration: Vg moves by one rounded step; beyond ±Vmax nothing is measured and the direction flips; otherwise a point is measured and a leak flips the direction unless Vg is on the far side of 0; `back_to_zero` is set when turning while going down below 0; the loop ends only at Vg ≈ 0 with `back_to_zero` set |
| LeakDetect.MoveSets | P13pt/mascril/modules/MesureCapacitor_Anritsu_Keithley2400_leakdetect.py:150-157 | an iteration sets the new Vg only when it lies within ±Vmax |
| LeakDetect.WalkWithinVmax | P13pt/mascril/modules/MesureCapacitor_Anritsu_Keithley2400_leakdetect.py:151-157 | no voltage beyond ±Vmax is ever set during the sweep |
| LeakDetect.IterationSets | P13pt/mascril/modules/MesureCapacitor_Anritsu_Keithley2400_leakdetect.py:147-157 | the voltages set by an iteration follow those set before it |
| LeakDetect.WalkPoints | P13pt/mascril/modules/MesureCapacitor_Anritsu_Keithley2400_leakdetect.py:139-157 | Vg is set once per point measured after the first: the points counter keeps count |
| LeakDetect.BackToZeroKept | P13pt/mascril/modules/MesureCapacitor_Anritsu_Keithley2400_leakdetect.py:145-162 | once set, `back_to_zero` stays set |
| LeakDetect.Measurement.constructor | P13pt/mascril/modules/MesureCapacitor_Anritsu_Keithley2400_leakdetect.py:20-37 | a fresh measurement with the script's observables and no alarm, nothing open or recorded |
| LeakDetect.Measurement.MeasurePoint | P13pt/mascril/modules/MesureCapacitor_Anritsu_Keithley2400_leakdetect.py:107-136 | `measure_point` sets Vg, saves the row and the spectrum, and answers whether the leak current exceeds the threshold |
| LeakDetect.Measurement.Advance | P13pt/mascril/modules/MesureCapacitor_Anritsu_Keithley2400_leakdetect.py:150-165 | one iteration past its quit check yields exactly `Next`'s state, events and break |
| LeakDetect.Measurement.Step | P13pt/mascril/modules/MesureCapacitor_Anritsu_Keithley2400_leakdetect.py:148-165 | the quit check stops exactly when quit was requested; otherwise iteration i runs as `Next` from the state the first i left |
| LeakDetect.Measurement.Sweep | P13pt/mascril/modules/MesureCapacitor_Anritsu_Keithley2400_leakdetect.py:147-165 | the loop ends stopped at a quit check after n iterations, or completed by the break at Vg ≈ 0 with `back_to_zero` set, having run exactly the iterations `Next` prescribes |
| LeakDetect.Measurement.Acquire | P13pt/mascril/modules/MesureCapacitor_Anritsu_Keithley2400_leakdetect.py:97-169 | the VNA dump and the first point at the start voltage, then "select valid direction 1. or -1." for a bad direction, an OverflowError for a zero step (even without sweeping), or the sweep when requested |
| LeakDetect.Measurement.Start | P13pt/mascril/modules/MesureCapacitor_Anritsu_Keithley2400_leakdetect.py:90-169 | the spectra folder is created, the data file opened (or the unclosed-file exception raised), then the acquisition with its direction and zero-step failures |
| LeakDetect.Measurement.Measure | P13pt/mascril/modules/MesureCapacitor_Anritsu_Keithley2400_leakdetect.py:39-169 | a failing set-up or VNA check fails with nothing recorded; otherwise the data file is opened and the first point follows, then the bad-direction or zero-step failure or the sweep |
| LeakDetect.Measurement.TidyUp | P13pt/mascril/modules/MesureCapacitor_Anritsu_Keithley2400_leakdetect.py:171-176 | the data file is closed, then Vg goes to 0, raising AttributeError when the source was never assigned |
| Lockin2Gates.StepVoltages | P13pt/mascril/modules/lockin2gates.py:68-91 | a step's row records the two gate voltages set, the lock-in amplitude as Vds, and the four readings |
| Lockin2Gates.StepDerived | P13pt/mascril/modules/lockin2gates.py:86-88 | the row's leak currents through Rg1 and Rg2 and the series resistance against the lock-in amplitude, inf/nan for a zero denominator |
| Lockin2Gates.InnerPicks | P13pt/mascril/modules/lockin2gates.py:71-91 | the Vg1 loop sends the Vg1 values in order to sourceVg1 and nothing elsewhere, with one row and one quit check per value |
| Lockin2Gates.OuterPicks | P13pt/mascril/modules/lockin2gates.py:69-91 | a Vg2 iteration sends Vg2 once, then the Vg1 values in order, and saves one row per Vg1 value |
| Lockin2Gates.PlanSets | P13pt/mascril/modules/lockin2gates.py:69-75 | without a quit request sourceVg1 runs through Vg1s once per Vg2 value and sourceVg2 through Vg2s once; `commongate` changes nothing; no other instrument is set (also line 15) |
| Lockin2Gates.PlanRows | P13pt/mascril/modules/lockin2gates.py:69-91 | without a quit request one row per (Vg2, Vg1) pair, Vg2 outer, |Vg2s|·|Vg1s| in all, each step preceded by one quit check |
| Lockin2Gates.PlanFile | P13pt/mascril/modules/lockin2gates.py:65-91 | after a complete sweep the data file holds its earlier lines, the header and the |Vg2s|·|Vg1s| rows in loop order |
| Lockin2Gates.Measurement.constructor | P13pt/mascril/modules/lockin2gates.py:11-31 | a fresh measurement with the script's observables and alarms, nothing open or recorded |
| Lockin2Gates.Measurement.MeasurePoint | P13pt/mascril/modules/lockin2gates.py:75-91 | Vg1 is set, then the step's row is saved and its alarms checked |
| Lockin2Gates.Measurement.Step | P13pt/mascril/modules/lockin2gates.py:72-91 | the quit check stops exactly when quit was requested; otherwise the point follows |
| Lockin2Gates.Measurement.SweepVg1 | P13pt/mascril/modules/lockin2gates.py:71-91 | all Vg1 steps, or those before the first quit check seeing the flag |
| Lockin2Gates.Measurement.StepVg2 | P13pt/mascril/modules/lockin2gates.py:69-91 | Vg2, then the Vg1 loop or its stopped prefix |
| Lockin2Gates.Measurement.Sweep | P13pt/mascril/modules/lockin2gates.py:69-91 | the whole plan, or everything up to the stopping quit check; with no stop pressed it completes |
| Lockin2Gates.Measurement.Measure | P13pt/mascril/modules/lockin2gates.py:33-95 | a failing set-up fails with nothing recorded; otherwise the settings file `ZIsettings/<timestamp>.ZIsettings.txt` is written first, then an unclosed data file raises, else the data file `<timestamp>.txt` (no comment in the name) is opened and the two loops run to completion or to a quit check; without quit they complete |
| Lockin2Gates.Measurement.TidyUp | P13pt/mascril/modules/lockin2gates.py:97-105 | the data file is closed, Vg1 then Vg2 go to 0, then the lock-in's own clean-up; the first source or lock-in never assigned raises AttributeError and ends it there |
| NewProber.UniquePowersCount | P13pt/mascril/modules/vna_capa_RohdeSchwarz_newprober.py:89-92 | for a non-empty power column `np.unique` has more than one element exactly when some segment's power differs from the first, and is `{first}` otherwise |
| NewProber.PowerCheck | P13pt/mascril/modules/vna_capa_RohdeSchwarz_newprober.py:82-100 | the VNA checks pass exactly when correction is on, the sweep is SEGM, the segment powers are one value, no attenuator is automatic and both attenuations agree; the reported power is every segment's power minus the attenuation; otherwise one of the script's errors |
| NewProber.RunTitleParts | P13pt/mascril/modules/vna_capa_RohdeSchwarz_newprober.py:70-106 | the run's name is the timestamp, then `_pwr=<power>` with the VNA, then `_Vchuck=<voltage>` with the chuck, then `_<comment>` for a non-empty comment |
| NewProber.StepRecords | P13pt/mascril/modules/vna_capa_RohdeSchwarz_newprober.py:124-136 | a gate step binds Vg as set, the voltage read back and the leak current through Rg (`GateEnv`, also the step bindings of the power-sweep script, vna_capa_Anritsu_powersweep.py:101-113) |
| NewProber.PlanRows | P13pt/mascril/modules/vna_capa_RohdeSchwarz_newprober.py:116-136 | without a quit request Vg takes the values in list order, one row per value |
| NewProber.PlanSpectra | P13pt/mascril/modules/vna_capa_RohdeSchwarz_newprober.py:138-152 | without a quit request and with the VNA exactly one spectrum per row, tagged with its Vg; none without the VNA |
| NewProber.PlanFile | P13pt/mascril/modules/vna_capa_RohdeSchwarz_newprober.py:107-136 | after a complete sweep the data file holds its earlier lines, the header and one row per Vg value, in order |
| NewProber.Measurement.constructor | P13pt/mascril/modules/vna_capa_RohdeSchwarz_newprober.py:26-42 | a fresh measurement with the script's observables and alarm, nothing open or recorded |
| NewProber.Measurement.MeasurePoint | P13pt/mascril/modules/vna_capa_RohdeSchwarz_newprober.py:121-152 | a point sets Vg, saves its row and, with the VNA, one spectrum; the quit flag is untouched |
| NewProber.Measurement.Step | P13pt/mascril/modules/vna_capa_RohdeSchwarz_newprober.py:116-152 | the quit check stops exactly when quit was requested; otherwise the point follows |
| NewProber.Measurement.Sweep | P13pt/mascril/modules/vna_capa_RohdeSchwarz_newprober.py:116-152 | every point, or the points before the first quit check seeing the flag; with no stop pressed it completes |
| NewProber.Measurement.Acquire | P13pt/mascril/modules/vna_capa_RohdeSchwarz_newprober.py:109-152 | once the data file is open: the spectra folder and VNA configuration with the VNA, then the Vg loop; it never fails |
| NewProber.Measurement.Measure | P13pt/mascril/modules/vna_capa_RohdeSchwarz_newprober.py:44-156 | a failing set-up, a failing VNA check or an unclosed data file fails with nothing recorded; otherwise the data file `<name>.txt` is opened and the run completes the plan or stops at a quit check; without quit it completes |
| NewProber.Measurement.TidyUp | P13pt/mascril/modules/vna_capa_RohdeSchwarz_newprober.py:158-162 | without the VNA reading `self.vna` raises AttributeError and nothing is closed; with it the VNA is closed, then the data file, then Vg goes to 0 (AttributeError if the source was never assigned) |
| PowerSweep.TunesAll | P13pt/mascril/modules/vna_capa_Anritsu_powersweep.py:126-129 | tuning n segments writes the power to port 1 then port 2 of segments 1 to n, in order, 2n writes and nothing else |
| PowerSweep.PowerPassPicks | P13pt/mascril/modules/vna_capa_Anritsu_powersweep.py:117-145 | a power step has one quit check, no row, no gate set-point and one spectrum tagged with Vg and the power |
| PowerSweep.PowerLoopPicks | P13pt/mascril/modules/vna_capa_Anritsu_powersweep.py:117-145 | a whole power sweep has one quit check per power, no row, no gate set-point, and the spectra tagged with Vg and each power in list order |
| PowerSweep.PassPicks | P13pt/mascril/modules/vna_capa_Anritsu_powersweep.py:97-145 | a gate step has one set-point and one row and, with the VNA only, one quit check and one spectrum per power |
| PowerSweep.PlanRows | P13pt/mascril/modules/vna_capa_Anritsu_powersweep.py:97-113 | without a quit request Vg takes the values in list order, one row per value |
| PowerSweep.PlanSpectra | P13pt/mascril/modules/vna_capa_Anritsu_powersweep.py:97-145 | without a quit request and with the VNA one spectrum per (Vg, power) pair, Vg outer, |Vgs|·|pwrs| in all; none without the VNA |
| PowerSweep.NeverPolled | P13pt/mascril/modules/vna_capa_Anritsu_powersweep.py:115-120 | without the VNA the quit flag is never read, so the gate loop cannot be stopped |
| PowerSweep.PlanFile | P13pt/mascril/modules/vna_capa_Anritsu_powersweep.py:84-113 | after a complete sweep the data file holds its earlier lines, the header and one row per Vg value, in order |
| PowerSweep.Measurement.constructor | P13pt/mascril/modules/vna_capa_Anritsu_powersweep.py:21-39 | a fresh measurement with the script's observables and alarm, nothing open or recorded |
| PowerSweep.Measurement.Tune | P13pt/mascril/modules/vna_capa_Anritsu_powersweep.py:125-129 | the segment loop's writes are exactly `Tunes` of the segment count and power |
| PowerSweep.Measurement.PowerStep | P13pt/mascril/modules/vna_capa_Anritsu_powersweep.py:117-145 | the quit check stops exactly when quit was requested; otherwise the segments are tuned to the power plus the source attenuation and the spectrum follows |
| PowerSweep.Measurement.PowerSweep | P13pt/mascril/modules/vna_capa_Anritsu_powersweep.py:117-145 | every power step, or those before the first quit check seeing the flag; with no stop pressed it completes |
| PowerSweep.Measurement.MeasurePoint | P13pt/mascril/modules/vna_capa_Anritsu_powersweep.py:99-113 | Vg is set, then the row is saved and its alarms checked; the quit flag is untouched |
| PowerSweep.Measurement.Step | P13pt/mascril/modules/vna_capa_Anritsu_powersweep.py:97-145 | the point, then with the VNA the power sweep or its stopped prefix |
| PowerSweep.Measurement.Sweep | P13pt/mascril/modules/vna_capa_Anritsu_powersweep.py:97-145 | every gate step, or everything up to the quit check (gate step k, power j) that saw the flag; with no stop pressed it completes |
| PowerSweep.Measurement.Measure | P13pt/mascril/modules/vna_capa_Anritsu_powersweep.py:41-149 | a failing set-up or unequal source attenuators raise with nothing recorded; an unclosed data file raises; otherwise the data file is opened, then with the VNA the spectra folder is made and a non-FSEGM sweep raises, and the run completes or stops at a quit check; without the VNA it always completes |
| PowerSweep.Measurement.TidyUp | P13pt/mascril/modules/vna_capa_Anritsu_powersweep.py:151-154 | the data file is closed, then Vg goes to 0, raising AttributeError when the source was never assigned |
| Vna1Gate.StepRecords | P13pt/mascril/modules/vna1gate.py:80-94 | a step that reaches `save_row` records the Vg it set, the fixed Vds, both readings, the leak current through Rg and the series resistance Rds·Vdsm/(Vds−Vdsm) |
| Vna1Gate.PassPicks | P13pt/mascril/modules/vna1gate.py:73-102 | a completed step sets Vg once and nothing else, saves one row and one spectrum tagged with Vg and Vds |
| Vna1Gate.PlanSets | P13pt/mascril/modules/vna1gate.py:71-80 | without a quit request Vds is set once, before the loop, and never again, and Vg takes the values in list order |
| Vna1Gate.PlanRows | P13pt/mascril/modules/vna1gate.py:72-102 | without a quit request one row per Vg value, in order, each followed by one spectrum tagged with that Vg and Vds |
| Vna1Gate.PlanFile | P13pt/mascril/modules/vna1gate.py:60-94 | after a complete sweep the data file holds its earlier lines, the header and one row per Vg value, in order |
| Vna1Gate.Measurement.constructor | P13pt/mascril/modules/vna1gate.py:12-27 | a fresh measurement with the script's observables and alarm, nothing open or recorded |
| Vna1Gate.Measurement.MeasurePoint | P13pt/mascril/modules/vna1gate.py:77-102 | Vg is set; when Vds equals the Vds reading the Python float division raises ZeroDivisionError before the row; otherwise the row, its alarms and the spectrum follow |
| Vna1Gate.Measurement.Step | P13pt/mascril/modules/vna1gate.py:73-102 | the step stops at the quit check exactly when quit was requested, fails exactly when it passes the check and Rs divides by zero, and completes otherwise |
| Vna1Gate.Measurement.Sweep | P13pt/mascril/modules/vna1gate.py:72-102 | the loop completes, stops at the first quit check seeing the flag, or fails at the first step whose Rs divides by zero, with everything before it recorded |
| Vna1Gate.Measurement.Acquire | P13pt/mascril/modules/vna1gate.py:63-102 | once the data file is open: the spectra folder, Vds, then the loop; without stop and without a zero denominator it completes |
| Vna1Gate.Measurement.Measure | P13pt/mascril/modules/vna1gate.py:29-106 | a failing set-up or an unclosed data file fails with nothing recorded; otherwise the data file `<timestamp>[_<comment>].txt` is opened and the run completes, stops at a quit check, or fails with ZeroDivisionError at the first step where Vds equals its reading |
| Vna1Gate.Measurement.TidyUp | P13pt/mascril/modules/vna1gate.py:108-114 | the data file is closed, then Vg and Vds go to 0 in that order, raising AttributeError at the first source never assigned |
| Vna2Gates.StepRecords | P13pt/mascril/modules/vna2gates.py:97-116 | a step's row records Vg1, Vg2 (Vg1 itself under commongate), Vds, the two readings, both temperatures, the leak current through Rg2 and the series resistance from Rds |
| Vna2Gates.PassPicks | P13pt/mascril/modules/vna2gates.py:94-125 | a step sends Vg1 to sourceVg1, and to sourceVg2 too under commongate, and nothing elsewhere; saves one row; writes one spectrum tagged Vg1, Vg2, Vds with the VNA and none without |
| Vna2Gates.InnerPicks | P13pt/mascril/modules/vna2gates.py:93-125 | the Vg1 loop sends the Vg1 values in order to the sources that follow Vg1, one row and, with the VNA, one spectrum per value |
| Vna2Gates.MiddleLoopPicks | P13pt/mascril/modules/vna2gates.py:90-125 | the Vg2 loop of one Vds iteration saves |Vg2s|·|Vg1s| rows (as many spectra with the VNA); sourceVg2 gets each Vg2 value before its Vg1 loop unless commongate |
| Vna2Gates.OuterPicks | P13pt/mascril/modules/vna2gates.py:88-125 | a Vds iteration sends its Vds once, then the Vg2 loop, and saves |Vg2s|·|Vg1s| rows |
| Vna2Gates.PlanSets | P13pt/mascril/modules/vna2gates.py:88-100 | without a quit request each Vds value is sent once in order; the sources that follow Vg1 run through Vg1s once per (Vds, Vg2) pair; sourceVg2 otherwise runs through Vg2s once per Vds and under commongate never receives a Vg2 value |
| Vna2Gates.PlanRows | P13pt/mascril/modules/vna2gates.py:88-116 | without a quit request the three loops save |Vdss|·|Vg2s|·|Vg1s| rows |
| Vna2Gates.PlanSpectra | P13pt/mascril/modules/vna2gates.py:119-125 | without a quit request and with the VNA one spectrum per row; none without the VNA |
| Vna2Gates.PlanFile | P13pt/mascril/modules/vna2gates.py:88-116 | after a complete sweep the data file holds its earlier lines, the header and |Vdss|·|Vg2s|·|Vg1s| rows, one per step in loop order (also lines 75-76) |
| Vna2Gates.Measurement.constructor | P13pt/mascril/modules/vna2gates.py:14-34 | a fresh measurement with the script's observables and alarms, nothing open or recorded |
| Vna2Gates.Measurement.MeasurePoint | P13pt/mascril/modules/vna2gates.py:97-125 | Vg1 (and Vg2 under commongate) is set, then the row, its alarms and with the VNA the spectrum; the quit flag is untouched |
| Vna2Gates.Measurement.Step | P13pt/mascril/modules/vna2gates.py:93-125 | the quit check stops exactly when quit was requested; otherwise the point follows |
| Vna2Gates.Measurement.SweepVg1 | P13pt/mascril/modules/vna2gates.py:93-125 | all Vg1 steps, or those before the first quit check seeing the flag |
| Vna2Gates.Measurement.StepVg2 | P13pt/mascril/modules/vna2gates.py:90-125 | Vg2 unless commongate, then the Vg1 loop or its stopped prefix |
| Vna2Gates.Measurement.SweepVg2 | P13pt/mascril/modules/vna2gates.py:90-125 | all Vg2 iterations of one Vds value, or everything up to the stopping quit check |
| Vna2Gates.Measurement.StepVds | P13pt/mascril/modules/vna2gates.py:88-125 | Vds, then the Vg2 loop or its stopped prefix |
| Vna2Gates.Measurement.Sweep | P13pt/mascril/modules/vna2gates.py:88-125 | the whole plan, or everything up to the quit check at (Vds, Vg2, Vg1) step that saw the flag; with no stop pressed it completes |
| Vna2Gates.Measurement.Acquire | P13pt/mascril/modules/vna2gates.py:79-125 | once the data file is open: the spectra folder with the VNA, then the three loops to completion or a quit check |
| Vna2Gates.Measurement.Measure | P13pt/mascril/modules/vna2gates.py:36-129 | a failing set-up or an unclosed data file fails with nothing recorded; otherwise the data file `<timestamp>[_<comment>].txt` is opened and the run completes or stops at a quit check; without quit it completes |
| Vna2Gates.Measurement.TidyUp | P13pt/mascril/modules/vna2gates.py:131-138 | the data file is closed, then Vds, Vg1 and Vg2 go to 0 in that order, raising AttributeError at the first source never assigned |
| MesureTransitorUniversel.SourceKinds | P13pt/mascril/modules/MesureTransitorUniversel.py:376-391 | each offered Vds or Vg choice is exactly one of a Keithley (measuring its own current) and a Bilt channel (read back on its voltmeter) (also lines 50, 54) |
| MesureTransitorUniversel.AnritsuCaptureNeverRuns | P13pt/mascril/modules/MesureTransitorUniversel.py:529 | the loops test `src_vna == 'Anritsu'`, a value the VNA selector does not offer, so that spectrum capture never runs (also lines 62, 429) |
| MesureTransitorUniversel.BiltChannelsOfPort | P13pt/mascril/modules/MesureTransitorUniversel.py:124-135 | splitting `Bilt_k` gives port k, and the source and voltmeter positions are the station's prefixes followed by k (I/I5;C on JANIS, I3;C/I1;C on Cascade) (also lines 225-233) |
| MesureTransitorUniversel.ConstructionsHaveSources | P13pt/mascril/modules/MesureTransitorUniversel.py:168-239 | the set-up assigns sourceVg and sourceVds whenever their choice is a Keithley or a Bilt channel, and sourceVchuck exactly for the Yokogawa and the Keithleys |
| MesureTransitorUniversel.ClockRunsOut | P13pt/mascril/modules/MesureTransitorUniversel.py:337-340 | the expected duration is the point count times the per-step decrement, so after the last point nothing remains; after n points the progress is n·100/points (also lines 439-440) |
| MesureTransitorUniversel.StepVoltages | P13pt/mascril/modules/MesureTransitorUniversel.py:355-405 | a row records the Vchuck, Vds and Vg of its step, the total duration, the remaining time and the progress |
| MesureTransitorUniversel.StepReadbacks | P13pt/mascril/modules/MesureTransitorUniversel.py:376-391 | a row binds Vdsm and Rs exactly with a Bilt drain and Vgm exactly with a Bilt gate, each the reading of that step |
| MesureTransitorUniversel.StepCurrents | P13pt/mascril/modules/MesureTransitorUniversel.py:376-393 | with a Bilt drain Rs = Rds·Vdsm/(Vds−Vdsm) and Ids = Vds/Rs, with a Keithley Ids is its reading; with a Bilt gate Ileak = (Vg−Vgm)/Rg, with a Keithley its reading; pwr = Vds·Ids/WxL, in numpy arithmetic |
| MesureTransitorUniversel.StartRow | P13pt/mascril/modules/MesureTransitorUniversel.py:337-345 | the row of `give_time` and `initialise_instruments` has every measured column empty and only the duration, remaining time (the duration) and progress 0 |
| MesureTransitorUniversel.LimiterRules | P13pt/mascril/modules/MesureTransitorUniversel.py:453-460 | the first Vds of each Vg estimates power 0; a power above the limit skips the point, one below measures it, one equal to the limit or nan keeps the previous decision |
| MesureTransitorUniversel.SkippedPoint | P13pt/mascril/modules/MesureTransitorUniversel.py:457-540 | a point the limiter skips sends no Vds, has no quit check and saves no row: only the ZVA67 spectrum and the clock; it raises exactly when the duration is 0 |
| MesureTransitorUniversel.MeasuredPoint | P13pt/mascril/modules/MesureTransitorUniversel.py:462-540 | a point the limiter lets through, without a stop and with a Bilt gate, sends Vds, checks quit, saves one row and the spectrum, and keeps that step's Ids for the next estimate |
| MesureTransitorUniversel.KeithleyGateRaises | P13pt/mascril/modules/MesureTransitorUniversel.py:483-506 | with a Keithley gate the leak is recomputed from a Vgm never read: the first point of a Vg, let through whenever the limit is positive, raises UnboundLocalError after its quit check and saves no row |
| MesureTransitorUniversel.VgInnerSteady | P13pt/mascril/modules/MesureTransitorUniversel.py:364-440 | without a stop and with a non-zero duration every Vg step of `fix_Vds_sweep_Vg` keeps running and saves exactly one row |
| MesureTransitorUniversel.VdsOuterSteady | P13pt/mascril/modules/MesureTransitorUniversel.py:360-440 | under the same conditions every Vds iteration of `fix_Vds_sweep_Vg` saves |Vgs| rows |
| MesureTransitorUniversel.ChucksSteady | P13pt/mascril/modules/MesureTransitorUniversel.py:355-440 | under the same conditions every Vchuck iteration of `fix_Vds_sweep_Vg` saves |Vdss|·|Vgs| rows |
| MesureTransitorUniversel.FixVdsRows | P13pt/mascril/modules/MesureTransitorUniversel.py:355-440 | `fix_Vds_sweep_Vg` without a stop and with a non-zero duration completes, saving |Vchucks|·|Vdss|·|Vgs| rows and counting as many clock steps |
| MesureTransitorUniversel.ZeroDurationRaises | P13pt/mascril/modules/MesureTransitorUniversel.py:439-440 | with a zero expected duration the first step that reaches the clock saves its row and then raises ZeroDivisionError computing the progress (also lines 337, 405) |
| MesureTransitorUniversel.Measurement.constructor | P13pt/mascril/modules/MesureTransitorUniversel.py:48-83 | a fresh measurement with the script's observables and alarms, nothing open or recorded |
| MesureTransitorUniversel.Measurement.MeasurePoint | P13pt/mascril/modules/MesureTransitorUniversel.py:376-405 | the row of the step and its alarms are recorded, and the step's Ids is returned |
| MesureTransitorUniversel.Measurement.Finish | P13pt/mascril/modules/MesureTransitorUniversel.py:411-440 | the ZVA67 spectrum, then one clock step, or ZeroDivisionError computing the progress when the expected duration is 0 |
| MesureTransitorUniversel.Measurement.GateStepAt | P13pt/mascril/modules/MesureTransitorUniversel.py:364-440 | one Vg step of `fix_Vds_sweep_Vg` does exactly the plan's pass |
| MesureTransitorUniversel.Measurement.GateSweep | P13pt/mascril/modules/MesureTransitorUniversel.py:364-440 | the Vg loop of `fix_Vds_sweep_Vg` does exactly the plan's iteration |
| MesureTransitorUniversel.Measurement.DrainIterationAt | P13pt/mascril/modules/MesureTransitorUniversel.py:360-440 | one Vds iteration of `fix_Vds_sweep_Vg`: Vds, then the Vg loop, as planned |
| MesureTransitorUniversel.Measurement.DrainLoop | P13pt/mascril/modules/MesureTransitorUniversel.py:360-440 | the Vds loop of `fix_Vds_sweep_Vg` does exactly the plan's iteration |
| MesureTransitorUniversel.Measurement.Limit | P13pt/mascril/modules/MesureTransitorUniversel.py:453-462 | the limiter's decision, or UnboundLocalError when Ids was never measured or when no decision was ever made and the estimate equals the limit or is nan |
| MesureTransitorUniversel.Measurement.MeasureAt | P13pt/mascril/modules/MesureTransitorUniversel.py:464-507 | a point the limiter lets through does exactly the plan's measured point |
| MesureTransitorUniversel.Measurement.DrainStepAt | P13pt/mascril/modules/MesureTransitorUniversel.py:450-542 | one Vds step of `fix_Vg_sweep_Vds` does exactly the plan's pass, measured or skipped |
| MesureTransitorUniversel.Measurement.DrainSweep | P13pt/mascril/modules/MesureTransitorUniversel.py:450-542 | the Vds loop of `fix_Vg_sweep_Vds` does exactly the plan's iteration |
| MesureTransitorUniversel.Measurement.GateIterationAt | P13pt/mascril/modules/MesureTransitorUniversel.py:444-542 | one Vg iteration of `fix_Vg_sweep_Vds`: Vg, `first_pass`, then the Vds loop, as planned |
| MesureTransitorUniversel.Measurement.GateLoop | P13pt/mascril/modules/MesureTransitorUniversel.py:444-542 | the Vg loop of `fix_Vg_sweep_Vds` does exactly the plan's iteration |
| MesureTransitorUniversel.Measurement.ChuckIterationAt | P13pt/mascril/modules/MesureTransitorUniversel.py:355-542 | one Vchuck iteration: the chuck voltage unless the chuck source is None, then the sweep type's loops |
| MesureTransitorUniversel.Measurement.ChuckLoop | P13pt/mascril/modules/MesureTransitorUniversel.py:355-542 | the loops do exactly `Loops`, ending running, at a quit check with the flag set, or raising |
| MesureTransitorUniversel.Measurement.Acquire | P13pt/mascril/modules/MesureTransitorUniversel.py:324-548 | once the data file is open: the spectra folder (twice and the segment table for the ZVA67), then one clock-only row for `give_time` and `initialise_instruments`, the loops otherwise |
| MesureTransitorUniversel.Measurement.Measure | P13pt/mascril/modules/MesureTransitorUniversel.py:85-548 | station None raises the bare `raise` with nothing done; a failing set-up or VNA check raises with nothing recorded; otherwise the data file `<timestamp>[_pwr=..][_T=..][_<comment>].txt` is opened and the acquisition follows |
| MesureTransitorUniversel.Measurement.Title | P13pt/mascril/modules/MesureTransitorUniversel.py:242-318 | the checked VNA's error, or the run's name with the power and temperature tags |
| MesureTransitorUniversel.Measurement.TidyUp | P13pt/mascril/modules/MesureTransitorUniversel.py:550-557 | the data file is closed, then Vds and Vg go to 0 (AttributeError at the first never assigned), then the chuck source when it holds an instrument |
| RfSpectrum.Reorder | P13pt/rfspectrum.py:205-208 | nine fields keep f, S11 and S22 in place and swap the S12 pair (fields 3-4) with the S21 pair (fields 5-6) |
| RfSpectrum.ReorderInvolution | P13pt/rfspectrum.py:207-208 | applying the reordering twice restores the original fields |
| RfSpectrum.ConvertLine | P13pt/rfspectrum.py:202-209 | a line is rejected with "Invalid number of columns" exactly when its stripped text does not split on single spaces into nine fields |
| RfSpectrum.ConvertLineTwice | P13pt/rfspectrum.py:202-209 | converting a converted line gives back the original line, stripped: the conversion is its own inverse on the lines it accepts |
| RfSpectrum.ConvertToTouchstone | P13pt/rfspectrum.py:178-210 | the loop writes exactly what `Converted` says: the header, then the converted lines, stopping at the first line that raises |
| RfSpectrum.ConvertedStops | P13pt/rfspectrum.py:201-204 | once a line has raised, the later lines change nothing |
| RfSpectrum.ConvertedLines | P13pt/rfspectrum.py:197-210 | the new file starts with `# hz s ri r 50`; without an exception it holds one converted line per input line; otherwise it stops right before the first line without nine fields, every earlier line converted |
| RfSpectrum.Classify | P13pt/rfspectrum.py:47-72 | an empty extension raises IndexError; exactly the `dat` extension is read as a table without its first row; `s<int>p` goes to skrf; the rest are read as tables |
| RfSpectrum.ExtensionAfterLastDot | P13pt/rfspectrum.py:49 | the extension of `stem.e` (e without a dot) is e lower-cased |
| RfSpectrum.ExtensionHasNoDot | P13pt/rfspectrum.py:49-58 | an extension never holds a dot, so the test against `.ntwk` and `.p` can never succeed |
| RfSpectrum.TouchstoneByExtension | P13pt/rfspectrum.py:47-55 | `name.s2p`, `name.S4P` and the like go to skrf |
| RfSpectrum.TablesByExtension | P13pt/rfspectrum.py:57-76 | as written, `.ntwk` and `.p` files are read as P13 tables, and `.dat`/`.DAT` tables lose their first row |
| RfSpectrum.ClassifyIntended | P13pt/rfspectrum.py:57-59 | as the pickle test intends: `ntwk` and `p` extensions go to skrf; empty extensions still raise and only `dat` drops a header row |
| RfSpectrum.IntendedPicklesToSkrf | P13pt/rfspectrum.py:57-59 | the intended classifier sends pickles to skrf where the code reads them as tables, and agrees with the code on every other extension |
| RfSpectrum.Kept | P13pt/rfspectrum.py:72-76 | a `.dat` table loses its first row, any other keeps all rows |
| RfSpectrum.Network.constructor | P13pt/rfspectrum.py:95 | an empty network: the given z0, no parameters, no reader, no frequencies or S matrices (also lines 38, 66) |
| RfSpectrum.Network.Fill | P13pt/rfspectrum.py:81-91 | one frequency and one S matrix per table row: f from column 0, S11, S12, S21, S22 from the real/imaginary column pairs 1-2, 3-4, 5-6, 7-8 |
| RfSpectrum.Open | P13pt/rfspectrum.py:37-99 | the constructor fails exactly for a file with an empty extension or a table whose kept rows are not nine columns wide ("Invalid number of columnns"); otherwise the parameters are those parsed from the file name overridden by the given ones, and a table file's rows fill f and S in order |
| RfSpectrum.ExplicitParamsWin | P13pt/rfspectrum.py:97-99 | a parameter given to the constructor overrides the one parsed from the file name; the others are kept; no key is lost or invented (also line 42) |
| SpectrumFitter.RemoveFirst | P13pt/spectrumfitter/spectrumfitter.py:337-338 | `remove` takes one copy of a present name out (one entry fewer, every other entry kept) and leaves a list without the name unchanged |
| SpectrumFitter.RemoveFirstKeepsOrder | P13pt/spectrumfitter/spectrumfitter.py:337-338 | what `remove` leaves is the old list with one entry left out, the others in their old order |
| SpectrumFitter.RemoveFirstDistinct | P13pt/spectrumfitter/spectrumfitter.py:337-338 | on a list without duplicates, removing a name leaves a list without duplicates that no longer holds the name |
| SpectrumFitter.RecentIsMostRecentFirst | P13pt/spectrumfitter/spectrumfitter.py:336-341 | after a save or load the session heads the recent list and appears once; the list holds at most five distinct sessions, the others in their old order |
| SpectrumFitter.RecentIdempotent | P13pt/spectrumfitter/spectrumfitter.py:336-341 | saving the session that already heads the list leaves the list unchanged |
| SpectrumFitter.RecentKeepsNewest | P13pt/spectrumfitter/spectrumfitter.py:336-341 | an older session stays in the list while fewer than four other sessions are newer than it |
| SpectrumFitter.Insert | P13pt/spectrumfitter/spectrumfitter.py:222 | inserting a name into a sorted list adds exactly that name and keeps the length one larger |
| SpectrumFitter.Sort | P13pt/spectrumfitter/spectrumfitter.py:222 | `sorted` returns a rearrangement of its input: the same names with the same multiplicities |
| SpectrumFitter.SortSorted | P13pt/spectrumfitter/spectrumfitter.py:222 | the result of `sorted` is in Python string order |
| SpectrumFitter.SortedUnique | P13pt/spectrumfitter/spectrumfitter.py:222 | two sorted lists of the same names are equal, so the sorted order is unique |
| SpectrumFitter.SortKeepsNames | P13pt/spectrumfitter/spectrumfitter.py:222-223 | a name is in the sorted file list exactly when the fitter holds results for it |
| SpectrumFitter.SortIsSorted | P13pt/spectrumfitter/spectrumfitter.py:222-223 | the rows come in sorted file-name order, one per fitted file, whatever order the fitter stored them in |
| SpectrumFitter.Toggled | P13pt/spectrumfitter/spectrumfitter.py:133-137 | magnitude/phase turns into real/imaginary and every other style into magnitude/phase |
| SpectrumFitter.ToggleTwice | P13pt/spectrumfitter/spectrumfitter.py:133-137 | toggling always changes the style and lands on one of the two styles; toggling either style twice gives it back |
| SpectrumFitter.Slashes | P13pt/spectrumfitter/spectrumfitter.py:194-196 | replacing backslashes keeps the length, leaves no backslash and leaves every other character in place |
| SpectrumFitter.RaLine | P13pt/spectrumfitter/spectrumfitter.py:202-207 | the `# ra:` line is written exactly when the access resistance parses to a non-zero value, and then carries that value |
| SpectrumFitter.DutLine | P13pt/spectrumfitter/spectrumfitter.py:189-196 | with exactly one DUT file the `# dut:` line names that file inside the folder, otherwise the folder, with forward slashes |
| SpectrumFitter.CellsComplete | P13pt/spectrumfitter/spectrumfitter.py:226-227 | a row's parameter cells are complete exactly when the file name has every parameter of the first DUT file; otherwise a missing one raises KeyError |
| SpectrumFitter.FitValuesInOrder | P13pt/spectrumfitter/spectrumfitter.py:228 | the fitted values come in the model's parameter order, one per parameter, and are complete exactly when every parameter has a value |
| SpectrumFitter.RowsAppend | P13pt/spectrumfitter/spectrumfitter.py:222-229 | without an exception the rows of two runs of files are the rows of the first run followed by those of the second |
| SpectrumFitter.RowOfFile | P13pt/spectrumfitter/spectrumfitter.py:222-229 | a file that raises nothing gets a row of its own starting with its name and a tab and ending with a line break |
| SpectrumFitter.MainWindow.constructor | P13pt/spectrumfitter/spectrumfitter.py:167-170 | a new window starts a new session: no session file, the "New session" title, an empty menu and nothing written (also lines 108-109) |
| SpectrumFitter.MainWindow.UpdateRecentList | P13pt/spectrumfitter/spectrumfitter.py:333-346 | with a file name the stored list becomes the most-recent-first list; without one it is unchanged; the menu always shows the list |
| SpectrumFitter.MainWindow.RebuildMenu | P13pt/spectrumfitter/spectrumfitter.py:342-346 | the menu holds one action per entry, in list order |
| SpectrumFitter.MainWindow.ToggleDisplayStyle | P13pt/spectrumfitter/spectrumfitter.py:133-138 | the plotter's display style becomes the toggled style |
| SpectrumFitter.MainWindow.SelectionChanged | P13pt/spectrumfitter/spectrumfitter.py:151-165 | a negative index changes nothing; an index in range plots the spectrum when there is one and hands that file to the fitter; an index past the end raises IndexError with the fitter untouched, before plotting when there is a spectrum (the plot is kept) and after clearing the plot otherwise |
| SpectrumFitter.MainWindow.SaveSessionAs | P13pt/spectrumfitter/spectrumfitter.py:178-236 | without a file name or with a file that cannot be opened nothing changes; otherwise the file holds the session text, and unless writing raised it becomes the session, heads the recent list and names the window |
| SpectrumFitter.MainWindow.Adopt | P13pt/spectrumfitter/spectrumfitter.py:234-236 | the saved file heads the recent list and the menu, names the window and becomes the session file |
| SpectrumFitter.WriteSession | P13pt/spectrumfitter/spectrumfitter.py:186-229 | the writes produce the header, then with a model its lines, the columns and the sorted rows; with a model and no DUT file the columns raise IndexError |
| SpectrumFitter.WriteRows | P13pt/spectrumfitter/spectrumfitter.py:222-229 | the loop writes one row per file in turn and stops at the first that raises |
| SpectrumFitter.WriteRow | P13pt/spectrumfitter/spectrumfitter.py:224-229 | a row is the name, a tab, each parameter cell and a tab, then the fitted values joined by tabs; a missing key or value stops it with the text so far |
| SscAlign.GetExtent | P13pt/sscalign/sscalign.py:249-258 | the extent is the bounding box of the four transformed outer corners: every corner lies inside it and each of its four edges is reached by some corner |
| SscAlign.ScaleFactor | P13pt/sscalign/sscalign.py:299-314 | scrolling up scales by the inverse of 1.1, scrolling down by 1.1, any other button by 1 |
| SscAlign.ZoomAboutCursor | P13pt/sscalign/sscalign.py:317-320 | zooming scales the cursor's distance to each limit and the width by the same factor, so a cursor inside the limits stays inside, and zooming in about an inner point narrows the limits |
| SscAlign.ZoomInOut | P13pt/sscalign/sscalign.py:297-320 | scrolling up and then down at the same place restores the limits |
| SscAlign.ValidPoints | P13pt/sscalign/sscalign.py:391-415 | every point used comes from a present marker whose U and V texts both parse, and there are no more points than markers |
| SscAlign.ValidPointsExactly | P13pt/sscalign/sscalign.py:391-415 | every present marker whose two texts parse is used, and the points come in marker order, each marker once |
| SscAlign.Dispatch | P13pt/sscalign/sscalign.py:417-428 | no valid marker and three or more are refused with their two warnings; exactly one translates and exactly two align with rotation |
| SscAlign.Moved | P13pt/sscalign/sscalign.py:430-433 | moving the used markers keeps the number of markers and which of them are present |
| SscAlign.Aligner.constructor | P13pt/sscalign/sscalign.py:28-34 | a new window has unit stretch, no translation or rotation and four empty marker slots |
| SscAlign.Aligner.TranslateStretchTwoPoint | P13pt/sscalign/sscalign.py:324-334 | the stretch maps the XY segment onto the UV segment component by component and the translation takes the first XY point to the first UV point |
| SscAlign.Aligner.TranslateOnePoint | P13pt/sscalign/sscalign.py:336-344 | the translation is shifted by the offset from the XY point to the UV point and nothing else changes |
| SscAlign.Aligner.Place | P13pt/sscalign/sscalign.py:160-171 | loading places the image's lower-left corner on the lower-left UV corner and fits its width to the UV width; accepting the correction of non-square pixels copies the horizontal stretch to the vertical one |
| SscAlign.Aligner.Align | P13pt/sscalign/sscalign.py:383-436 | with no or too many valid markers only the warning changes; with one the image is translated, with two it gets the rotating alignment; after either the used markers move to their UV positions |
| SscAlign.Aligner.MoveMarks | P13pt/sscalign/sscalign.py:430-433 | each used marker is moved to its UV coordinates |
| SscAlign.Aligner.OnScroll | P13pt/sscalign/sscalign.py:297-320 | both axes' limits zoom about the cursor by the button's factor |
| SscAlign.CollectPoints | P13pt/sscalign/sscalign.py:388-415 | the marker loop collects exactly the valid markers, in order |
| SscAlign.LoadedCornersLand | P13pt/sscalign/sscalign.py:160-182 | with the stretch computed at loading and no rotation, the image's origin lands on the lower-left UV corner and its far corner on the upper-right one |
| SscAlign.SquarePixelsMatch | P13pt/sscalign/sscalign.py:163-166 | equal horizontal and vertical stretches never trigger the aspect-ratio question |
| SscAlign.SplitExt | P13pt/sscalign/sscalign.py:203-214 | splitting off the extension loses nothing: root and extension put together give the name back |
| SscAlign.PlainExt | P13pt/sscalign/sscalign.py:203-214 | a plain name with one dotted suffix splits into the stem and that suffix |
| SscAlign.PlainNameGetsBmp | P13pt/sscalign/sscalign.py:203-215 | a name without extension gets `.bmp` added and its `.ssc` beside it; a name ending in `.bmp` in any case is kept and its `.ssc` replaces the extension |
| SscAlign.OtherExtensionKept | P13pt/sscalign/sscalign.py:203-215 | a name with another extension keeps it and gets `.bmp` added after it; the `.ssc` then replaces only the `.bmp` |

## Left out

- Qt widgets, dialogs, message boxes, signals and matplotlib drawing are not modelled. A dialog's answer or a chosen file name is a parameter. The plotter is not part of this model.
- The measurement thread, `terminate` and the console redirection are not modelled. They are concurrency and `sys` plumbing. `quit_requested` is a plain field, and the operator's stop button is a parameter saying at which quit check it has been pressed.
- Python's `eval` of alarm strings and sweep text is not modelled. Alarms are a small expression datatype with its own evaluator, and sweep text goes through a parameter that returns a Python value or an error.
- VISA transport, `time.sleep`, timestamps and `os.makedirs` are not modelled. Instrument replies, meter readings and timestamps enter as inputs.
- Number formatting (`str`, `'{:.6f}'`, `'%2.4f'`, `'{:.0f}'`), `float()` parsing and `np.around` are left open as parameters. So are the spectrum-file name tags built from them. The power-sweep spectrum name is modelled as its tag: it holds a literal `.format(Vg)` inside the string.
- The Rohde & Schwarz library, the ZI lock-in, the SI9700 temperature controller and the progress bar are not part of this model. What the scripts read from them are inputs, and what they send to them is recorded as opaque events.
- The Anritsu `read_registers` and `dump_freq_segments` are not modelled beyond the sweep-type guard of the latter. They only print instrument state.
- skrf's own readers, `Network.deembed_thru` and `plot_mat` in `rfspectrum.py` are not part of this model. They are matrix numerics and plotting, and the table `numpy.genfromtxt` returns is a parameter.
- The spectrum fitter's models, `load_session`, the fitter's caching and the QSettings storage are not modelled beyond the recent-sessions entry.
- `translate_rotate_stretch_twopoint` (norm, arctan2) and the PIL image rotation in `sscalign.py` are not modelled. `SscAlign.Aligner.Align` takes the rotating alignment as a parameter, and the cosine and sine of the rotation come with it.
- Strings are ASCII: `lower` and `upper` change ASCII letters only, and `strip` removes ASCII white space only. There is no Unicode case folding.
- SscAlign.Aligner.TranslateStretchTwoPoint: requires the two XY points to differ in both coordinates. There numpy would give an infinite or NaN stretch, which exact reals cannot hold.
- LeakDetect.Measurement.Sweep: takes the number of the iteration by which the operator has pressed stop. A sweep that never returns to zero and is never stopped runs forever in the source and is not modelled.
- Bilt.VoltageSource.SetVoltage: requires the status replies to contain a `1` at some point. Otherwise the source's polling loop never ends. The same holds for `Bilt.VoltageSource.Apply` and `Bilt.VoltageSource.Poll`.
- AnritsuVna.Vna.WaitForSweep: covers the polls it is given. A sweep that never reports done keeps the source waiting forever.
- Mascril.DataLineFields: requires at least one observable and no tab in the observables' names or the printed values. Otherwise a line cannot split back into its fields.
- Mascril.Eval: a division of one finite bound number by a zero one raises ZeroDivisionError, as it does for Python floats. The model does not track which bound numbers are numpy scalars, which would give inf or nan instead. Infinite and nan operands follow numpy.

## Findings

| source | as written | input that shows it | evidently intended | confidence | as-written member | corrected member |
|---|---|---|---|---|---|---|
| P13pt/drivers/tic500.py:19-20 | the constructor raises when the identity reply starts with the TIC 500's identity string | a genuine controller answering `'CryoVac, TIC 500, 972, version 3.307'` is refused, and an empty reply is accepted | raise when the reply does not start with the identity, as the message says | not executed | Tic500.GenuineControllerRefused | Tic500.IntendedAcceptsGenuine |
| P13pt/rfspectrum.py:57-58 | the pickle test compares the extension, taken after the last dot, with the dotted strings `.ntwk` and `.p` | `x.ntwk` has extension `ntwk`, so it is read as a P13 table instead of by skrf | compare with `ntwk` and `p`, so that pickled networks go to skrf | not executed | RfSpectrum.TablesByExtension | RfSpectrum.IntendedPicklesToSkrf |
