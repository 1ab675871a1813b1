// The CryoVac TIC 500 temperature controller driver: the identity check of its
// constructor and the channel check and query of `get_temp`. Nothing here
// changes state; the controller's reply and Python's `float` are parameters.
module Tic500 {
  import opened Common
  import opened Visa

  /** The identity a TIC 500 answers `*IDN?` with, quotes included. */
  const IDENTITY: string := "'CryoVac, TIC 500, 972, version 3.307'"

  const REFUSED: string := "Controller does not respond or is incompatible with this driver"

  /** The channels a temperature can be read from. */
  const CHANNELS: seq<string> := ["CHUCK", "CHUCKS", "SHIELD"]

  /**
   * The constructor as written: it asks for the identity and raises when the
   * reply starts with the TIC 500's own identity.
   */
  function Open(idn: string): (r: Result<seq<Command>>)
    ensures r.Ok? ==> r.value == [Query("*IDN?")]
  {
    if StartsWith(idn, IDENTITY) then Err(REFUSED) else Ok([Query("*IDN?")])
  }

  /** The constructor as its message intends: it raises when the reply is not a TIC 500's. */
  function OpenIntended(idn: string): (r: Result<seq<Command>>)
    ensures r.Ok? ==> r.value == [Query("*IDN?")]
  {
    if !StartsWith(idn, IDENTITY) then Err(REFUSED) else Ok([Query("*IDN?")])
  }

  /** As written, a genuine TIC 500 is refused and a silent or foreign instrument accepted. */
  lemma GenuineControllerRefused(rest: string)
    ensures Open(IDENTITY + rest) == Err(REFUSED)
    ensures Open("") == Ok([Query("*IDN?")])
  {
    assert (IDENTITY + rest)[..|IDENTITY|] == IDENTITY;
  }

  /** As intended, exactly the replies starting with the TIC 500's identity are accepted. */
  lemma IntendedAcceptsGenuine(idn: string)
    ensures OpenIntended(idn).Ok? <==> |idn| >= |IDENTITY| && idn[..|IDENTITY|] == IDENTITY
    ensures OpenIntended(idn).Ok? <==> Open(idn).Err?
  {
  }

  /** The query `get_temp` sends for a channel, or the exception for an unknown one. */
  function TempQuery(channel: string): (r: Result<string>)
    ensures r.Ok? <==> Upper(channel) in CHANNELS
    ensures r.Ok? ==> r.value == Upper(channel) + "?"
    ensures r.Err? ==> r.error == "Invalid channel"
  {
    if Upper(channel) in CHANNELS then Ok(Upper(channel) + "?") else Err("Invalid channel")
  }

  /**
   * `get_temp(channel)`: asks the controller for the channel's temperature;
   * `ask` is the controller's reply to a query, `float` Python's conversion,
   * applied to the stripped reply.
   */
  function GetTemp(channel: string, ask: string -> string, float: string -> Option<real>): Result<real>
  {
    match TempQuery(channel)
    case Err(e) => Err(e)
    case Ok(q) =>
      match float(Strip(ask(q)))
      case None => Err("ValueError: could not convert string to float")
      case Some(t) => Ok(t)
  }

  lemma UpperTwice(s: string)
    ensures Upper(Upper(s)) == Upper(s)
  {
  }

  /** The channel name is case-insensitive: any spelling reads the same channel. */
  lemma GetTempIgnoresCase(channel: string, ask: string -> string, float: string -> Option<real>)
    ensures GetTemp(channel, ask, float) == GetTemp(Upper(channel), ask, float)
  {
    UpperTwice(channel);
  }

  /**
   * `get_temp` sends one query, the upper-cased channel and `?`: its result
   * depends on the controller's answer to that query and on nothing else.
   */
  lemma GetTempAsksOnce(channel: string, ask1: string -> string, ask2: string -> string, float: string -> Option<real>)
    requires ask1(Upper(channel) + "?") == ask2(Upper(channel) + "?")
    ensures GetTemp(channel, ask1, float) == GetTemp(channel, ask2, float)
  {
  }

  /** An unknown channel is refused before anything is asked. */
  lemma UnknownChannelAsksNothing(channel: string, ask: string -> string, float: string -> Option<real>)
    requires Upper(channel) !in CHANNELS
    ensures GetTemp(channel, ask, float) == Err("Invalid channel")
  {
  }

  /** The three channels are accepted in lower case; a name with a suffix is not a channel. */
  lemma ChannelSpellings()
    ensures TempQuery("chuck") == Ok("CHUCK?")
    ensures TempQuery("Shield") == Ok("SHIELD?")
    ensures TempQuery("chucks") == Ok("CHUCKS?")
    ensures TempQuery("shields").Err?
  {
    assert Upper("chuck") == "CHUCK";
    assert Upper("Shield") == "SHIELD";
    assert Upper("chucks") == "CHUCKS";
    assert Upper("shields") == "SHIELDS";
    assert CHANNELS[0] == "CHUCK" && CHANNELS[1] == "CHUCKS" && CHANNELS[2] == "SHIELD";
    assert "CHUCK" + "?" == "CHUCK?";
    assert "SHIELD" + "?" == "SHIELD?";
    assert "CHUCKS" + "?" == "CHUCKS?";
  }
}
