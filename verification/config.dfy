/** Start-up configuration of the program: the command-line values after
    parsing, the program's error type, and the mapping of the parsed values
    to the MCP3008 channel, the driver parameters and the dump delay. */
module Config {
  import opened Basics
  import A = Acquisition

  /** The model takes `usize` to be 64 bits wide, as on a 64-bit target;
      on a 32-bit target the limit would be 2^32. */
  const UsizeLimit: nat := 0x1_0000_0000_0000_0000

  type Usize = n: nat | n < UsizeLimit

  /** Nanoseconds in a millisecond, the clock's and the option's units. */
  const NanosPerMilli: nat := 1_000_000

  /** The program's errors: a channel outside 0..7, carrying the value
      given, or a failure of the MCP3008 driver. */
  datatype Error =
    | ChannelIsNotInRangeFrom0To7(provided: Usize)
    | Mcp3008(cause: A.TransportError)

  /** The supply voltages the command line accepts. */
  datatype CliVdd = CliPositive3v3 | CliPositive5v

  /** The MCP3008 options: carrier channel, supply voltage and an optional
      explicit reference voltage in volts. */
  datatype CliMcp3008 = CliMcp3008(carrierChannel: Usize, voltageDrain: CliVdd, voltageRef: Option<real>)

  /** All options: the MCP3008 ones and the dump delay in milliseconds. */
  datatype CliArgs = CliArgs(mcp3008: CliMcp3008, dumpStatsDelay: Usize)

  /** Maps the given channel number to its channel; any number outside
      0..7 is rejected with an error carrying that number. */
  function ValidateChannel(provided: Usize): (r: Result<A.Channel, Error>)
    ensures r.Ok? <==> provided <= 7
    ensures r.Ok? ==> A.ChannelNumber(r.value) == provided
    ensures r.Err? ==> r.error == ChannelIsNotInRangeFrom0To7(provided)
  {
    match provided
    case 0 => Ok(A.Ch0)
    case 1 => Ok(A.Ch1)
    case 2 => Ok(A.Ch2)
    case 3 => Ok(A.Ch3)
    case 4 => Ok(A.Ch4)
    case 5 => Ok(A.Ch5)
    case 6 => Ok(A.Ch6)
    case 7 => Ok(A.Ch7)
    case _ => Err(ChannelIsNotInRangeFrom0To7(provided))
  }

  /** Every channel is reached by exactly its own number, so the eight
      accepted numbers select eight distinct channels. */
  lemma ValidateChannelRoundTrip(c: A.Channel, m: Usize, n: Usize)
    ensures ValidateChannel(A.ChannelNumber(c)) == Ok(c)
    ensures m <= 7 && n <= 7 && m != n ==> ValidateChannel(m).value != ValidateChannel(n).value
  {
  }

  /** The supply-voltage choice, one to one. */
  function VddOf(v: CliVdd): (r: A.Vdd)
  {
    match v
    case CliPositive3v3 => A.Positive3v3
    case CliPositive5v => A.Positive5v
  }

  /** The command-line spelling of a supply voltage. */
  function CliVddOf(v: A.Vdd): (r: CliVdd)
  {
    match v
    case Positive3v3 => CliPositive3v3
    case Positive5v => CliPositive5v
  }

  /** No explicit reference means the reference is the supply; an explicit
      one is taken as is. */
  function VrefOf(reference: Option<real>): (r: A.Vref)
    ensures r.EqualToVdd? <==> reference.None?
    ensures reference.Some? ==> r.voltage == reference.value
  {
    match reference
    case None => A.EqualToVdd
    case Some(value) => A.Other(value)
  }

  /** The explicit reference a `Vref` came from, if any. */
  function ReferenceOf(v: A.Vref): Option<real>
  {
    match v
    case EqualToVdd => None
    case Other(voltage) => Some(voltage)
  }

  /** The driver parameters built from the MCP3008 options. */
  function MakeParams(cli: CliMcp3008): (r: A.Params)
    ensures r.voltageDrain == A.Positive3v3 <==> cli.voltageDrain == CliPositive3v3
    ensures r.voltageDrain == A.Positive5v <==> cli.voltageDrain == CliPositive5v
    ensures CliVddOf(r.voltageDrain) == cli.voltageDrain
    ensures ReferenceOf(r.voltageRef) == cli.voltageRef
  {
    A.Params(VddOf(cli.voltageDrain), VrefOf(cli.voltageRef))
  }

  /** The supply mapping takes 3v3 to 3v3 and 5v to 5v and is a bijection,
      and the parameters lose nothing of the options and can express every
      parameter value. */
  lemma ParamsRoundTrip(v: CliVdd, w: A.Vdd, cli: CliMcp3008, p: A.Params)
    ensures VddOf(CliPositive3v3) == A.Positive3v3 && VddOf(CliPositive5v) == A.Positive5v
    ensures CliVddOf(VddOf(v)) == v && VddOf(CliVddOf(w)) == w
    ensures VrefOf(ReferenceOf(p.voltageRef)) == p.voltageRef
    ensures MakeParams(cli.(voltageDrain := CliVddOf(p.voltageDrain), voltageRef := ReferenceOf(p.voltageRef))) == p
  {
  }

  /** The dump delay in nanoseconds: a whole number of milliseconds. */
  function DumpDelay(ms: Usize): (d: nat)
    ensures d % NanosPerMilli == 0 && d / NanosPerMilli == ms
  {
    ms * NanosPerMilli
  }
}
