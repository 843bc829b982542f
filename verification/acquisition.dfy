/** The MCP3008 acquisition session as the polling loop drives it: the
    interface of the MCP3008 driver that the loop sees (channels, parameters,
    session states and the results of its non-blocking calls) and one step
    of the loop's match over the session state. The driver's transport is
    not modelled: the answers of its `probe` and `poll` calls are inputs. */
module Acquisition {
  import opened Basics

  /** The eight single-ended inputs of the MCP3008. */
  datatype Channel = Ch0 | Ch1 | Ch2 | Ch3 | Ch4 | Ch5 | Ch6 | Ch7

  /** The number printed on the chip's pin for a channel. */
  function ChannelNumber(c: Channel): (n: nat)
    ensures n <= 7
  {
    match c
    case Ch0 => 0
    case Ch1 => 1
    case Ch2 => 2
    case Ch3 => 3
    case Ch4 => 4
    case Ch5 => 5
    case Ch6 => 6
    case Ch7 => 7
  }

  /** Supply voltage of the chip. */
  datatype Vdd = Positive3v3 | Positive5v

  /** Reference voltage: the supply itself or an explicit value in volts. */
  datatype Vref = EqualToVdd | Other(voltage: real)

  /** Construction parameters of a session. */
  datatype Params = Params(voltageDrain: Vdd, voltageRef: Vref)

  /** A failure of the transport (I/O error or garbled framing); its
      contents belong to the driver and are opaque here. */
  datatype TransportError = TransportError(description: string)

  /** The session states. `Probing` records the channel whose conversion
      is in flight. */
  datatype Session = Initializing | Ready | Probing(requested: Channel)

  /** What the initialisation probe answers. */
  datatype InitializingOp = InitIdle | InitReady

  /** What polling a conversion in flight answers: not finished yet, or a
      finished conversion for some channel with its value in volts. */
  datatype ProbingOp = ProbeIdle | Done(channel: Channel, value: real)

  /** The answers the transport gives in one iteration: `probe` is what the
      initialisation probe would return and `poll` what polling a conversion
      would return. A step consults at most one of them, the one that
      matches the session state. */
  datatype Transport = Transport(
    probe: Result<InitializingOp, TransportError>,
    poll: Result<ProbingOp, TransportError>)

  /** The session after one step, with the voltage read for the configured
      channel if this step surfaced one. */
  datatype Advance = Advance(session: Session, reading: Option<real>)

  /** At most the configured channel is ever in flight. */
  predicate RequestsOnly(s: Session, configured: Channel)
  {
    s.Probing? ==> s.requested == configured
  }

  /** One step of the session, as the loop performs it. A failed probe or
      poll ends the step with the transport's error; `Ready` always issues a
      conversion for the configured channel; a finished conversion always
      returns the session to `Ready`, and its value is surfaced only when it
      is for the configured channel. */
  function Step(s: Session, configured: Channel, hw: Transport): (r: Result<Advance, TransportError>)
    // the step fails exactly when the call it makes fails, with that call's error
    ensures r.Err? <==> (s.Initializing? && hw.probe.Err?) || (s.Probing? && hw.poll.Err?)
    ensures r.Err? && s.Initializing? ==> hw.probe == Err(r.error)
    ensures r.Err? && s.Probing? ==> hw.poll == Err(r.error)
    // a surfaced reading is exactly the value of a finished conversion on the configured channel
    ensures r.Ok? && r.value.reading.Some? ==>
      s.Probing? && hw.poll == Ok(Done(configured, r.value.reading.value)) && r.value.session == Ready
    // every finished conversion is surfaced when it is for the configured channel, dropped otherwise
    ensures s.Probing? && hw.poll.Ok? && hw.poll.value.Done? ==>
      r.Ok? && r.value.session == Ready && (r.value.reading.Some? <==> hw.poll.value.channel == configured)
    // the session never falls back to `Initializing` once it has left it
    ensures r.Ok? && r.value.session.Initializing? ==> s.Initializing?
    ensures r.Ok? && RequestsOnly(s, configured) ==> RequestsOnly(r.value.session, configured)
    // under that discipline a surfaced reading is for the channel that was in flight
    ensures r.Ok? && r.value.reading.Some? && RequestsOnly(s, configured) ==>
      hw.poll.value.channel == s.requested
  {
    match s
    case Initializing =>
      (match hw.probe
       case Err(e) => Err(e)
       case Ok(InitIdle) => Ok(Advance(Initializing, None))
       case Ok(InitReady) => Ok(Advance(Ready, None)))
    case Ready =>
      Ok(Advance(Probing(configured), None))
    case Probing(_) =>
      (match hw.poll
       case Err(e) => Err(e)
       case Ok(ProbeIdle) => Ok(Advance(s, None))
       case Ok(Done(channel, value)) =>
         if channel == configured then Ok(Advance(Ready, Some(value)))
         else Ok(Advance(Ready, None)))
  }

  /** From `Ready` the step issues a conversion for the configured channel,
      whatever the transport would answer, and reads nothing. */
  lemma ReadyAlwaysProbes(configured: Channel, hw: Transport)
    ensures Step(Ready, configured, hw) == Ok(Advance(Probing(configured), None))
  {
  }

  /** A pending answer leaves the session where it was and reads nothing;
      a confirmed handshake moves it to `Ready`. */
  lemma PendingKeepsState(s: Session, configured: Channel, hw: Transport)
    requires s.Initializing? ==> hw.probe == Ok(InitIdle)
    requires s.Probing? ==> hw.poll == Ok(ProbeIdle)
    requires !s.Ready?
    ensures Step(s, configured, hw) == Ok(Advance(s, None))
  {
  }

  lemma HandshakeMovesToReady(configured: Channel, hw: Transport)
    requires hw.probe == Ok(InitReady)
    ensures Step(Initializing, configured, hw) == Ok(Advance(Ready, None))
  {
  }

  /** A request on the configured channel followed by a finished conversion
      for that channel surfaces exactly the converted value after two steps,
      and the session is ready for the next request. */
  lemma RequestThenDoneSurfaces(configured: Channel, hw1: Transport, hw2: Transport, v: real)
    requires hw2.poll == Ok(Done(configured, v))
    ensures Step(Ready, configured, hw1).Ok?
    ensures var a := Step(Ready, configured, hw1).value;
            Step(a.session, configured, hw2) == Ok(Advance(Ready, Some(v)))
  {
  }

  /** A finished conversion for another channel (a stale result) is drained
      without surfacing anything. */
  lemma StaleResultDrained(s: Session, configured: Channel, hw: Transport)
    requires s.Probing?
    requires hw.poll.Ok? && hw.poll.value.Done? && hw.poll.value.channel != configured
    ensures Step(s, configured, hw) == Ok(Advance(Ready, None))
  {
  }
}
