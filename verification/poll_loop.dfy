/** The program's start-up and its polling loop. One iteration steps the
    MCP3008 session once; when that surfaces a voltage for the configured
    channel, it feeds the voltage to the estimator, records the estimate the
    estimator yields, and flushes the statistics window if the dump delay
    has elapsed. A driver failure ends the run with that error. */
module PollLoop {
  import opened Basics
  import A = Acquisition
  import E = Estimation
  import S = Stats
  import C = Config

  /** What the loop keeps fixed: the carrier channel and the dump delay in
      nanoseconds. */
  datatype Settings = Settings(channel: A.Channel, dumpDelay: nat)

  /** The loop's state: both sessions and the statistics window. */
  datatype State = State(mcp3008: A.Session, acDriver: E.Session, window: S.Window)

  /** Everything start-up produces. */
  datatype Setup = Setup(settings: Settings, params: A.Params, state: State)

  /** The inputs of one iteration: the transport's answers, the estimator's
      answers and the clock reading taken when a voltage is surfaced. */
  datatype Tick = Tick(transport: A.Transport, acDriver: E.Replies, now: nat)

  /** The state after one iteration, with the report a flush made. */
  datatype Iteration = Iteration(state: State, report: Option<S.Report>)

  /** The outcome of a run of iterations: the last state reached, all
      reports in order, and the driver failure that ended the run, if any.
      Reports made before a failure stay: they were logged before the
      program exited. */
  datatype Trace = Trace(state: State, reports: seq<S.Report>, failure: Option<C.Error>)

  /** Only the configured channel is ever requested, and the statistics'
      count and sums are reset together. */
  predicate Invariant(settings: Settings, st: State)
  {
    A.RequestsOnly(st.mcp3008, settings.channel) && S.Consistent(st.window.acc)
  }

  /** Start-up: validates the channel before anything touches the driver,
      builds the parameters and the dump delay, then constructs the driver
      session, whose outcome (`sessionNew`) is an input. Both sessions start
      out initialising; the statistics start empty at `startedAt`. */
  function Start(cli: C.CliArgs, sessionNew: Result<(), A.TransportError>, startedAt: nat): (r: Result<Setup, C.Error>)
    // a bad channel is reported with the given value whatever the driver would have done
    ensures cli.mcp3008.carrierChannel > 7 ==>
      r == Err(C.ChannelIsNotInRangeFrom0To7(cli.mcp3008.carrierChannel))
    ensures cli.mcp3008.carrierChannel <= 7 && sessionNew.Err? ==> r == Err(C.Mcp3008(sessionNew.error))
    ensures r.Ok? <==> cli.mcp3008.carrierChannel <= 7 && sessionNew.Ok?
    ensures r.Ok? ==>
      && A.ChannelNumber(r.value.settings.channel) == cli.mcp3008.carrierChannel
      && r.value.settings.dumpDelay == C.DumpDelay(cli.dumpStatsDelay)
      && CliVddAndReference(r.value.params) == (cli.mcp3008.voltageDrain, cli.mcp3008.voltageRef)
      && r.value.state.mcp3008 == A.Initializing
      && r.value.state.acDriver == E.Initializing
      && r.value.state.window.acc.samples == 0
      && r.value.state.window.lastDump == startedAt
      && Invariant(r.value.settings, r.value.state)
  {
    match C.ValidateChannel(cli.mcp3008.carrierChannel)
    case Err(e) => Err(e)
    case Ok(channel) =>
      var params := C.MakeParams(cli.mcp3008);
      var settings := Settings(channel, C.DumpDelay(cli.dumpStatsDelay));
      match sessionNew
      case Err(e) => Err(C.Mcp3008(e))
      case Ok(_) =>
        Ok(Setup(settings, params, State(A.Initializing, E.Initializing, S.Window(S.Empty, startedAt))))
  }

  /** The command-line values the driver parameters encode. */
  function CliVddAndReference(p: A.Params): (C.CliVdd, Option<real>)
  {
    (C.CliVddOf(p.voltageDrain), C.ReferenceOf(p.voltageRef))
  }

  /** One iteration of the loop. */
  function Step(settings: Settings, st: State, t: Tick): (r: Result<Iteration, C.Error>)
    // the iteration fails exactly when the driver step fails, with its error
    ensures r.Err? <==> A.Step(st.mcp3008, settings.channel, t.transport).Err?
    ensures r.Err? ==> r.error == C.Mcp3008(A.Step(st.mcp3008, settings.channel, t.transport).error)
    // the next iteration uses the MCP3008 session this step produced
    ensures r.Ok? ==> r.value.state.mcp3008 == A.Step(st.mcp3008, settings.channel, t.transport).value.session
    // without a reading, neither the estimator nor the statistics change, and nothing is reported
    ensures r.Ok? && A.Step(st.mcp3008, settings.channel, t.transport).value.reading.None? ==>
      r.value.state.acDriver == st.acDriver && r.value.state.window == st.window && r.value.report.None?
    // a report is made only on an iteration that read a voltage, once the delay has elapsed
    ensures r.Ok? && r.value.report.Some? ==>
      && A.Step(st.mcp3008, settings.channel, t.transport).value.reading.Some?
      && S.DurationSince(t.now, st.window.lastDump) >= settings.dumpDelay
      && r.value.state.window == S.Window(S.Empty, t.now)
    ensures r.Ok? && Invariant(settings, st) ==> Invariant(settings, r.value.state)
  {
    match A.Step(st.mcp3008, settings.channel, t.transport)
    case Err(e) => Err(C.Mcp3008(e))
    case Ok(advance) =>
      match advance.reading
      case None => Ok(Iteration(st.(mcp3008 := advance.session), None))
      case Some(voltage) =>
        var observed := E.Step(st.acDriver, t.acDriver, t.now, voltage);
        var acc := match observed.estimate
          case Some(values) => S.Record(st.window.acc, values)
          case None => st.window.acc;
        var flushed := S.MaybeFlush(st.window.(acc := acc), t.now, settings.dumpDelay);
        Ok(Iteration(State(advance.session, observed.session, flushed.window), flushed.report))
  }

  /** A surfaced voltage is fed, at the iteration's clock reading, to the
      estimator, and the estimator's new state is kept. */
  lemma ReadingFeedsEstimator(settings: Settings, st: State, t: Tick, voltage: real)
    requires A.Step(st.mcp3008, settings.channel, t.transport).Ok?
    requires A.Step(st.mcp3008, settings.channel, t.transport).value.reading == Some(voltage)
    ensures Step(settings, st, t).Ok?
    ensures Step(settings, st, t).value.state.acDriver == E.Step(st.acDriver, t.acDriver, t.now, voltage).session
  {
  }

  /** Before the delay elapses, an estimate adds exactly one to the count
      and its frequency and envelope bounds to the sums, and an iteration
      without estimate (carrier lost, or none detected yet) records nothing. */
  lemma EstimateRecorded(settings: Settings, st: State, t: Tick, voltage: real)
    requires A.Step(st.mcp3008, settings.channel, t.transport).Ok?
    requires A.Step(st.mcp3008, settings.channel, t.transport).value.reading == Some(voltage)
    requires S.DurationSince(t.now, st.window.lastDump) < settings.dumpDelay
    ensures var r := Step(settings, st, t);
      var est := E.Step(st.acDriver, t.acDriver, t.now, voltage).estimate;
      var w := st.window;
      && r.Ok? && r.value.report.None?
      && r.value.state.window.lastDump == w.lastDump
      && (est.None? ==> r.value.state.window == w)
      && (est.Some? ==>
            && r.value.state.window.acc.samples == w.acc.samples + 1
            && r.value.state.window.acc.sumHz == w.acc.sumHz + est.value.frequency
            && r.value.state.window.acc.sumHi == w.acc.sumHi + est.value.amplitude.max
            && r.value.state.window.acc.sumLo == w.acc.sumLo + est.value.amplitude.min)
  {
  }

  /** Once the delay has elapsed, an iteration that read a voltage reports
      the no-samples notice when nothing, this iteration's estimate
      included, was recorded, and otherwise the means including this
      iteration's estimate; the window then starts afresh at `now`. */
  lemma FlushWhenDue(settings: Settings, st: State, t: Tick, voltage: real)
    requires A.Step(st.mcp3008, settings.channel, t.transport).Ok?
    requires A.Step(st.mcp3008, settings.channel, t.transport).value.reading == Some(voltage)
    requires S.DurationSince(t.now, st.window.lastDump) >= settings.dumpDelay
    ensures var r := Step(settings, st, t);
      var est := E.Step(st.acDriver, t.acDriver, t.now, voltage).estimate;
      var acc := st.window.acc;
      && r.Ok? && r.value.report.Some?
      && r.value.state.window == S.Window(S.Empty, t.now)
      && (r.value.report.value == S.NoSamplesCollectedYet <==> acc.samples == 0 && est.None?)
      && (est.None? && acc.samples > 0 ==>
            r.value.report.value.frequency * acc.samples as real == acc.sumHz
            && r.value.report.value.amplitudeHi * acc.samples as real == acc.sumHi
            && r.value.report.value.amplitudeLo * acc.samples as real == acc.sumLo)
      && (est.Some? ==>
            r.value.report.value.frequency * (acc.samples + 1) as real == acc.sumHz + est.value.frequency
            && r.value.report.value.amplitudeHi * (acc.samples + 1) as real == acc.sumHi + est.value.amplitude.max
            && r.value.report.value.amplitudeLo * (acc.samples + 1) as real == acc.sumLo + est.value.amplitude.min)
  {
  }

  /** The reports an iteration contributes to a run. */
  function Emitted(it: Iteration): seq<S.Report>
  {
    if it.report.Some? then [it.report.value] else []
  }

  /** A run's outcome with `reports` made before it. */
  function After(reports: seq<S.Report>, tr: Trace): Trace
  {
    tr.(reports := reports + tr.reports)
  }

  /** The loop over a finite sequence of iterations; the first driver
      failure ends the run with that error, keeping the reports made
      before it and the state the failing iteration started from. */
  function Run(settings: Settings, st: State, ticks: seq<Tick>): (r: Trace)
    ensures |r.reports| <= |ticks|
    decreases |ticks|
  {
    if |ticks| == 0 then Trace(st, [], None)
    else
      match Step(settings, st, ticks[0])
      case Err(e) => Trace(st, [], Some(e))
      case Ok(it) => After(Emitted(it), Run(settings, it.state, ticks[1..]))
  }

  /** A run of one iteration is that iteration: its failure, or its state
      and its report. Together with `RunComposes` this fixes every run. */
  lemma RunSingle(settings: Settings, st: State, t: Tick)
    ensures Run(settings, st, [t]) ==
      match Step(settings, st, t)
      case Err(e) => Trace(st, [], Some(e))
      case Ok(it) => Trace(it.state, Emitted(it), None)
  {
    assert [t][1..] == [];
    var s := Step(settings, st, t);
    if s.Ok? {
      assert Emitted(s.value) + [] == Emitted(s.value);
    }
  }

  /** Every run keeps the invariant. */
  lemma {:induction false} RunKeepsInvariant(settings: Settings, st: State, ticks: seq<Tick>)
    requires Invariant(settings, st)
    ensures Invariant(settings, Run(settings, st, ticks).state)
    decreases |ticks|
  {
    if |ticks| > 0 {
      var s := Step(settings, st, ticks[0]);
      if s.Ok? {
        RunKeepsInvariant(settings, s.value.state, ticks[1..]);
      }
    }
  }

  /** A failure is final: iterations after it change nothing. */
  lemma {:induction false} FailureIsFinal(settings: Settings, st: State, ticks: seq<Tick>, more: seq<Tick>)
    requires Run(settings, st, ticks).failure.Some?
    ensures Run(settings, st, ticks + more) == Run(settings, st, ticks)
    decreases |ticks|
  {
    assert |ticks| > 0;
    assert (ticks + more)[0] == ticks[0];
    var s := Step(settings, st, ticks[0]);
    if s.Ok? {
      assert (ticks + more)[1..] == ticks[1..] + more;
      FailureIsFinal(settings, s.value.state, ticks[1..], more);
    }
  }

  /** Runs compose: running `ticks` then `more` from where it stopped is
      running their concatenation, with the reports concatenated. */
  lemma {:induction false} RunComposes(settings: Settings, st: State, ticks: seq<Tick>, more: seq<Tick>)
    requires Run(settings, st, ticks).failure.None?
    ensures var first := Run(settings, st, ticks);
      Run(settings, st, ticks + more) == After(first.reports, Run(settings, first.state, more))
    decreases |ticks|
  {
    if |ticks| == 0 {
      assert ticks + more == more;
      AfterNothing(Run(settings, st, more));
    } else {
      var all := ticks + more;
      assert all[0] == ticks[0];
      assert all[1..] == ticks[1..] + more;
      var it := Step(settings, st, ticks[0]).value;
      var tail := Run(settings, it.state, ticks[1..]);
      RunComposes(settings, it.state, ticks[1..], more);
      AfterAfter(Emitted(it), tail.reports, Run(settings, tail.state, more));
    }
  }

  lemma AfterNothing(tr: Trace)
    ensures After([], tr) == tr
  {
    assert [] + tr.reports == tr.reports;
  }

  lemma AfterAfter(xs: seq<S.Report>, ys: seq<S.Report>, tr: Trace)
    ensures After(xs, After(ys, tr)) == After(xs + ys, tr)
  {
    assert xs + (ys + tr.reports) == (xs + ys) + tr.reports;
  }
}
