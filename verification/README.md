# AC carrier monitor: polling-loop model

This project models the core of `oscilloscope`, a Raspberry Pi program. The
program samples one channel of an MCP3008 analog-to-digital converter and
feeds each voltage it reads to a carrier estimator. The estimator locks onto
an AC waveform and reports frequency and envelope (amplitude max/min)
estimates. The program averages those estimates over a wall-clock window and
logs the means each time the dump delay elapses.

The model covers everything `src/main.rs` decides for itself:

- mapping the command-line channel number to an MCP3008 channel, and
  rejecting numbers outside 0..7 with the number given (`Config`);
- building the driver parameters from the supply choice and the optional
  reference voltage, and the dump delay from milliseconds (`Config`);
- one step of the MCP3008 session `Initializing` / `Ready` / `Probing`.
  Only a finished conversion for the configured channel is surfaced; a
  result for any other channel is drained (`Acquisition`);
- one step of the estimator session `Initializing` / `Estimated`
  (`Estimation`);
- the statistics window: a count and three sums, recorded per estimate and
  reset together at a flush (`Stats`);
- start-up and the loop that wires these together. The loop is one pure
  `Step` and a `Run` over a finite sequence of iterations (`PollLoop`).

The two external drivers are represented by their interfaces only. What the
MCP3008 transport answers to `probe` and `poll` in an iteration is an input
(`Acquisition.Transport`). A transport error ends the run. What the
estimator answers to a voltage read at a given time is also an input
(`Estimation.Replies`), given as functions of the time and the voltage. The
model can therefore state that the estimator is fed exactly the surfaced
voltage at the iteration's clock reading. Times are nanoseconds as `nat`.
Floating-point values are `real`.

Two details of the loop's behaviour:

- A flush is tested only on iterations that surfaced a reading
  (`src/main.rs:142-193`). An iteration that reads nothing never flushes,
  however much time has passed. `PollLoop.Step` states this.
- A finished conversion is compared with the configured channel
  (`src/main.rs:132`). The model also records the requested channel in
  `Probing`, and proves (`Acquisition.RequestsOnly`, `PollLoop.Invariant`)
  that it is always the configured one. So every surfaced reading is for
  the channel in flight. Only channels are compared: a stale result left
  from an earlier request on that same channel is surfaced too.

## Model

| member | source | states |
|---|---|---|
| Config.ValidateChannel | src/main.rs:69-79 | A number is accepted exactly when it is 0..7, and then selects the channel with that number. Every other number gives `ChannelIsNotInRangeFrom0To7` carrying the number given. |
| Config.ValidateChannelRoundTrip | src/main.rs:69-78 | Each channel is selected by its own number, and distinct accepted numbers select distinct channels. |
| Config.VrefOf | src/main.rs:88-95 | No reference gives `EqualToVdd`. An explicit reference gives `Other` with exactly that voltage. |
| Config.MakeParams | src/main.rs:81-96 | The parameters use the 3v3 supply iff 3v3 was chosen and the 5v supply iff 5v was chosen, and keep the optional reference: mapping them back gives the options. |
| Config.ParamsRoundTrip | src/main.rs:82-95 | The supply mapping 3v3→3v3, 5v→5v is a bijection. Every parameter value is built from some options. |
| Config.DumpDelay | src/main.rs:98 | The delay is a whole number of milliseconds, exactly the number given. |
| Acquisition.Step | src/main.rs:113-140 | The step fails exactly when the probe or poll it makes fails, with that error. A surfaced reading is exactly the value of a finished conversion on the configured channel. Every finished conversion returns to `Ready` and is surfaced iff its channel is the configured one. The session never returns to `Initializing`. Only the configured channel is ever requested, so a surfaced reading is for the channel in flight. |
| Acquisition.ReadyAlwaysProbes | src/main.rs:125-126 | From `Ready`, whatever the transport would say, the session moves to `Probing` on the configured channel and reads nothing. |
| Acquisition.PendingKeepsState | src/main.rs:113-131 | An idle probe or an idle poll leaves the session unchanged and reads nothing. |
| Acquisition.HandshakeMovesToReady | src/main.rs:119-122 | A confirmed handshake moves `Initializing` to `Ready` and reads nothing. |
| Acquisition.RequestThenDoneSurfaces | src/main.rs:125-135 | From `Ready`, a request followed by a finished conversion on the configured channel surfaces exactly its value and returns to `Ready`. |
| Acquisition.StaleResultDrained | src/main.rs:136-137 | A finished conversion for another channel returns to `Ready` and surfaces nothing. |
| Estimation.Step | src/main.rs:145-170 | An estimate is yielded iff the session ends `Estimated`, and it is the session's current values. From `Initializing` the session locks iff the estimator detects a carrier in this voltage at this time. From `Estimated` it unlocks iff the carrier is lost. |
| Estimation.NoCarrierNoEstimate | src/main.rs:147-167 | Losing the carrier, or seeing none yet, yields no estimate and leaves the session `Initializing`. |
| Stats.Record | src/main.rs:172-177 | After recording, the count is positive. The exact increments are stated by `Stats.RecordAllTotals` and `PollLoop.EstimateRecorded`. |
| Stats.DurationSince | src/main.rs:179 | Elapsed time from the last dump: exact when the clock moved forward, zero otherwise. |
| Stats.Means | src/main.rs:182-186 | Each reported mean times the count equals the corresponding sum. |
| Stats.MaybeFlush | src/main.rs:179-192 | A report is made iff the elapsed time reaches the delay. It is the no-samples notice iff the count is 0, otherwise means whose product with the count gives back each sum. After a report the count, all three sums and the dump time are reset together (to 0 and `now`). Without a report the window is untouched. |
| Stats.RecordAllTotals | src/main.rs:172-177 | Recording a sequence of estimates adds its length to the count and its frequency, max and min sums to the three sums. |
| Stats.WindowMeans | src/main.rs:172-192 | When due, flushing a window that collected `vs` reports the no-samples notice if `vs` is empty. Otherwise it reports the arithmetic means of the frequencies, maxima and minima of `vs`. |
| Stats.ThreeFrequenciesAverage | src/main.rs:183-185 | Frequencies 59.9, 60.0 and 60.1 Hz are reported as a mean of 60.0 Hz. |
| PollLoop.Start | src/main.rs:64-108 | A channel outside 0..7 is rejected with the given number whatever the driver would do. A driver construction failure is reported as `Mcp3008`. On success the channel and parameters carry the options, the dump delay is exactly the given milliseconds, both sessions are `Initializing`, the window is empty at the start time, and the loop invariant holds. |
| PollLoop.Step | src/main.rs:110-193 | An iteration fails exactly when the driver step fails. Otherwise the next iteration uses the MCP3008 session the driver step produced. Without a reading, the estimator and the statistics are unchanged and nothing is reported. A report comes only from an iteration that read a voltage once the delay elapsed, and it resets the window at `now`. The invariant is kept. |
| PollLoop.ReadingFeedsEstimator | src/main.rs:142-148 | A surfaced voltage is fed to the estimator at the iteration's clock reading, and the estimator's new state is kept. |
| PollLoop.EstimateRecorded | src/main.rs:172-177 | Before the delay, an estimate adds exactly 1 to the count and its frequency, max and min to the sums. An iteration without an estimate records nothing. |
| PollLoop.FlushWhenDue | src/main.rs:179-191 | Once due, a reading iteration reports the no-samples notice iff nothing (this iteration included) was recorded. Otherwise it reports means that include this iteration's estimate (or, without one, the previous sums' means), and the window restarts at `now`. |
| PollLoop.Run | src/main.rs:110-194 | A run of iterations makes at most one report per iteration. A driver failure ends the run with that error, and the reports made before it are kept. |
| PollLoop.RunSingle | src/main.rs:110-193 | A run of one iteration is that iteration: its failure with no report, or its new state and its report if it made one. |
| PollLoop.RunKeepsInvariant | src/main.rs:110-194 | Across any run, failed or not, only the configured channel is requested and the count and sums are reset together. |
| PollLoop.FailureIsFinal | src/main.rs:110-140 | After a driver failure, later iterations change nothing: the run ends with that failure and the reports made before it. |
| PollLoop.RunComposes | src/main.rs:110-194 | Running two sequences of iterations one after the other is running their concatenation. The reports are concatenated, and a failure in the second part is the failure of the whole. |
| Stats.IncrementAsWritten | src/main.rs:101-173 | The count as written is a 32-bit signed integer. It increments by one below its maximum, and wraps to a negative value past it. |
| Stats.ReportAsWritten | src/main.rs:180-185 | As written, the no-samples notice is given only for a zero count. Otherwise each reported value times the count (of either sign) is its sum. |
| Stats.CountAfterAsWritten | src/main.rs:101-173 | The count as written after any number of estimates from the reset value stays within the 32-bit range. |
| Stats.CountAfterAsWrittenExact | src/main.rs:101-173 | Up to 2^31-1 estimates, the count as written equals the number of estimates. |
| Stats.CountWrapsAsWritten | src/main.rs:173-185 | After 2^31 estimates in one window, the count as written is -2^31, and sums of a 60 Hz carrier are reported as -60 Hz with negated envelope bounds. |

## Findings

| source | as written | input that shows it | evidently intended | confidence | as-written member | corrected member |
|---|---|---|---|---|---|---|
| src/main.rs:101-185 | `ac_samples` starts as the bare literal `0`, so its type is inferred as `i32`, and `ac_samples += 1` wraps in a release build (a debug build panics) | 2^31 estimates in one window (a dump delay of a few days at a fast sampling rate): the count wraps to -2^31, and a steady 60 Hz carrier is reported as -60 Hz | a count that cannot wrap, so that the flush always reports the arithmetic means of the window's estimates | medium; not executed | Stats.CountWrapsAsWritten | Stats.WindowMeans |

## Left out

- Command-line parsing and the option declarations (`src/main.rs:32-62`, `66`) are library-driven. The parsed values are the model's input (`Config.CliArgs`). The model chooses a 64-bit `usize`, a `nat` below 2^64; the target's width is not fixed by the program.
- Logging setup and log lines (`src/main.rs:65`, `67`, `120`, `152`, `165`, `181-185`) are output only. A flush's report is the datatype `Stats.Report`.
- The MCP3008 transport (`Session::new`, `probe`, `probe_channel`, `poll`) belongs to an external driver. Its answers are inputs, and a successful `Session::new` is taken to start in `Initializing`. The estimator's `Session::new` (`src/main.rs:106`) is likewise taken to start in `Initializing`. Raw-code-to-volt conversion also happens inside that driver, so its monotonicity and round trip are not modelled.
- The carrier-detection algorithm (zero crossings, hysteresis, lock and unlock timing) belongs to an external estimator. Its answers are inputs; the estimator's hidden state is folded into which answers an iteration receives.
- Floating-point rounding in the sums and means (`src/main.rs:102-104`, `174-176`, `183-185`): the model uses exact `real` arithmetic.
- Clock reads (`src/main.rs:100`, `144`) are inputs in nanoseconds. `duration_since` is modelled as saturating at zero, as in current Rust.
- The infinite `loop` is modelled as a run over any finite sequence of iterations (`PollLoop.Run`).
- Stats.Record: the count is an unbounded `nat`, the corrected behaviour. The program's `i32` count wraps (or panics) after 2^31-1 estimates in one window; that path is modelled only by the as-written members listed under Findings.
- Acquisition.Step: a poll result is tied to the request that produced it only by its channel, as in the program. A stale result on the configured channel is surfaced like a fresh one, because the transport's answers are unconstrained inputs.
