/** The statistics window of the polling loop: a count of estimates and
    three running sums (frequency, envelope maximum, envelope minimum),
    recorded per estimate and flushed together once the dump delay has
    elapsed since the previous flush. Floating-point sums are modelled as
    exact reals; times are nanoseconds on a monotonic clock. */
module Stats {
  import opened Basics
  import Estimation

  /** Count of estimates and the sums of their fields since the last flush. */
  datatype Accumulator = Accumulator(samples: nat, sumHz: real, sumHi: real, sumLo: real)

  /** The accumulator after a reset. */
  const Empty := Accumulator(0, 0.0, 0.0, 0.0)

  /** The accumulator together with the time of the last flush. */
  datatype Window = Window(acc: Accumulator, lastDump: nat)

  /** What a flush reports: that nothing was collected, or the means. */
  datatype Report =
    | NoSamplesCollectedYet
    | Averages(frequency: real, amplitudeHi: real, amplitudeLo: real)

  /** The window after a possible flush, with the report if one was made. */
  datatype Flushed = Flushed(window: Window, report: Option<Report>)

  /** Counts and sums are reset together: an accumulator that holds no
      estimate holds no sum either. */
  predicate Consistent(acc: Accumulator)
  {
    acc.samples == 0 ==> acc.sumHz == 0.0 && acc.sumHi == 0.0 && acc.sumLo == 0.0
  }

  /** Sums of the three fields over a sequence of estimates. */
  function SumHz(vs: seq<Estimation.Values>): real
  {
    if |vs| == 0 then 0.0 else vs[0].frequency + SumHz(vs[1..])
  }

  function SumHi(vs: seq<Estimation.Values>): real
  {
    if |vs| == 0 then 0.0 else vs[0].amplitude.max + SumHi(vs[1..])
  }

  function SumLo(vs: seq<Estimation.Values>): real
  {
    if |vs| == 0 then 0.0 else vs[0].amplitude.min + SumLo(vs[1..])
  }

  /** Adds one estimate to the accumulator. */
  function Record(acc: Accumulator, v: Estimation.Values): (r: Accumulator)
    ensures r.samples > 0
  {
    Accumulator(acc.samples + 1, acc.sumHz + v.frequency,
                acc.sumHi + v.amplitude.max, acc.sumLo + v.amplitude.min)
  }

  /** Records a sequence of estimates, oldest first. */
  function RecordAll(acc: Accumulator, vs: seq<Estimation.Values>): (r: Accumulator)
    decreases |vs|
  {
    if |vs| == 0 then acc else RecordAll(Record(acc, vs[0]), vs[1..])
  }

  /** Time elapsed from `earlier` to `now`; zero when `now` is before
      `earlier`, as Rust's `Instant::duration_since` saturates. */
  function DurationSince(now: nat, earlier: nat): (d: nat)
    ensures earlier + d >= now
    ensures now >= earlier ==> earlier + d == now
    ensures now < earlier ==> d == 0
  {
    if now >= earlier then now - earlier else 0
  }

  /** The means of the three sums. */
  function Means(acc: Accumulator): (r: Report)
    requires acc.samples > 0
    ensures r.Averages?
    ensures r.frequency * acc.samples as real == acc.sumHz
    ensures r.amplitudeHi * acc.samples as real == acc.sumHi
    ensures r.amplitudeLo * acc.samples as real == acc.sumLo
  {
    var n := acc.samples as real;
    Averages(acc.sumHz / n, acc.sumHi / n, acc.sumLo / n)
  }

  /** Flushes the window when `delay` has elapsed since the last flush:
      reports the means (or that nothing was collected) and resets the
      count, the sums and the flush time together. Otherwise leaves the
      window untouched and reports nothing. */
  function MaybeFlush(w: Window, now: nat, delay: nat): (r: Flushed)
    ensures r.report.Some? <==> DurationSince(now, w.lastDump) >= delay
    ensures r.report.Some? ==> r.window == Window(Empty, now)
    ensures r.report.None? ==> r.window == w
    ensures r.report == Some(NoSamplesCollectedYet) <==> r.report.Some? && w.acc.samples == 0
    ensures r.report.Some? && w.acc.samples > 0 ==>
      && r.report.value.Averages?
      && r.report.value.frequency * w.acc.samples as real == w.acc.sumHz
      && r.report.value.amplitudeHi * w.acc.samples as real == w.acc.sumHi
      && r.report.value.amplitudeLo * w.acc.samples as real == w.acc.sumLo
  {
    if DurationSince(now, w.lastDump) >= delay then
      var report := if w.acc.samples == 0 then NoSamplesCollectedYet else Means(w.acc);
      Flushed(Window(Empty, now), Some(report))
    else
      Flushed(w, None)
  }

  /** Recording a sequence adds its length to the count and its sums to
      the three sums. */
  lemma {:induction false} RecordAllTotals(acc: Accumulator, vs: seq<Estimation.Values>)
    ensures RecordAll(acc, vs) ==
      Accumulator(acc.samples + |vs|, acc.sumHz + SumHz(vs), acc.sumHi + SumHi(vs), acc.sumLo + SumLo(vs))
    decreases |vs|
  {
    if |vs| > 0 {
      RecordAllTotals(Record(acc, vs[0]), vs[1..]);
    }
  }

  /** Flushing a window that collected the estimates `vs` since the last
      flush reports, when due, the arithmetic means of their frequencies
      and envelope bounds, or the no-samples notice when `vs` is empty. */
  lemma WindowMeans(vs: seq<Estimation.Values>, lastDump: nat, now: nat, delay: nat)
    requires DurationSince(now, lastDump) >= delay
    ensures var f := MaybeFlush(Window(RecordAll(Empty, vs), lastDump), now, delay);
      && f.window == Window(Empty, now)
      && (|vs| == 0 ==> f.report == Some(NoSamplesCollectedYet))
      && (|vs| > 0 ==> f.report == Some(Averages(SumHz(vs) / |vs| as real,
                                                 SumHi(vs) / |vs| as real,
                                                 SumLo(vs) / |vs| as real)))
  {
    RecordAllTotals(Empty, vs);
  }

  /** The worked example: frequencies 59.9, 60.0 and 60.1 Hz average to
      60.0 Hz. */
  lemma ThreeFrequenciesAverage(hi: real, lo: real, lastDump: nat, now: nat, delay: nat)
    requires DurationSince(now, lastDump) >= delay
    ensures var vs := [Estimation.Values(59.9, Estimation.Amplitude(hi, lo)),
                       Estimation.Values(60.0, Estimation.Amplitude(hi, lo)),
                       Estimation.Values(60.1, Estimation.Amplitude(hi, lo))];
      MaybeFlush(Window(RecordAll(Empty, vs), lastDump), now, delay).report
        == Some(Averages(60.0, hi, lo))
  {
    var a := Estimation.Values(59.9, Estimation.Amplitude(hi, lo));
    var b := Estimation.Values(60.0, Estimation.Amplitude(hi, lo));
    var c := Estimation.Values(60.1, Estimation.Amplitude(hi, lo));
    var vs := [a, b, c];
    WindowMeans(vs, lastDump, now, delay);
    assert [c][1..] == [];
    assert [b, c][1..] == [c];
    assert vs[1..] == [b, c];
    assert SumHz([c]) == 60.1 && SumHi([c]) == hi && SumLo([c]) == lo;
    assert SumHz([b, c]) == 120.1 && SumHi([b, c]) == 2.0 * hi && SumLo([b, c]) == 2.0 * lo;
    assert SumHz(vs) == 180.0 && SumHi(vs) == 3.0 * hi && SumLo(vs) == 3.0 * lo;
  }

  /** The program's count is a 32-bit signed integer: its type is inferred
      from the literal it starts at. This is its largest value. */
  const I32Max: int := 0x7fff_ffff

  /** The count's increment as written, in a release build: two's-complement
      wrap-around past `I32Max`. A debug build panics there instead. */
  function IncrementAsWritten(count: int): (r: int)
    requires -I32Max - 1 <= count <= I32Max
    ensures -I32Max - 1 <= r <= I32Max
    ensures count < I32Max ==> r == count + 1
    ensures count == I32Max ==> r < 0
  {
    if count == I32Max then -I32Max - 1 else count + 1
  }

  /** The count as written after `k` estimates in one window, starting
      from the reset value 0. */
  function CountAfterAsWritten(k: nat): (c: int)
    ensures -I32Max - 1 <= c <= I32Max
  {
    if k == 0 then 0 else IncrementAsWritten(CountAfterAsWritten(k - 1))
  }

  /** Up to `I32Max` estimates, the count as written is the number of
      estimates. */
  lemma {:induction false} CountAfterAsWrittenExact(k: nat)
    requires k <= I32Max
    ensures CountAfterAsWritten(k) == k
  {
    if k > 0 {
      CountAfterAsWrittenExact(k - 1);
    }
  }

  /** The flush's report as written over the 32-bit count: the no-samples
      notice only for a zero count, otherwise each sum divided by the count. */
  function ReportAsWritten(count: int, sumHz: real, sumHi: real, sumLo: real): (r: Report)
    ensures r == NoSamplesCollectedYet <==> count == 0
    ensures count != 0 ==>
      && r.frequency * count as real == sumHz
      && r.amplitudeHi * count as real == sumHi
      && r.amplitudeLo * count as real == sumLo
  {
    if count == 0 then NoSamplesCollectedYet
    else Averages(sumHz / count as real, sumHi / count as real, sumLo / count as real)
  }

  /** After 2^31 estimates of a steady 60 Hz carrier in one window, the count
      as written has wrapped to -2^31, and the flush reports -60 Hz and
      negated envelope bounds instead of the means. */
  lemma CountWrapsAsWritten(hi: real, lo: real)
    ensures CountAfterAsWritten(I32Max + 1) == -(I32Max + 1)
    ensures var n := (I32Max + 1) as real;
      ReportAsWritten(CountAfterAsWritten(I32Max + 1), 60.0 * n, hi * n, lo * n) == Averages(-60.0, -hi, -lo)
  {
    CountAfterAsWrittenExact(I32Max);
    var n := (I32Max + 1) as real;
    var r := ReportAsWritten(-(I32Max + 1), 60.0 * n, hi * n, lo * n);
    assert r.frequency * -n == 60.0 * n;
    assert r.amplitudeHi * -n == hi * n;
    assert r.amplitudeLo * -n == lo * n;
  }
}
