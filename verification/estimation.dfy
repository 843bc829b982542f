/** The carrier-estimator session as the polling loop drives it: the
    interface of the estimator that the loop sees and one step of the loop's
    match over the estimator state. The carrier-detection algorithm is not
    modelled: what the estimator answers to a voltage read at a given time
    is an input. */
module Estimation {

  import opened Basics

  /** Envelope of the tracked waveform, in volts. */
  datatype Amplitude = Amplitude(max: real, min: real)

  /** One estimate: frequency in hertz and the envelope. */
  datatype Values = Values(frequency: real, amplitude: Amplitude)

  /** `Initializing`: no carrier identified. `Estimated`: a carrier is
      tracked, and `values` is the current estimate. */
  datatype Session = Initializing | Estimated(values: Values)

  /** Answer of an unlocked estimator to a voltage read: still no carrier,
      or a carrier detected with its first estimate. */
  datatype InitializingOp = InitIdle | CarrierDetected(values: Values)

  /** Answer of a locked estimator to a voltage read: still tracking, with
      the refreshed estimate, or the carrier is lost. */
  datatype EstimatedOp = EstimatedIdle(values: Values) | CarrierLost

  /** What the estimator answers in one iteration to a voltage read at a
      given time (nanoseconds), in each of its two states. */
  datatype Replies = Replies(
    whenInitializing: (nat, real) -> InitializingOp,
    whenEstimated: (nat, real) -> EstimatedOp)

  /** The session after one step, with the estimate this step yields. */
  datatype Observed = Observed(session: Session, estimate: Option<Values>)

  /** Feeds one voltage read at time `now` to the session. */
  function Step(s: Session, replies: Replies, now: nat, voltage: real): (r: Observed)
    // an estimate is yielded exactly when the session ends up tracking a carrier, and it is the tracked one
    ensures r.estimate.Some? <==> r.session.Estimated?
    ensures r.estimate.Some? ==> r.estimate.value == r.session.values
    // the estimator is asked about this very voltage at this very time
    ensures s.Initializing? ==>
      (r.session.Estimated? <==> replies.whenInitializing(now, voltage).CarrierDetected?)
    ensures s.Initializing? && r.session.Estimated? ==>
      r.session.values == replies.whenInitializing(now, voltage).values
    ensures s.Estimated? ==>
      (r.session.Initializing? <==> replies.whenEstimated(now, voltage).CarrierLost?)
    ensures s.Estimated? && r.session.Estimated? ==>
      r.session.values == replies.whenEstimated(now, voltage).values
  {
    match s
    case Initializing =>
      (match replies.whenInitializing(now, voltage)
       case InitIdle => Observed(Initializing, None)
       case CarrierDetected(values) => Observed(Estimated(values), Some(values)))
    case Estimated(_) =>
      (match replies.whenEstimated(now, voltage)
       case EstimatedIdle(values) => Observed(Estimated(values), Some(values))
       case CarrierLost => Observed(Initializing, None))
  }

  /** Losing the carrier records nothing and returns to `Initializing`;
      so does an unlocked estimator that still sees no carrier. */
  lemma NoCarrierNoEstimate(s: Session, replies: Replies, now: nat, voltage: real)
    requires s.Initializing? ==> replies.whenInitializing(now, voltage).InitIdle?
    requires s.Estimated? ==> replies.whenEstimated(now, voltage).CarrierLost?
    ensures Step(s, replies, now, voltage) == Observed(Initializing, None)
  {
  }
}
