/** Values shared by every part of the model. */
module Prelude {

  datatype Option<+T> = None | Some(value: T)

  // `usize` and `u64` are 64 bits wide in the model.
  const USIZE_MAX: nat := 0xFFFF_FFFF_FFFF_FFFF
  const U64_MAX: nat := 0xFFFF_FFFF_FFFF_FFFF

  /** Ordering key of a delivery; `None` names the unkeyed lane. */
  type Key = Option<string>

  /**
   * One delivery copy. `publication` is the identity of the publish call that produced it, so that
   * (publication, queue) names a copy; `notBefore` is an instant of the monotonic clock.
   */
  datatype LocalEvent = LocalEvent(
    publication: nat,
    eventId: string,
    key: Key,
    weight: nat,
    payloadType: nat,
    notBefore: Option<nat>)

  /** The delay of the event has elapsed at `now`. */
  predicate Eligible(e: LocalEvent, now: nat) {
    e.notBefore.None? || e.notBefore.value <= now
  }

  datatype RejectionKind =
    | SubscriptionClosed
    | SubscriptionCapacity
    | ProviderCountCapacity
    | ProviderWeightCapacity

  datatype Disposition = Accept | Retry | Reject

  datatype ShutdownOutcome = Complete | TimedOut
}
