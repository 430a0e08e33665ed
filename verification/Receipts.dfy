/** How a publish acknowledgement is classified, checked and counted. */
module Receipts {

  datatype AdmissionStatus = Accepted | Filtered | Rejected

  datatype Destination = Destination(subscription: nat, status: AdmissionStatus)

  datatype Acknowledgement =
    | OpaqueAck
    | DestinationAdmissions(destinations: seq<Destination>)
    | DroppedByInterceptor

  datatype AdmissionSummary = AdmissionSummary(accepted: nat, filtered: nat, rejected: nat)

  datatype AdmissionOutcome =
    | OpaqueAccepted
    | FullyAccepted(summary: AdmissionSummary)
    | PartiallyAccepted(summary: AdmissionSummary)
    | NoneAccepted(summary: AdmissionSummary)
    | NoDestinations
    | Dropped

  datatype AdmissionRequirement = ProviderOrDestinationAccepted | AtLeastOneAccepted | AtLeastOneAcceptedAndNoRejected

  datatype AdmissionCheck = Passed | VisibilityUnavailable | WasDropped | NoAcceptedDestination | RejectedDestinations(count: nat)

  /** How many destinations have a status. */
  function Count(ds: seq<Destination>, status: AdmissionStatus): (n: nat) {
    if ds == [] then 0
    else Count(ds[..|ds| - 1], status) + if ds[|ds| - 1].status == status then 1 else 0
  }

  function Summary(ds: seq<Destination>): (s: AdmissionSummary) {
    AdmissionSummary(Count(ds, Accepted), Count(ds, Filtered), Count(ds, Rejected))
  }

  predicate Any(ds: seq<Destination>, status: AdmissionStatus) {
    exists i | 0 <= i < |ds| :: ds[i].status == status
  }

  function Outcome(ack: Acknowledgement): (o: AdmissionOutcome) {
    match ack
    case OpaqueAck => OpaqueAccepted
    case DroppedByInterceptor => Dropped
    case DestinationAdmissions(ds) =>
      if ds == [] then NoDestinations
      else if !Any(ds, Accepted) then NoneAccepted(Summary(ds))
      else if !Any(ds, Rejected) then FullyAccepted(Summary(ds))
      else PartiallyAccepted(Summary(ds))
  }

  lemma {:induction false} CountPositive(ds: seq<Destination>, status: AdmissionStatus)
    ensures Count(ds, status) > 0 <==> Any(ds, status)
  {
    if ds != [] {
      var last := |ds| - 1;
      CountPositive(ds[..last], status);
      if Any(ds[..last], status) {
        var i :| 0 <= i < last && ds[..last][i].status == status;
        assert ds[i].status == status;
      }
      if Any(ds, status) && ds[last].status != status {
        var i :| 0 <= i < |ds| && ds[i].status == status;
        assert ds[..last][i].status == status;
      }
    }
  }

  /** The counting loop of the acknowledgement. */
  method ClassifyAdmission(ack: Acknowledgement) returns (o: AdmissionOutcome)
    ensures o == Outcome(ack)
  {
    match ack {
      case OpaqueAck => return OpaqueAccepted;
      case DroppedByInterceptor => return Dropped;
      case DestinationAdmissions(ds) =>
        if ds == [] {
          return NoDestinations;
        }
        var summary := AdmissionSummary(0, 0, 0);
        var i := 0;
        while i < |ds|
          invariant 0 <= i <= |ds|
          invariant summary == Summary(ds[..i])
        {
          assert ds[..i + 1][..i] == ds[..i];
          match ds[i].status {
            case Accepted => summary := summary.(accepted := summary.accepted + 1);
            case Filtered => summary := summary.(filtered := summary.filtered + 1);
            case Rejected => summary := summary.(rejected := summary.rejected + 1);
          }
          i := i + 1;
        }
        assert ds[..|ds|] == ds;
        CountPositive(ds, Accepted);
        CountPositive(ds, Rejected);
        if summary.accepted == 0 {
          o := NoneAccepted(summary);
        } else if summary.rejected == 0 {
          o := FullyAccepted(summary);
        } else {
          o := PartiallyAccepted(summary);
        }
    }
  }

  /** Every destination has exactly one status, so the three counts add up. */
  lemma {:induction false} SummaryIsComplete(ds: seq<Destination>)
    ensures Count(ds, Accepted) + Count(ds, Filtered) + Count(ds, Rejected) == |ds|
  {
    if ds != [] {
      SummaryIsComplete(ds[..|ds| - 1]);
    }
  }

  function CheckAdmission(ack: Acknowledgement, requirement: AdmissionRequirement): (c: AdmissionCheck) {
    match Outcome(ack)
    case OpaqueAccepted => if requirement == ProviderOrDestinationAccepted then Passed else VisibilityUnavailable
    case Dropped => WasDropped
    case NoDestinations => NoAcceptedDestination
    case NoneAccepted(_) => NoAcceptedDestination
    case FullyAccepted(_) => Passed
    case PartiallyAccepted(summary) =>
      if requirement == AtLeastOneAcceptedAndNoRejected then RejectedDestinations(summary.rejected) else Passed
  }

  /** What each requirement means, and that each is stronger than the one before it. */
  lemma RequirementsMean(ack: Acknowledgement)
    ensures CheckAdmission(ack, ProviderOrDestinationAccepted).Passed? <==>
              ack.OpaqueAck? || (ack.DestinationAdmissions? && Any(ack.destinations, Accepted))
    ensures CheckAdmission(ack, AtLeastOneAccepted).Passed? <==> ack.DestinationAdmissions? && Any(ack.destinations, Accepted)
    ensures CheckAdmission(ack, AtLeastOneAcceptedAndNoRejected).Passed? <==>
              ack.DestinationAdmissions? && Any(ack.destinations, Accepted) && !Any(ack.destinations, Rejected)
    ensures CheckAdmission(ack, AtLeastOneAcceptedAndNoRejected).Passed? ==> CheckAdmission(ack, AtLeastOneAccepted).Passed?
    ensures CheckAdmission(ack, AtLeastOneAccepted).Passed? ==> CheckAdmission(ack, ProviderOrDestinationAccepted).Passed?
    ensures forall r :: CheckAdmission(ack, r).RejectedDestinations? ==>
              ack.DestinationAdmissions? && CheckAdmission(ack, r).count == Count(ack.destinations, Rejected) > 0
  {
    if ack.DestinationAdmissions? {
      CountPositive(ack.destinations, Rejected);
    }
  }

  // ----- order does not matter -----

  lemma {:induction false} CountIsMultiset(a: seq<Destination>, b: seq<Destination>, status: AdmissionStatus)
    requires multiset(a) == multiset(b)
    ensures Count(a, status) == Count(b, status)
  {
    assert |a| == |multiset(a)| == |multiset(b)| == |b|;
    if a != [] {
      var last := |a| - 1;
      assert a[last] in multiset(b);
      var j :| 0 <= j < |b| && b[j] == a[last];
      RemoveOne(b, j, status);
      Without(a, last);
      Without(b, j);
      assert a[..last] + a[last + 1..] == a[..last];
      Cancel(multiset(a[..last]), multiset(b[..j] + b[j + 1..]), a[last]);
      CountIsMultiset(a[..last], b[..j] + b[j + 1..], status);
    }
  }

  lemma Without(b: seq<Destination>, j: nat)
    requires j < |b|
    ensures multiset(b) == multiset(b[..j] + b[j + 1..]) + multiset{b[j]}
  {
    assert b == b[..j] + [b[j]] + b[j + 1..];
  }

  lemma Cancel(a: multiset<Destination>, b: multiset<Destination>, x: Destination)
    requires a + multiset{x} == b + multiset{x}
    ensures a == b
  {
    assert a == a + multiset{x} - multiset{x};
    assert b == b + multiset{x} - multiset{x};
  }

  lemma {:induction false} RemoveOne(b: seq<Destination>, j: nat, status: AdmissionStatus)
    requires j < |b|
    ensures Count(b, status) == Count(b[..j] + b[j + 1..], status) + if b[j].status == status then 1 else 0
  {
    var last := |b| - 1;
    if j == last {
      assert b[..j] + b[j + 1..] == b[..last];
    } else {
      RemoveOne(b[..last], j, status);
      var rest := b[..j] + b[j + 1..];
      assert rest[..|rest| - 1] == b[..last][..j] + b[..last][j + 1..];
      assert rest[|rest| - 1] == b[last];
    }
  }

  /** The outcome of an acknowledgement does not depend on the order its destinations are reported in. */
  lemma OutcomeIgnoresOrder(a: seq<Destination>, b: seq<Destination>)
    requires multiset(a) == multiset(b)
    ensures Outcome(DestinationAdmissions(a)) == Outcome(DestinationAdmissions(b))
    ensures forall r :: CheckAdmission(DestinationAdmissions(a), r) == CheckAdmission(DestinationAdmissions(b), r)
  {
    assert |a| == |multiset(a)| == |multiset(b)| == |b|;
    forall status ensures Count(a, status) == Count(b, status) && (Any(a, status) <==> Any(b, status)) {
      CountIsMultiset(a, b, status);
      CountPositive(a, status);
      CountPositive(b, status);
    }
  }

  // ----- batches -----

  /** One item of a batch: a receipt with its acknowledgement, or a failure. */
  datatype Item = Receipt(ack: Acknowledgement) | Failure

  predicate AcceptedItem(item: Item) {
    item.Receipt? && (item.ack.OpaqueAck? || (item.ack.DestinationAdmissions? && Any(item.ack.destinations, Accepted)))
  }

  predicate DroppedItem(item: Item) {
    item.Receipt? && item.ack.DroppedByInterceptor?
  }

  predicate FailedItem(item: Item) {
    item.Failure? || (item.ack.DestinationAdmissions? && Any(item.ack.destinations, Rejected))
  }

  function CountItems(items: seq<Item>, keep: Item -> bool): (n: nat) {
    if items == [] then 0 else CountItems(items[..|items| - 1], keep) + if keep(items[|items| - 1]) then 1 else 0
  }

  function AcceptedCount(items: seq<Item>): (n: nat) { CountItems(items, AcceptedItem) }

  function DroppedCount(items: seq<Item>): (n: nat) { CountItems(items, DroppedItem) }

  function FailureCount(items: seq<Item>): (n: nat) { CountItems(items, FailedItem) }

  predicate Passes(item: Item, requirement: AdmissionRequirement) {
    item.Receipt? && CheckAdmission(item.ack, requirement).Passed?
  }

  /** A receipt that is neither accepted, nor dropped, nor failed anywhere: nobody was there or all filtered it. */
  predicate SilentItem(item: Item) {
    item.Receipt? && item.ack.DestinationAdmissions? && forall i | 0 <= i < |item.ack.destinations| :: item.ack.destinations[i].status.Filtered?
  }

  predicate PartialItem(item: Item) {
    item.Receipt? && Outcome(item.ack).PartiallyAccepted?
  }

  lemma ItemCases(item: Item)
    ensures (if AcceptedItem(item) then 1 else 0) + (if DroppedItem(item) then 1 else 0)
            + (if FailedItem(item) then 1 else 0) + (if SilentItem(item) then 1 else 0)
            == 1 + if PartialItem(item) then 1 else 0
  {
  }

  /** The three batch counts cover the batch: only partial items count twice and only silent ones not at all. */
  lemma {:induction false} BatchCountsCover(items: seq<Item>)
    ensures AcceptedCount(items) + DroppedCount(items) + FailureCount(items) + CountItems(items, SilentItem)
            == |items| + CountItems(items, PartialItem)
  {
    if items != [] {
      BatchCountsCover(items[..|items| - 1]);
      ItemCases(items[|items| - 1]);
    }
  }

  /** The batch counts agree with checking each receipt: accepted is the weakest requirement, and the strictest
      one holds exactly for accepted items with visible destinations that did not fail. */
  lemma {:induction false} BatchAgreesWithChecks(items: seq<Item>)
    ensures AcceptedCount(items) == CountItems(items, item => Passes(item, ProviderOrDestinationAccepted))
    ensures CountItems(items, item => Passes(item, AtLeastOneAcceptedAndNoRejected))
            == CountItems(items, item => AcceptedItem(item) && !FailedItem(item) && item.ack.DestinationAdmissions?)
  {
    if items != [] {
      BatchAgreesWithChecks(items[..|items| - 1]);
      if items[|items| - 1].Receipt? {
        RequirementsMean(items[|items| - 1].ack);
      }
    }
  }
}
