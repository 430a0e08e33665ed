/** The provider-wide admission budget. */
module OutstandingBudgets {
  import opened Prelude

  /** The four saturating rejection counters. */
  datatype Tally = Tally(
    subscriptionClosed: nat,
    subscriptionCapacity: nat,
    providerCountCapacity: nat,
    providerWeightCapacity: nat)
  {
    function Of(kind: RejectionKind): (n: nat) {
      match kind
      case SubscriptionClosed => subscriptionClosed
      case SubscriptionCapacity => subscriptionCapacity
      case ProviderCountCapacity => providerCountCapacity
      case ProviderWeightCapacity => providerWeightCapacity
    }

    /** Bumps the counter of `kind` and no other. */
    function Count(kind: RejectionKind): (t: Tally)
      ensures forall k :: t.Of(k) == if k == kind then SaturatingInc(Of(k)) else Of(k)
    {
      match kind
      case SubscriptionClosed => this.(subscriptionClosed := SaturatingInc(subscriptionClosed))
      case SubscriptionCapacity => this.(subscriptionCapacity := SaturatingInc(subscriptionCapacity))
      case ProviderCountCapacity => this.(providerCountCapacity := SaturatingInc(providerCountCapacity))
      case ProviderWeightCapacity => this.(providerWeightCapacity := SaturatingInc(providerWeightCapacity))
    }
  }

  /** The integers guarded by the budget lock, with the immutable limits beside them. */
  datatype Budget = Budget(
    maxCount: nat,
    maxWeight: Option<nat>,
    count: nat,
    weight: nat,
    rejected: Tally)

  predicate RequiresWeight(b: Budget) {
    b.maxWeight.Some?
  }

  /** A declared weight only counts when the budget has a weight limit. */
  function EffectiveWeight(b: Budget, weight: Option<nat>): (w: nat) {
    if RequiresWeight(b) && weight.Some? then weight.value else 0
  }

  predicate LimitsOk(b: Budget) {
    && 0 < b.maxCount <= USIZE_MAX
    && (b.maxWeight.Some? ==> 0 < b.maxWeight.value <= USIZE_MAX)
  }

  /** No usage counter exceeds its limit; without a weight limit no weight is ever recorded. */
  predicate WithinLimits(b: Budget) {
    && LimitsOk(b)
    && b.count <= b.maxCount
    && b.weight <= if b.maxWeight.Some? then b.maxWeight.value else 0
  }

  function SaturatingInc(n: nat): (r: nat) {
    if n < U64_MAX then n + 1 else n
  }

  function CountRejection(b: Budget, kind: RejectionKind): (r: Budget)
  {
    b.(rejected := b.rejected.Count(kind))
  }

  /** Why the budget refuses one more copy of this weight, count before weight. */
  function Refusal(b: Budget, weight: nat): (r: Option<RejectionKind>) {
    if b.count + 1 > USIZE_MAX || b.count + 1 > b.maxCount then Some(ProviderCountCapacity)
    else if !RequiresWeight(b) then None
    else if b.weight + weight > USIZE_MAX || b.weight + weight > b.maxWeight.value then Some(ProviderWeightCapacity)
    else None
  }

  function Charge(b: Budget, weight: nat): (r: Budget) {
    b.(count := b.count + 1, weight := b.weight + if RequiresWeight(b) then weight else 0)
  }

  function Reserve(b: Budget, weight: nat): (r: Budget)
  {
    match Refusal(b, weight)
    case Some(kind) => CountRejection(b, kind)
    case None => Charge(b, weight)
  }

  function Released(b: Budget, count: nat, weight: nat): (r: Budget)
    requires count <= b.count && (RequiresWeight(b) ==> weight <= b.weight)
  {
    b.(count := b.count - count, weight := b.weight - if RequiresWeight(b) then weight else 0)
  }

  /** The object itself; every method body runs under the budget lock. */
  class OutstandingBudget {
    const maxCount: nat
    const maxWeight: Option<nat>
    var countUsed: nat
    var weightUsed: nat
    var rejectedSubscriptionClosed: nat
    var rejectedSubscriptionCapacity: nat
    var rejectedProviderCountCapacity: nat
    var rejectedProviderWeightCapacity: nat

    function State(): (b: Budget)
      reads this
    {
      Budget(maxCount, maxWeight, countUsed, weightUsed,
             Tally(rejectedSubscriptionClosed, rejectedSubscriptionCapacity,
                   rejectedProviderCountCapacity, rejectedProviderWeightCapacity))
    }

    constructor (maxCount: nat, maxWeight: Option<nat>)
      requires 0 < maxCount <= USIZE_MAX
      requires maxWeight.Some? ==> 0 < maxWeight.value <= USIZE_MAX
      ensures this.maxCount == maxCount && this.maxWeight == maxWeight
      ensures WithinLimits(State()) && State().count == 0 && State().weight == 0
      ensures State().rejected == Tally(0, 0, 0, 0)
    {
      this.maxCount, this.maxWeight := maxCount, maxWeight;
      countUsed, weightUsed := 0, 0;
      rejectedSubscriptionClosed, rejectedSubscriptionCapacity := 0, 0;
      rejectedProviderCountCapacity, rejectedProviderWeightCapacity := 0, 0;
    }

    /** Reserves one copy, or counts the first of the count and weight refusals and changes nothing else. */
    method TryReserve(weight: nat) returns (refusal: Option<RejectionKind>)
      requires LimitsOk(State()) && weight <= USIZE_MAX
      modifies this
      ensures State() == Reserve(old(State()), weight) && refusal == Refusal(old(State()), weight)
    {
      var w := if maxWeight.Some? then weight else 0;
      if countUsed == USIZE_MAX || countUsed + 1 > maxCount {
        rejectedProviderCountCapacity := SaturatingInc(rejectedProviderCountCapacity);
        return Some(ProviderCountCapacity);
      }
      if maxWeight.Some? && (weightUsed + w > USIZE_MAX || weightUsed + w > maxWeight.value) {
        rejectedProviderWeightCapacity := SaturatingInc(rejectedProviderWeightCapacity);
        return Some(ProviderWeightCapacity);
      }
      countUsed := countUsed + 1;
      weightUsed := weightUsed + w;
      refusal := None;
    }

    /** Counts a refusal made by a subscription queue; provider refusals are counted by `TryReserve`. */
    method RecordRejection(kind: RejectionKind)
      modifies this
      ensures State() == if kind.SubscriptionClosed? || kind.SubscriptionCapacity?
                         then CountRejection(old(State()), kind) else old(State())
    {
      match kind {
        case SubscriptionClosed => rejectedSubscriptionClosed := SaturatingInc(rejectedSubscriptionClosed);
        case SubscriptionCapacity => rejectedSubscriptionCapacity := SaturatingInc(rejectedSubscriptionCapacity);
        case _ =>
      }
    }

    /** The two preconditions are the two assertions of the source; callers prove that neither can fire. */
    method Release(count: nat, weight: nat)
      requires count <= countUsed
      requires RequiresWeight(State()) ==> weight <= weightUsed
      modifies this
      ensures State() == Released(old(State()), count, weight)
    {
      countUsed := countUsed - count;
      weightUsed := weightUsed - if maxWeight.Some? then weight else 0;
    }
  }
}
