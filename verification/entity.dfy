/** The entities of the order queue: one pending order, the status projection a
    client is given, and the comparator that ranks premium clients ahead of
    standard ones and otherwise serves first come, first served. */
module Entity {

  /** Client IDs up to and including this value belong to premium clients. */
  const PremiumClientsRange: int := 1000

  /** One client's pending order. `orderAdded` is the admission stamp: a natural
      number standing in for the wall-clock time at which the order was admitted. */
  datatype Order = Order(clientId: int, quantity: int, orderAdded: nat)

  /** What a client is told about its pending order: its 1-based position in the
      queue and the estimated wait in seconds. */
  datatype ClientOrderState = ClientOrderState(clientId: int, position: nat, waitTimeInSeconds: int)

  predicate IsPremiumCustomer(o: Order) {
    o.clientId <= PremiumClientsRange
  }

  /** The order's comparator: negative means `a` is served before `b`.
      It never answers 0, not even for equal stamps. */
  function CompareTo(a: Order, b: Order): (r: int)
    ensures r == -1 || r == 1
  {
    if IsPremiumCustomer(a) && !IsPremiumCustomer(b) then -1
    else if !IsPremiumCustomer(a) && IsPremiumCustomer(b) then 1
    else if a.orderAdded < b.orderAdded then -1
    else 1
  }

  /* The intended ranking, stated independently of the comparator as the
     lexicographic key (tier, admission stamp). */

  /** 0 for premium clients, 1 for standard ones; the lower tier is served first. */
  function Tier(o: Order): nat {
    if IsPremiumCustomer(o) then 0 else 1
  }

  /** `a` is strictly ahead of `b` by the key (tier, admission stamp). */
  predicate RankedBefore(a: Order, b: Order) {
    Tier(a) < Tier(b) || (Tier(a) == Tier(b) && a.orderAdded < b.orderAdded)
  }

  /** `a` may stand ahead of `b` in a queue sorted by (tier, admission stamp). */
  predicate RankedNoLater(a: Order, b: Order) {
    Tier(a) < Tier(b) || (Tier(a) == Tier(b) && a.orderAdded <= b.orderAdded)
  }

  /** The premium range is inclusive: client 1000 is premium, client 1001 is not. */
  lemma PremiumBoundary(quantity: int, stamp: nat)
    ensures IsPremiumCustomer(Order(PremiumClientsRange, quantity, stamp))
    ensures !IsPremiumCustomer(Order(PremiumClientsRange + 1, quantity, stamp))
    ensures forall o: Order :: IsPremiumCustomer(o) <==> o.clientId <= 1000
  {
  }

  lemma RankedNoLaterTransitive(a: Order, b: Order, c: Order)
    requires RankedNoLater(a, b) && RankedNoLater(b, c)
    ensures RankedNoLater(a, c)
  {
  }

  /** The comparator agrees with the key: a negative answer means strictly
      ahead, a positive one means the other order may stand ahead. */
  lemma CompareToMatchesRanking(a: Order, b: Order)
    ensures CompareTo(a, b) < 0 <==> RankedBefore(a, b)
    ensures CompareTo(a, b) > 0 <==> RankedNoLater(b, a)
  {
  }

  /** A premium order is ahead of a standard one whatever their stamps. */
  lemma PremiumBeforeStandard(a: Order, b: Order)
    requires IsPremiumCustomer(a) && !IsPremiumCustomer(b)
    ensures CompareTo(a, b) == -1 && CompareTo(b, a) == 1
  {
  }

  /** Within one tier the strictly earlier stamp is ahead; otherwise the answer is 1. */
  lemma SameTierFirstComeFirstServed(a: Order, b: Order)
    requires IsPremiumCustomer(a) == IsPremiumCustomer(b)
    ensures CompareTo(a, b) == -1 <==> a.orderAdded < b.orderAdded
    ensures CompareTo(a, b) == 1 <==> b.orderAdded <= a.orderAdded
  {
  }

  /** Equal stamps in one tier: each order compares as after the other, so the
      insertion step stops behind an order admitted at the same instant. */
  lemma EqualStampsCompareAfter(a: Order, b: Order)
    requires IsPremiumCustomer(a) == IsPremiumCustomer(b) && a.orderAdded == b.orderAdded
    ensures CompareTo(a, b) == 1 && CompareTo(b, a) == 1
  {
  }

  /** Whenever the tiers or the stamps differ, swapping the arguments negates the answer. */
  lemma CompareToAntisymmetric(a: Order, b: Order)
    requires IsPremiumCustomer(a) != IsPremiumCustomer(b) || a.orderAdded != b.orderAdded
    ensures CompareTo(a, b) == -CompareTo(b, a)
  {
  }

  /** "Compares as negative" is a strict order: irreflexive and transitive. */
  lemma CompareToNegativeIsStrictOrder()
    ensures forall a: Order :: CompareTo(a, a) > 0
    ensures forall a: Order, b: Order, c: Order ::
      CompareTo(a, b) < 0 && CompareTo(b, c) < 0 ==> CompareTo(a, c) < 0
  {
  }
}
