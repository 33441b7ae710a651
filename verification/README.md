# Priority order queue — a Dafny model

This project models the order queue engine of the `prioqueue` service. The
engine keeps one list of pending client orders:

- **Ordering.** Premium clients (IDs up to 1000) are served before standard
  ones. Within a tier, orders are served first come, first served.
- **Admission** (`addOrder`). The client ID and quantity are validated and
  duplicate clients are refused. The order is then stamped and moved into
  place by a backward-swap insertion step.
- **Delivery** (`getNextDelivery`). The next cart is taken greedily from the
  front of the queue. It never splits an order and never exceeds the cart
  capacity.
- **Status** (`getClientOrderState`). It reports a client's 1-based position
  and an estimated wait. To do so it replays the same cart packing without
  changing the queue.
- **Cancellation** (`removeOrder`). It removes a client's order.

The queue is an immutable `seq<Order>`. Each service operation is a pure
function that returns a `Step(result, queue)`: the answer and the queue the
operation leaves behind. Exceptions become a `Result` with two error kinds:

- `InvalidParameter`, which names the rejected parameter;
- `DuplicateClient`.

Nullable `Long`/`Integer` inputs are `Option<int>`, and "no order found" is
`None`. The wall-clock admission time (`LocalDateTime.now()`) is a
natural-number `stamp` that the caller passes to `AddOrder`.

Modules, in dependency order:

- `Wrappers` — `Option`.
- `Entity` — `Order`, `ClientOrderState`, and the comparator `CompareTo`. It
  also has an independent ranking key (tier, stamp) that the comparator is
  proved to agree with.
- `QueueState` — the configuration, errors and `Step`; the queue invariants
  (`Sorted`, `UniqueClients`, `Valid`); parameter validation; the listing.
- `Admission` — the insertion index, the splice, the swap loop as a method,
  and `AddOrder`.
- `Delivery` — the greedy cart loop `Take`, `GetNextDelivery`, and
  `DeliveriesBefore` (repeated deliveries until the client's cart leaves).
- `Status` — the status walk and `GetClientOrderState`. This module holds
  the consistency proof: the walk's count of full carts equals the number of
  deliveries that leave before the client's.
- `Cancellation` — `RemoveIf` and `RemoveOrder`.
- `Scenarios` — a selection of the service's unit tests as lemmas, using the tests'
  configuration (client IDs up to 20000, carts of 25 items, 300 s per cart).
  The tests' admission times are the stamps `t`, `t + 1`, … for any `t`.

Source paths below are relative to the repository root.

## Model

| member | source | states |
|---|---|---|
| Entity.CompareTo | src/main/java/com/hanno/prioqueue/entity/OrderItem.java:25-34 | The comparator only ever answers -1 or 1, never 0. |
| Entity.IsPremiumCustomer | src/main/java/com/hanno/prioqueue/entity/OrderItem.java:36-38 | A client is premium when its ID is at most `PREMIUM_CLIENTS_RANGE`; the tier, the comparator and every ordering property are built on it. Its boundary is stated by `Entity.PremiumBoundary`. |
| Entity.PremiumBoundary | src/main/java/com/hanno/prioqueue/entity/OrderItem.java:36-38 | A client is premium exactly when its ID is at most `PREMIUM_CLIENTS_RANGE` (1000). The range is inclusive: 1000 is premium and 1001 is standard. |
| Entity.CompareToMatchesRanking | src/main/java/com/hanno/prioqueue/entity/OrderItem.java:26-34 | The comparator answers negative exactly when `a` ranks strictly ahead of `b` by (tier, stamp). It answers positive exactly when `b` may stand ahead of `a`. |
| Entity.PremiumBeforeStandard | src/main/java/com/hanno/prioqueue/entity/OrderItem.java:27-32 | Premium against standard answers -1, and standard against premium answers 1, whatever the stamps. |
| Entity.SameTierFirstComeFirstServed | src/main/java/com/hanno/prioqueue/entity/OrderItem.java:33-33 | Within one tier the answer is -1 exactly when `a`'s stamp is strictly earlier; otherwise it is 1. |
| Entity.EqualStampsCompareAfter | src/main/java/com/hanno/prioqueue/entity/OrderItem.java:33-33 | With equal stamps in one tier, each order compares as after the other. The insertion loop therefore stops behind the order that was already queued. |
| Entity.CompareToAntisymmetric | src/main/java/com/hanno/prioqueue/entity/OrderItem.java:26-34 | When the tiers or the stamps differ, swapping the arguments negates the answer. |
| Entity.CompareToNegativeIsStrictOrder | src/main/java/com/hanno/prioqueue/entity/OrderItem.java:26-34 | "Compares as negative" is irreflexive and transitive. |
| Entity.RankedNoLaterTransitive | src/main/java/com/hanno/prioqueue/entity/OrderItem.java:26-34 | The sort key's order is transitive, which is what makes "sorted" a pairwise property. |
| QueueState.ValidateClientId | src/main/java/com/hanno/prioqueue/service/InMemoryCustomPriorityOrderQueueService.java:115-120 | The ID is accepted exactly when it is present and in [1, maxClientId], and then it is passed on unchanged. Otherwise the error names the client-ID parameter. |
| QueueState.ValidateOrderQuantity | src/main/java/com/hanno/prioqueue/service/InMemoryCustomPriorityOrderQueueService.java:122-128 | The quantity is accepted exactly when it is present and in [1, cartCapacity]. Otherwise the error names the quantity parameter. |
| QueueState.ValidationBoundaries | src/test/java/com/hanno/prioqueue/service/InMemoryCustomPriorityOrderQueueServiceTest.java:64-132 | 1, maxClientId and cartCapacity are accepted. Missing values, 0, -1, maxClientId + 1 and cartCapacity + 1 are refused. |
| QueueState.GetAllOrders | src/main/java/com/hanno/prioqueue/service/InMemoryCustomPriorityOrderQueueService.java:51-55 | The listing is the queue front to back, and the queue is left as it was. |
| QueueState.SortedCons | src/main/java/com/hanno/prioqueue/service/InMemoryCustomPriorityOrderQueueService.java:102-102 | A queue with a head is sorted exactly when the head may stand ahead of every later order and the tail is sorted. |
| QueueState.UniqueCons | src/main/java/com/hanno/prioqueue/service/InMemoryCustomPriorityOrderQueueService.java:102-102 | A queue with a head has unique clients exactly when the tail does not hold the head's client and has unique clients itself. |
| Admission.InsertionIndex | src/main/java/com/hanno/prioqueue/service/InMemoryCustomPriorityOrderQueueService.java:107-111 | The backward scan stops at an index `k`. The new order compares as after the order at `k - 1`, and as before every order from `k` on. |
| Admission.InsertionIndexUnique | src/main/java/com/hanno/prioqueue/service/InMemoryCustomPriorityOrderQueueService.java:107-111 | Only one index has that property, so the scan's stopping point is determined by the comparator alone. |
| Admission.Splice | src/main/java/com/hanno/prioqueue/service/InMemoryCustomPriorityOrderQueueService.java:106-112 | Splicing an order in at `k` adds exactly that order. The orders before `k` stay put, the rest shift back one, and removing the order again gives the queue back. |
| Admission.InsertByPriority | src/main/java/com/hanno/prioqueue/service/InMemoryCustomPriorityOrderQueueService.java:105-113 | The inserted queue is the old one plus the new order as a multiset, with the new order at the insertion index. |
| Admission.AddOrderBasedOnPriority | src/main/java/com/hanno/prioqueue/service/InMemoryCustomPriorityOrderQueueService.java:105-113 | The append-then-swap loop, as written, computes the same queue as the priority splice. |
| Admission.SortedSplice | src/main/java/com/hanno/prioqueue/service/InMemoryCustomPriorityOrderQueueService.java:105-113 | Splicing an order between a prefix it may follow and a suffix it may precede keeps a sorted queue sorted. |
| Admission.InsertKeepsSorted | src/main/java/com/hanno/prioqueue/service/InMemoryCustomPriorityOrderQueueService.java:105-113 | Insertion keeps a sorted queue sorted, whatever the new order's stamp. |
| Admission.UniqueSplice | src/main/java/com/hanno/prioqueue/service/InMemoryCustomPriorityOrderQueueService.java:40-46 | Splicing in an order of a client not yet queued keeps client IDs unique. |
| Admission.InsertIsFirstComeFirstServed | src/main/java/com/hanno/prioqueue/service/InMemoryCustomPriorityOrderQueueService.java:105-113 | If the new stamp is no earlier than any queued stamp, the new order lands behind every order of its own tier. Every order behind it belongs to a lower-priority tier. |
| Admission.AddOrder | src/main/java/com/hanno/prioqueue/service/InMemoryCustomPriorityOrderQueueService.java:36-49 | The checks run in order: client ID, then quantity, then duplicate client. Each failure has its own error and leaves the queue unchanged. A duplicate is refused exactly when the client is already queued. On success the stored order carries the given ID, quantity and stamp, and the queue gains exactly that order and stays sorted. |
| Admission.AddOrderInserts | src/main/java/com/hanno/prioqueue/service/InMemoryCustomPriorityOrderQueueService.java:37-46 | Admitting a present, in-range ID and quantity for a client not yet queued succeeds with the stamped order. The new queue is that order's priority insertion. |
| Admission.InsertPreservesValid | src/main/java/com/hanno/prioqueue/service/InMemoryCustomPriorityOrderQueueService.java:40-46 | Inserting an admissible order of a new client keeps the queue sorted, one order per client, and within bounds. |
| Admission.AddOrderPreservesValid | src/main/java/com/hanno/prioqueue/service/InMemoryCustomPriorityOrderQueueService.java:36-49 | Every admission, successful or not, keeps that queue invariant. |
| Admission.AddOrderIsFirstComeFirstServed | src/main/java/com/hanno/prioqueue/service/InMemoryCustomPriorityOrderQueueService.java:44-46 | Admitting a valid new client, with a stamp no earlier than any queued stamp, succeeds. The orders ahead of the new one keep their places, and every same-tier order ends up ahead of it. |
| Delivery.Take | src/main/java/com/hanno/prioqueue/service/InMemoryCustomPriorityOrderQueueService.java:60-72 | The loop cuts the queue into cart and rest. The cart's items fit, and the first order left behind would overflow the cart. |
| Delivery.GetNextDelivery | src/main/java/com/hanno/prioqueue/service/InMemoryCustomPriorityOrderQueueService.java:57-73 | The delivery followed by the remaining queue is the old queue. The cart holds at most cartCapacity items, and the next order would not fit. An empty queue gives an empty cart. A non-empty queue whose front order fits gives a non-empty cart and a shorter queue. |
| Delivery.TakeIsLongest | src/main/java/com/hanno/prioqueue/service/InMemoryCustomPriorityOrderQueueService.java:62-69 | No prefix that fits is longer than the one the loop takes. |
| Delivery.NextDeliveryIsLongestFittingPrefix | src/main/java/com/hanno/prioqueue/service/InMemoryCustomPriorityOrderQueueService.java:57-73 | The delivery is the longest prefix of the queue that fits one cart. |
| Delivery.NextDeliveryPreservesValid | src/main/java/com/hanno/prioqueue/service/InMemoryCustomPriorityOrderQueueService.java:57-73 | What remains after a delivery still satisfies the queue invariant. |
| Status.StateWalk | src/main/java/com/hanno/prioqueue/service/InMemoryCustomPriorityOrderQueueService.java:78-96 | The walk finds nothing exactly when the client has no order queued. Otherwise it stops at the client's first order, and its count of positions is that order's index. |
| Status.GetClientOrderState | src/main/java/com/hanno/prioqueue/service/InMemoryCustomPriorityOrderQueueService.java:75-97 | It validates the client ID exactly as admission does and never changes the queue. It answers None exactly when the client is absent. Otherwise it reports the client's ID and a 1-based position that points at the client's first order. |
| Status.CartsAheadWhenFits | src/main/java/com/hanno/prioqueue/service/InMemoryCustomPriorityOrderQueueService.java:89-91 | When the next order fits, it joins the cart being packed, in the walk and in the delivery loop alike. |
| Status.WalkCountsDeliveries | src/main/java/com/hanno/prioqueue/service/InMemoryCustomPriorityOrderQueueService.java:78-95 | From any point in the walk, its count of full carts equals the carts the delivery loop would send off before the client's cart. |
| Status.WaitTimeCountsDeliveries | src/main/java/com/hanno/prioqueue/service/InMemoryCustomPriorityOrderQueueService.java:85-93 | If no order exceeds a cart, the reported wait is the pickup timeout times the number of `getNextDelivery` calls that leave before the one carrying the client's order. |
| Status.PositionMatchesListing | src/main/java/com/hanno/prioqueue/service/InMemoryCustomPriorityOrderQueueService.java:83-93 | With one order per client, the reported position is 1 plus the client's index in the listing. |
| Cancellation.RemoveIf | src/main/java/com/hanno/prioqueue/service/InMemoryCustomPriorityOrderQueueService.java:102-102 | The filter keeps exactly the orders of other clients. It shortens the queue exactly when the client was present. |
| Cancellation.RemoveOrder | src/main/java/com/hanno/prioqueue/service/InMemoryCustomPriorityOrderQueueService.java:99-103 | An invalid ID is an error and changes nothing. Otherwise the answer is whether the client was queued, no order of that client remains, and every other order stays. |
| Cancellation.RemoveIfAbsent | src/main/java/com/hanno/prioqueue/service/InMemoryCustomPriorityOrderQueueService.java:102-102 | Removing an absent client changes nothing. |
| Cancellation.RemoveIfIsSplice | src/main/java/com/hanno/prioqueue/service/InMemoryCustomPriorityOrderQueueService.java:102-102 | With one order per client, removing the client at index `k` cuts out exactly index `k`. |
| Cancellation.RemoveIfKeepsSorted | src/main/java/com/hanno/prioqueue/service/InMemoryCustomPriorityOrderQueueService.java:102-102 | Removal keeps the other orders in their relative order, so a sorted queue stays sorted. |
| Cancellation.RemoveIfKeepsUnique | src/main/java/com/hanno/prioqueue/service/InMemoryCustomPriorityOrderQueueService.java:102-102 | Removal keeps client IDs unique. |
| Cancellation.RemoveOrderPreservesValid | src/main/java/com/hanno/prioqueue/service/InMemoryCustomPriorityOrderQueueService.java:99-103 | Cancellation keeps the queue invariant. |
| Cancellation.RemoveOrderRemovesOnlyThatOrder | src/main/java/com/hanno/prioqueue/service/InMemoryCustomPriorityOrderQueueService.java:99-103 | Cancelling a queued client answers true and leaves the queue without exactly that order. |
| Cancellation.RemoveOrderTwice | src/main/java/com/hanno/prioqueue/service/InMemoryCustomPriorityOrderQueueService.java:99-103 | A second cancellation answers false and changes nothing. |
| Scenarios.AdmitStep | src/main/java/com/hanno/prioqueue/service/InMemoryCustomPriorityOrderQueueService.java:36-49 | Admitting a valid new client whose stopping index is `k` splices the stamped order in at `k`. |
| Scenarios.AdmitAtBack | src/main/java/com/hanno/prioqueue/service/InMemoryCustomPriorityOrderQueueService.java:106-110 | An order that compares as after the last queued order is appended. |
| Scenarios.AdmitIntoEmpty | src/main/java/com/hanno/prioqueue/service/InMemoryCustomPriorityOrderQueueService.java:36-49 | Admitting into an empty queue gives the one stamped order. |
| Scenarios.AdmitPremium | src/main/java/com/hanno/prioqueue/service/InMemoryCustomPriorityOrderQueueService.java:105-113 | A new premium order lands behind all earlier premium orders and ahead of all standard ones. |
| Scenarios.PrioritisationScenario | src/test/java/com/hanno/prioqueue/service/InMemoryCustomPriorityOrderQueueServiceTest.java:35-56 | Admitting 101, 1001, 102, 1002, 1003, 103 and 1000 in turn lists them as 101, 102, 103, 1000, 1001, 1002, 1003. |
| Scenarios.InvalidParameterScenario | src/test/java/com/hanno/prioqueue/service/InMemoryCustomPriorityOrderQueueServiceTest.java:64-132 | Each invalid client ID (missing, -1, 20001) and quantity (missing, 0, -1, 26) from the tests is refused with the matching parameter error. The bounds 20000 and 25 are admitted. |
| Scenarios.DuplicateScenario | src/test/java/com/hanno/prioqueue/service/InMemoryCustomPriorityOrderQueueServiceTest.java:134-146 | A second order from client 11 is refused as a duplicate, and the first order keeps quantity 1. |
| Scenarios.TwoOrdersDeliveryScenario | src/test/java/com/hanno/prioqueue/service/InMemoryCustomPriorityOrderQueueServiceTest.java:170-187 | Orders of 20 and 5 items fill one cart of 25 together. That delivery carries both, in arrival order, and leaves the queue and the next cart empty. |
| Scenarios.PartialDeliveryScenario | src/test/java/com/hanno/prioqueue/service/InMemoryCustomPriorityOrderQueueServiceTest.java:189-218 | Orders of 20, 6 and 4 items go out as carts [11] and then [12, 13], after which the queue and the next cart are empty. |
| Scenarios.SingleCartStatusScenario | src/test/java/com/hanno/prioqueue/service/InMemoryCustomPriorityOrderQueueServiceTest.java:253-274 | Two orders sharing one cart are at positions 1 and 2, and neither waits. |
| Scenarios.TwoCartsStatusScenario | src/test/java/com/hanno/prioqueue/service/InMemoryCustomPriorityOrderQueueServiceTest.java:276-312 | Behind a full cart, client 2 is at position 2 with a 300 s wait, and client 1 is at position 1 with no wait. An absent client gets no status. |
| Scenarios.CancellationScenario | src/test/java/com/hanno/prioqueue/service/InMemoryCustomPriorityOrderQueueServiceTest.java:341-395 | Cancelling on an empty queue answers false. Cancelling client 1 of two answers true and leaves only client 2's order. |
| Scenarios.RemoveAbsentScenario | src/test/java/com/hanno/prioqueue/service/InMemoryCustomPriorityOrderQueueServiceTest.java:364-377 | Cancelling client 99, who is not queued, answers false and leaves client 1's order in place. |

## Left out

- `InMemoryPriorityOrderQueueService` is not modelled. It wraps `java.util.PriorityQueue`, whose iteration order is heap order, and the controller wires the custom implementation instead.
- HTTP and framework plumbing is not modelled: the controller, the exception handlers, the Swagger and application configuration, and the exception classes. Exceptions are the `Err` cases of `Result`. Messages and logging (`logOrderState`, `log.*`) are omitted.
- Admission time: `LocalDateTime.now()` is the `stamp` parameter of `AddOrder`. Sortedness is proved for any stamp. First come, first served within a tier assumes the stamp is no earlier than any queued stamp, because the wall clock is not guaranteed to be monotonic.
- Objects and Lombok: Java object identity, the aliasing of the caller's `OrderItem` (which `addOrder` mutates and stores), and Lombok's generated methods are omitted. Orders are values.
- The null order: `addOrder(null)` throws `NullPointerException` through `@NonNull`. A Dafny datatype value cannot be null, so the case cannot arise.
- Integer widths: integers are unbounded. The cart sums `itemsInTheCart + order.getQuantity()` (service lines 64 and 86) are Java `int` additions. Each operand is at most `cartCapacity`, so the model is faithful only while 2 · `cartCapacity` ≤ `Integer.MAX_VALUE`. With a larger capacity the Java sum can wrap to a negative value, and then `GetNextDelivery`'s bound `Sum(r.result) <= cfg.cartCapacity` need not hold for the Java code. The `int`-times-`long` wait product is computed in `long` and is not modelled as wrapping either.
- Status.WaitTimeCountsDeliveries: this requires every quantity to be at most the cart capacity. The service's quantity validation guarantees that for every admitted order. With a larger order, the walk counts an empty cart as full, while the delivery loop stalls on an empty cart instead.
- Configuration: `Config` values are taken as given. The service does not check them, and neither does the model. The one assumption is the integer-width bound above: 2 · `cartCapacity` ≤ `Integer.MAX_VALUE`.
