/** Delivery: the next cart is the greedy, destructive prefix of the queue that
    never splits an order and never exceeds the cart capacity. */
module Delivery {
  import opened Entity
  import opened QueueState

  /** A queue cut in two: the orders loaded into the cart and those left behind. */
  datatype Split = Split(batch: seq<Order>, rest: seq<Order>)

  /** The delivery loop, continuing with `items` already in the cart: take the
      front order while it still fits, stop at the first one that does not. */
  function Take(cap: int, q: seq<Order>, items: int): (r: Split)
    ensures r.batch + r.rest == q
    ensures r.batch != [] ==> items + Sum(r.batch) <= cap
    ensures r.rest != [] ==> items + Sum(r.batch) + r.rest[0].quantity > cap
    decreases |q|
  {
    if |q| == 0 then Split([], [])
    else if items + q[0].quantity > cap then Split([], q)
    else
      var r := Take(cap, q[1..], items + q[0].quantity);
      assert ([q[0]] + r.batch)[1..] == r.batch;
      Split([q[0]] + r.batch, r.rest)
  }

  /** The next delivery: the cart is removed from the front of the queue. */
  function GetNextDelivery(cfg: Config, q: seq<Order>): (r: Step<seq<Order>>)
    ensures r.result + r.queue == q
    ensures 0 <= cfg.cartCapacity ==> Sum(r.result) <= cfg.cartCapacity
    ensures r.queue != [] ==> Sum(r.result) + r.queue[0].quantity > cfg.cartCapacity
    ensures q == [] ==> r.result == []
    ensures q != [] && q[0].quantity <= cfg.cartCapacity ==> r.result != [] && |r.queue| < |q|
  {
    var s := Take(cfg.cartCapacity, q, 0);
    Step(s.batch, s.rest)
  }

  /** Any prefix that fits is no longer than the one the loop takes (when no
      quantity is negative). */
  lemma {:induction false} TakeIsLongest(cap: int, q: seq<Order>, items: int, n: nat)
    requires forall o :: o in q ==> 0 <= o.quantity
    requires n <= |q| && items + Sum(q[..n]) <= cap
    ensures n <= |Take(cap, q, items).batch|
    decreases |q|
  {
    if 0 < n {
      var t := q[1..];
      SumPrefixFront(q, n);
      TakeIsLongest(cap, t, items + q[0].quantity, n - 1);
      TakeFront(cap, q, items);
    }
  }

  /** A non-empty prefix's total is its front quantity plus the rest of it,
      and is at least that front quantity. */
  lemma SumPrefixFront(q: seq<Order>, n: nat)
    requires forall o :: o in q ==> 0 <= o.quantity
    requires 0 < n <= |q|
    ensures Sum(q[..n]) == q[0].quantity + Sum(q[1..][..n - 1])
    ensures q[0].quantity <= Sum(q[..n])
  {
    assert q[..n][1..] == q[1..][..n - 1];
    SumNonNegative(q[1..][..n - 1]);
  }

  /** When the front order fits, it heads the cart and the loop goes on. */
  lemma TakeFront(cap: int, q: seq<Order>, items: int)
    requires 0 < |q| && items + q[0].quantity <= cap
    ensures |Take(cap, q, items).batch| == 1 + |Take(cap, q[1..], items + q[0].quantity).batch|
  {
  }

  /** The cart is the longest prefix of the queue whose total fits the capacity. */
  lemma NextDeliveryIsLongestFittingPrefix(cfg: Config, q: seq<Order>, n: nat)
    requires forall o :: o in q ==> 0 <= o.quantity
    requires n <= |q| && Sum(q[..n]) <= cfg.cartCapacity
    ensures n <= |GetNextDelivery(cfg, q).result|
  {
    TakeIsLongest(cfg.cartCapacity, q, 0, n);
  }

  /** Delivering keeps the queue invariant, since what is left is a suffix. */
  lemma NextDeliveryPreservesValid(cfg: Config, q: seq<Order>)
    requires Valid(cfg, q)
    ensures Valid(cfg, GetNextDelivery(cfg, q).queue)
  {
    var r := GetNextDelivery(cfg, q);
    assert r.queue == q[|r.result|..];
    SortedSuffix(q, |r.result|);
    UniqueSuffix(q, |r.result|);
  }

  /** How many deliveries leave before the one that carries client `id`. */
  function DeliveriesBefore(cfg: Config, q: seq<Order>, id: int): nat
    requires AllFit(cfg.cartCapacity, q) && HasClient(q, id)
    decreases |q|
  {
    var d := GetNextDelivery(cfg, q);
    if HasClient(d.result, id) then 0
    else
      assert q[0] in q;
      1 + DeliveriesBefore(cfg, d.queue, id)
  }
}
