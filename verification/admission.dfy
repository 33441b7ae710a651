/** Admission of an order: parameter checks, the duplicate-client check, and the
    insertion step that appends the order and swaps it backwards while it
    compares as ahead of its predecessor. */
module Admission {
  import opened Wrappers
  import opened Entity
  import opened QueueState

  /** Where the backward swap loop leaves a new order `x`: scanning from the
      back, it stops at the first predecessor that `x` compares as after. */
  function InsertionIndex(q: seq<Order>, x: Order): (k: nat)
    ensures k <= |q|
    ensures 0 < k ==> CompareTo(x, q[k - 1]) > 0
    ensures forall j :: k <= j < |q| ==> CompareTo(x, q[j]) < 0
    decreases |q|
  {
    if |q| == 0 then 0
    else if CompareTo(x, q[|q| - 1]) > 0 then |q|
    else InsertionIndex(q[..|q| - 1], x)
  }

  /** The two facts the swap loop establishes determine the stopping point. */
  lemma {:induction false} InsertionIndexUnique(q: seq<Order>, x: Order, i: nat)
    requires i <= |q|
    requires 0 < i ==> CompareTo(x, q[i - 1]) > 0
    requires forall j :: i <= j < |q| ==> CompareTo(x, q[j]) < 0
    ensures InsertionIndex(q, x) == i
    decreases |q|
  {
    if |q| > 0 && i < |q| {
      assert CompareTo(x, q[|q| - 1]) < 0;
      var p := q[..|q| - 1];
      assert forall j :: i <= j < |p| ==> p[j] == q[j];
      InsertionIndexUnique(p, x, i);
    }
  }

  /** `x` spliced in at index `k`: the other orders keep their relative order. */
  function Splice(q: seq<Order>, k: nat, x: Order): (r: seq<Order>)
    requires k <= |q|
    ensures |r| == |q| + 1 && r[k] == x
    ensures forall j :: 0 <= j < k ==> r[j] == q[j]
    ensures forall j :: k < j < |r| ==> r[j] == q[j - 1]
    ensures r[..k] + r[k + 1..] == q
    ensures multiset(r) == multiset(q) + multiset{x}
  {
    var r := q[..k] + [x] + q[k..];
    assert r[..k] == q[..k] && r[k + 1..] == q[k..];
    assert q == q[..k] + q[k..];
    assert multiset(r) == multiset(q[..k]) + multiset{x} + multiset(q[k..]);
    r
  }

  /** The queue after inserting `x` at its insertion index. */
  function InsertByPriority(q: seq<Order>, x: Order): (r: seq<Order>)
    ensures |r| == |q| + 1 && r[InsertionIndex(q, x)] == x
    ensures multiset(r) == multiset(q) + multiset{x}
  {
    Splice(q, InsertionIndex(q, x), x)
  }

  /** The insertion step as the service performs it: append, then swap the new
      order backwards until it compares as after its predecessor. */
  method AddOrderBasedOnPriority(q: seq<Order>, x: Order) returns (r: seq<Order>)
    ensures r == InsertByPriority(q, x)
  {
    r := q + [x];
    var i := |r| - 1;
    while i > 0
      invariant 0 <= i <= |q|
      invariant r == q[..i] + [x] + q[i..]
      invariant forall j :: i <= j < |q| ==> CompareTo(x, q[j]) < 0
      decreases i
    {
      assert r[i] == x && r[i - 1] == q[i - 1];
      if CompareTo(r[i], r[i - 1]) > 0 {
        InsertionIndexUnique(q, x, i);
        return;
      }
      r := r[i := r[i - 1]][i - 1 := r[i]];
      assert r == q[..i - 1] + [x] + q[i - 1..];
      i := i - 1;
    }
    InsertionIndexUnique(q, x, i);
  }

  /** Placing `x` between a prefix it may follow and a suffix it may precede
      keeps a sorted sequence sorted. */
  lemma SortedSplice(q: seq<Order>, k: nat, x: Order)
    requires Sorted(q) && k <= |q|
    requires 0 < k ==> RankedNoLater(q[k - 1], x)
    requires forall j :: k <= j < |q| ==> RankedNoLater(x, q[j])
    ensures Sorted(Splice(q, k, x))
  {
    forall i, j | 0 <= i < j < |q| + 1
      ensures RankedNoLater(Splice(q, k, x)[i], Splice(q, k, x)[j])
    {
      SortedSplicePair(q, k, x, i, j);
    }
  }

  /** Any two positions of the spliced sequence are in ranking order. */
  lemma SortedSplicePair(q: seq<Order>, k: nat, x: Order, i: nat, j: nat)
    requires Sorted(q) && k <= |q| && i < j <= |q|
    requires 0 < k ==> RankedNoLater(q[k - 1], x)
    requires forall j :: k <= j < |q| ==> RankedNoLater(x, q[j])
    ensures RankedNoLater(Splice(q, k, x)[i], Splice(q, k, x)[j])
  {
    if j <= k {
      SortedSpliceBefore(q, k, x, i, j);
    } else {
      SortedSpliceAfter(q, k, x, i, j);
    }
  }

  /** A pair of positions whose later one is at or before the new order. */
  lemma SortedSpliceBefore(q: seq<Order>, k: nat, x: Order, i: nat, j: nat)
    requires Sorted(q) && i < j <= k <= |q|
    requires RankedNoLater(q[k - 1], x)
    ensures RankedNoLater(Splice(q, k, x)[i], Splice(q, k, x)[j])
  {
    var r := Splice(q, k, x);
    if j < k {
      assert r[i] == q[i] && r[j] == q[j];
    } else {
      assert r[i] == q[i] && r[j] == x;
      if i < k - 1 {
        RankedNoLaterTransitive(q[i], q[k - 1], x);
      }
    }
  }

  /** A pair of positions whose later one is behind the new order. */
  lemma SortedSpliceAfter(q: seq<Order>, k: nat, x: Order, i: nat, j: nat)
    requires Sorted(q) && i < j && k < j <= |q|
    requires forall j :: k <= j < |q| ==> RankedNoLater(x, q[j])
    ensures RankedNoLater(Splice(q, k, x)[i], Splice(q, k, x)[j])
  {
    var r := Splice(q, k, x);
    assert r[j] == q[j - 1];
    if i == k {
      assert r[i] == x;
    } else if i < k {
      assert r[i] == q[i];
    } else {
      assert r[i] == q[i - 1];
    }
  }

  /** Inserting into a sorted queue keeps it sorted, whatever the new stamp. */
  lemma InsertKeepsSorted(q: seq<Order>, x: Order)
    ensures Sorted(q) ==> Sorted(InsertByPriority(q, x))
  {
    if Sorted(q) {
      var k := InsertionIndex(q, x);
      if 0 < k {
        CompareToMatchesRanking(x, q[k - 1]);
      }
      forall j | k <= j < |q|
        ensures RankedNoLater(x, q[j])
      {
        CompareToMatchesRanking(x, q[j]);
      }
      SortedSplice(q, k, x);
    }
  }

  /** Placing an order of a client not yet queued keeps client IDs unique. */
  lemma UniqueSplice(q: seq<Order>, k: nat, x: Order)
    requires UniqueClients(q) && k <= |q| && !HasClient(q, x.clientId)
    ensures UniqueClients(Splice(q, k, x))
  {
    forall i, j | 0 <= i < j < |q| + 1
      ensures Splice(q, k, x)[i].clientId != Splice(q, k, x)[j].clientId
    {
      UniqueSplicePair(q, k, x, i, j);
    }
  }

  /** Any two positions of the spliced sequence hold different clients. */
  lemma UniqueSplicePair(q: seq<Order>, k: nat, x: Order, i: nat, j: nat)
    requires UniqueClients(q) && k <= |q| && !HasClient(q, x.clientId)
    requires i < j <= |q|
    ensures Splice(q, k, x)[i].clientId != Splice(q, k, x)[j].clientId
  {
    if i == k || j == k {
      SpliceNewClient(q, k, x, if i == k then j else i);
    } else {
      SpliceQueuedClients(q, k, x, i, j);
    }
  }

  /** The new order's client differs from that at any other position. */
  lemma SpliceNewClient(q: seq<Order>, k: nat, x: Order, p: nat)
    requires k <= |q| && !HasClient(q, x.clientId)
    requires p <= |q| && p != k
    ensures Splice(q, k, x)[p].clientId != x.clientId
  {
    var m := if p < k then p else p - 1;
    assert Splice(q, k, x)[p] == q[m];
    assert q[m] in q;
  }

  /** Two positions other than the new order's hold different queued clients. */
  lemma SpliceQueuedClients(q: seq<Order>, k: nat, x: Order, i: nat, j: nat)
    requires UniqueClients(q) && k <= |q|
    requires i < j <= |q| && i != k && j != k
    ensures Splice(q, k, x)[i].clientId != Splice(q, k, x)[j].clientId
  {
    var a := if i < k then i else i - 1;
    var b := if j < k then j else j - 1;
    assert Splice(q, k, x)[i] == q[a] && Splice(q, k, x)[j] == q[b];
  }

  /** With a stamp no earlier than any queued stamp, the new order lands behind
      every queued order of its own tier and ahead of every order of a lower
      priority tier. */
  lemma InsertIsFirstComeFirstServed(q: seq<Order>, x: Order)
    requires forall o :: o in q ==> o.orderAdded <= x.orderAdded
    ensures forall j :: 0 <= j < |q| && Tier(q[j]) == Tier(x) ==> j < InsertionIndex(q, x)
    ensures forall j :: InsertionIndex(q, x) <= j < |q| ==> Tier(x) < Tier(q[j])
  {
    var k := InsertionIndex(q, x);
    forall j | k <= j < |q|
      ensures Tier(x) < Tier(q[j])
    {
      assert q[j] in q;
      CompareToMatchesRanking(x, q[j]);
    }
  }

  /** Admission of one order, stamped with `stamp`. The client ID is checked
      first, then the quantity, then that no order of that client is queued. */
  function AddOrder(cfg: Config, q: seq<Order>, order: OrderRequest, stamp: nat): (r: Step<Result<Order>>)
    ensures r.result.Err? ==> r.queue == q
    ensures ValidateClientId(cfg, order.clientId).Err? ==>
      r.result == Err(InvalidParameter(ClientIdParam))
    ensures ValidateClientId(cfg, order.clientId).Ok? && ValidateOrderQuantity(cfg, order.quantity).Err? ==>
      r.result == Err(InvalidParameter(QuantityParam))
    ensures ValidateClientId(cfg, order.clientId).Ok? && ValidateOrderQuantity(cfg, order.quantity).Ok? ==>
      && (r.result.Err? <==> HasClient(q, order.clientId.value))
      && (r.result.Err? ==> r.result.error == DuplicateClient)
    ensures r.result.Ok? ==>
      && r.result.value == Order(order.clientId.value, order.quantity.value, stamp)
      && multiset(r.queue) == multiset(q) + multiset{r.result.value}
    ensures r.result.Ok? && Sorted(q) ==> Sorted(r.queue)
  {
    match ValidateClientId(cfg, order.clientId)
    case Err(e) => Step(Err(e), q)
    case Ok(id) =>
      match ValidateOrderQuantity(cfg, order.quantity)
      case Err(e) => Step(Err(e), q)
      case Ok(quantity) =>
        if HasClient(q, id) then Step(Err(DuplicateClient), q)
        else
          var stored := Order(id, quantity, stamp);
          InsertKeepsSorted(q, stored);
          Step(Ok(stored), InsertByPriority(q, stored))
  }

  /** Inserting an admissible order of a client not yet queued keeps the queue
      invariant. */
  lemma InsertPreservesValid(cfg: Config, q: seq<Order>, x: Order)
    requires Valid(cfg, q) && Admissible(cfg, x) && !HasClient(q, x.clientId)
    ensures Valid(cfg, InsertByPriority(q, x))
  {
    var r := InsertByPriority(q, x);
    InsertKeepsSorted(q, x);
    UniqueSplice(q, InsertionIndex(q, x), x);
    forall o | o in r
      ensures Admissible(cfg, o)
    {
      assert o in multiset(r);
    }
  }

  /** Admission keeps the queue invariant: sorted, one order per client, every
      order within the parameter bounds. */
  lemma AddOrderPreservesValid(cfg: Config, q: seq<Order>, order: OrderRequest, stamp: nat)
    requires Valid(cfg, q)
    ensures Valid(cfg, AddOrder(cfg, q, order, stamp).queue)
  {
    var r := AddOrder(cfg, q, order, stamp);
    if r.result.Ok? {
      var x := r.result.value;
      assert Admissible(cfg, x) && !HasClient(q, x.clientId);
      AddOrderInserts(cfg, q, order, stamp);
      InsertPreservesValid(cfg, q, x);
    }
  }

  /** Successful admission with a monotonic stamp puts the new order behind
      every queued order of its own tier. */
  lemma AddOrderIsFirstComeFirstServed(cfg: Config, q: seq<Order>, order: OrderRequest, stamp: nat)
    requires order.clientId.Some? && 1 <= order.clientId.value <= cfg.maxClientId
    requires order.quantity.Some? && 1 <= order.quantity.value <= cfg.cartCapacity
    requires !HasClient(q, order.clientId.value)
    requires forall o :: o in q ==> o.orderAdded <= stamp
    ensures var r := AddOrder(cfg, q, order, stamp);
      var x := Order(order.clientId.value, order.quantity.value, stamp);
      var k := InsertionIndex(q, x);
      && r.result == Ok(x)
      && r.queue[k] == x
      && (forall j :: 0 <= j < k ==> r.queue[j] == q[j])
      && (forall j :: 0 <= j < |q| && Tier(q[j]) == Tier(x) ==> j < k)
  {
    var x := Order(order.clientId.value, order.quantity.value, stamp);
    AddOrderInserts(cfg, q, order, stamp);
    InsertIsFirstComeFirstServed(q, x);
  }

  /** Admitting a valid order of a client not yet queued succeeds, and the new
      queue is the priority insertion of the stamped order. */
  lemma AddOrderInserts(cfg: Config, q: seq<Order>, order: OrderRequest, stamp: nat)
    requires order.clientId.Some? && 1 <= order.clientId.value <= cfg.maxClientId
    requires order.quantity.Some? && 1 <= order.quantity.value <= cfg.cartCapacity
    requires !HasClient(q, order.clientId.value)
    ensures var r := AddOrder(cfg, q, order, stamp);
      var x := Order(order.clientId.value, order.quantity.value, stamp);
      r.result == Ok(x) && r.queue == InsertByPriority(q, x)
  {
  }
}
