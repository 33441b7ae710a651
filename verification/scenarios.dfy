/** The service's test scenarios, stated as facts about the model with the
    tests' configuration: client IDs up to 20000, carts of 25 items, and 300
    seconds per cart. */
module Scenarios {
  import opened Wrappers
  import opened Entity
  import opened QueueState
  import opened Admission
  import opened Delivery
  import opened Status
  import opened Cancellation

  const TestConfig := Config(20000, 25, 300)

  function Ids(q: seq<Order>): (r: seq<int>)
    ensures |r| == |q|
    ensures forall i :: 0 <= i < |q| ==> r[i] == q[i].clientId
  {
    if |q| == 0 then [] else [q[0].clientId] + Ids(q[1..])
  }

  /** Admits `clientId` with `quantity` at time `stamp` into `q`, keeping the
      queue even when admission fails. */
  function Admit(q: seq<Order>, clientId: int, quantity: int, stamp: nat): seq<Order> {
    AddOrder(TestConfig, q, OrderRequest(Some(clientId), Some(quantity)), stamp).queue
  }

  /** Premium clients (IDs up to 1000) first, each tier in admission order:
      101, 1001, 102, 1002, 1003, 103 and 1000 admitted in that order are served
      as 101, 102, 103, 1000, 1001, 1002, 1003. */
  lemma PrioritisationScenario(t: nat)
    ensures
      var q1 := Admit([], 101, 1, t);
      var q2 := Admit(q1, 1001, 11, t + 1);
      var q3 := Admit(q2, 102, 2, t + 2);
      var q4 := Admit(q3, 1002, 12, t + 3);
      var q5 := Admit(q4, 1003, 13, t + 4);
      var q6 := Admit(q5, 103, 3, t + 5);
      var q7 := Admit(q6, 1000, 4, t + 6);
      Ids(q7) == [101, 102, 103, 1000, 1001, 1002, 1003]
  {
    AdmitIntoEmpty(101, 1, t);
    PrioritisationFrom1(t, Admit([], 101, 1, t));
  }

  lemma PrioritisationFrom1(t: nat, q1: seq<Order>)
    requires q1 == [Order(101, 1, t)]
    ensures
      var q2 := Admit(q1, 1001, 11, t + 1);
      var q3 := Admit(q2, 102, 2, t + 2);
      var q4 := Admit(q3, 1002, 12, t + 3);
      var q5 := Admit(q4, 1003, 13, t + 4);
      var q6 := Admit(q5, 103, 3, t + 5);
      var q7 := Admit(q6, 1000, 4, t + 6);
      Ids(q7) == [101, 102, 103, 1000, 1001, 1002, 1003]
  {
    AdmitAtBack(q1, 1001, 11, t + 1);
    PrioritisationFrom2(t, Admit(q1, 1001, 11, t + 1));
  }

  lemma PrioritisationFrom2(t: nat, q2: seq<Order>)
    requires q2 == [Order(101, 1, t)] + [Order(1001, 11, t + 1)]
    ensures
      var q3 := Admit(q2, 102, 2, t + 2);
      var q4 := Admit(q3, 1002, 12, t + 3);
      var q5 := Admit(q4, 1003, 13, t + 4);
      var q6 := Admit(q5, 103, 3, t + 5);
      var q7 := Admit(q6, 1000, 4, t + 6);
      Ids(q7) == [101, 102, 103, 1000, 1001, 1002, 1003]
  {
    AdmitPremium([Order(101, 1, t)], [Order(1001, 11, t + 1)], 102, 2, t + 2);
    PrioritisationFrom3(t, Admit(q2, 102, 2, t + 2));
  }

  lemma PrioritisationFrom3(t: nat, q3: seq<Order>)
    requires q3 == [Order(101, 1, t)] + [Order(102, 2, t + 2)] + [Order(1001, 11, t + 1)]
    ensures
      var q4 := Admit(q3, 1002, 12, t + 3);
      var q5 := Admit(q4, 1003, 13, t + 4);
      var q6 := Admit(q5, 103, 3, t + 5);
      var q7 := Admit(q6, 1000, 4, t + 6);
      Ids(q7) == [101, 102, 103, 1000, 1001, 1002, 1003]
  {
    var a, b, c := Order(101, 1, t), Order(102, 2, t + 2), Order(1001, 11, t + 1);
    assert q3 == [a, b, c];
    AdmitAtBack(q3, 1002, 12, t + 3);
    PrioritisationFrom4(t, Admit(q3, 1002, 12, t + 3));
  }

  lemma PrioritisationFrom4(t: nat, q4: seq<Order>)
    requires q4 == [Order(101, 1, t), Order(102, 2, t + 2), Order(1001, 11, t + 1)] + [Order(1002, 12, t + 3)]
    ensures
      var q5 := Admit(q4, 1003, 13, t + 4);
      var q6 := Admit(q5, 103, 3, t + 5);
      var q7 := Admit(q6, 1000, 4, t + 6);
      Ids(q7) == [101, 102, 103, 1000, 1001, 1002, 1003]
  {
    var a, b, c, d := Order(101, 1, t), Order(102, 2, t + 2), Order(1001, 11, t + 1), Order(1002, 12, t + 3);
    assert q4 == [a, b, c, d];
    AdmitAtBack(q4, 1003, 13, t + 4);
    PrioritisationFrom5(t, Admit(q4, 1003, 13, t + 4));
  }

  lemma PrioritisationFrom5(t: nat, q5: seq<Order>)
    requires q5 == [Order(101, 1, t), Order(102, 2, t + 2), Order(1001, 11, t + 1), Order(1002, 12, t + 3)]
                 + [Order(1003, 13, t + 4)]
    ensures
      var q6 := Admit(q5, 103, 3, t + 5);
      var q7 := Admit(q6, 1000, 4, t + 6);
      Ids(q7) == [101, 102, 103, 1000, 1001, 1002, 1003]
  {
    var a, b, c, d, e := Order(101, 1, t), Order(102, 2, t + 2), Order(1001, 11, t + 1),
                         Order(1002, 12, t + 3), Order(1003, 13, t + 4);
    assert q5 == [a, b] + [c, d, e];
    AdmitPremium([a, b], [c, d, e], 103, 3, t + 5);
    PrioritisationFrom6(t, Admit(q5, 103, 3, t + 5));
  }

  lemma PrioritisationFrom6(t: nat, q6: seq<Order>)
    requires q6 == [Order(101, 1, t), Order(102, 2, t + 2)] + [Order(103, 3, t + 5)]
                 + [Order(1001, 11, t + 1), Order(1002, 12, t + 3), Order(1003, 13, t + 4)]
    ensures Ids(Admit(q6, 1000, 4, t + 6)) == [101, 102, 103, 1000, 1001, 1002, 1003]
  {
    var a, b, f := Order(101, 1, t), Order(102, 2, t + 2), Order(103, 3, t + 5);
    var c, d, e := Order(1001, 11, t + 1), Order(1002, 12, t + 3), Order(1003, 13, t + 4);
    var g := Order(1000, 4, t + 6);
    assert q6 == [a, b, f] + [c, d, e];
    AdmitPremium([a, b, f], [c, d, e], 1000, 4, t + 6);
    IdsOfSeven(a, b, f, g, c, d, e);
  }

  lemma IdsOfSeven(a: Order, b: Order, c: Order, d: Order, e: Order, f: Order, g: Order)
    ensures Ids([a, b, c] + [d] + [e, f, g])
         == [a.clientId, b.clientId, c.clientId, d.clientId, e.clientId, f.clientId, g.clientId]
  {
    assert [a, b, c] + [d] + [e, f, g] == [a, b, c, d, e, f, g];
  }

  /** A premium order lands behind every queued premium order (all admitted
      earlier) and ahead of every standard order. */
  lemma AdmitPremium(premium: seq<Order>, standard: seq<Order>, clientId: int, quantity: int, stamp: nat)
    requires 1 <= clientId <= PremiumClientsRange && 1 <= quantity <= TestConfig.cartCapacity
    requires forall o :: o in premium ==> IsPremiumCustomer(o) && o.orderAdded < stamp && o.clientId != clientId
    requires forall o :: o in standard ==> !IsPremiumCustomer(o)
    ensures Admit(premium + standard, clientId, quantity, stamp)
         == premium + [Order(clientId, quantity, stamp)] + standard
  {
    var q, k, x := premium + standard, |premium|, Order(clientId, quantity, stamp);
    forall o | o in q
      ensures o.clientId != clientId
    {
      assert o in premium || o in standard;
    }
    if 0 < k {
      assert q[k - 1] == premium[k - 1];
    }
    forall j | k <= j < |q|
      ensures CompareTo(x, q[j]) < 0
    {
      assert q[j] == standard[j - k];
    }
    assert q[..k] == premium && q[k..] == standard;
    AdmitStep(q, clientId, quantity, stamp, k);
  }

  lemma AdmitIntoEmpty(clientId: int, quantity: int, stamp: nat)
    requires 1 <= clientId <= TestConfig.maxClientId && 1 <= quantity <= TestConfig.cartCapacity
    ensures Admit([], clientId, quantity, stamp) == [Order(clientId, quantity, stamp)]
  {
    AdmitAtBack([], clientId, quantity, stamp);
  }

  /** A new order that compares as after the current last order goes to the back. */
  lemma AdmitAtBack(q: seq<Order>, clientId: int, quantity: int, stamp: nat)
    requires 1 <= clientId <= TestConfig.maxClientId && 1 <= quantity <= TestConfig.cartCapacity
    requires forall o :: o in q ==> o.clientId != clientId
    requires 0 < |q| ==> CompareTo(Order(clientId, quantity, stamp), q[|q| - 1]) > 0
    ensures Admit(q, clientId, quantity, stamp) == q + [Order(clientId, quantity, stamp)]
  {
    SpliceAtEnd(q, Order(clientId, quantity, stamp));
    AdmitStep(q, clientId, quantity, stamp, |q|);
  }

  lemma SpliceAtEnd(q: seq<Order>, x: Order)
    ensures q[..|q|] + [x] + q[|q|..] == q + [x]
  {
    assert q[..|q|] == q && q[|q|..] == [];
  }

  /** One admission of a new client into a sorted queue, with the index at which
      the backward scan stops. */
  lemma AdmitStep(q: seq<Order>, clientId: int, quantity: int, stamp: nat, k: nat)
    requires 1 <= clientId <= TestConfig.maxClientId && 1 <= quantity <= TestConfig.cartCapacity
    requires forall o :: o in q ==> o.clientId != clientId
    requires k <= |q|
    requires 0 < k ==> CompareTo(Order(clientId, quantity, stamp), q[k - 1]) > 0
    requires forall j :: k <= j < |q| ==> CompareTo(Order(clientId, quantity, stamp), q[j]) < 0
    ensures Admit(q, clientId, quantity, stamp) == q[..k] + [Order(clientId, quantity, stamp)] + q[k..]
  {
    InsertionIndexUnique(q, Order(clientId, quantity, stamp), k);
  }

  /** A second order of a queued client is refused and the first is kept as it was. */
  lemma DuplicateScenario(t: nat)
    ensures var r := AddOrder(TestConfig, Admit([], 11, 1, t), OrderRequest(Some(11), Some(2)), t + 1);
      r.result == Err(DuplicateClient) && r.queue == [Order(11, 1, t)]
  {
    AdmitIntoEmpty(11, 1, t);
    DuplicateAfterFirst(t, Admit([], 11, 1, t));
  }

  lemma DuplicateAfterFirst(t: nat, q: seq<Order>)
    requires q == [Order(11, 1, t)]
    ensures var r := AddOrder(TestConfig, q, OrderRequest(Some(11), Some(2)), t + 1);
      r.result == Err(DuplicateClient) && r.queue == [Order(11, 1, t)]
  {
    assert q[0] in q;
  }

  /** Parameter checks at and beyond the configured bounds. */
  lemma InvalidParameterScenario(t: nat)
    ensures AddOrder(TestConfig, [], OrderRequest(None, Some(1)), t).result == Err(InvalidParameter(ClientIdParam))
    ensures AddOrder(TestConfig, [], OrderRequest(Some(-1), Some(1)), t).result == Err(InvalidParameter(ClientIdParam))
    ensures AddOrder(TestConfig, [], OrderRequest(Some(20001), Some(1)), t).result == Err(InvalidParameter(ClientIdParam))
    ensures AddOrder(TestConfig, [], OrderRequest(Some(1), None), t).result == Err(InvalidParameter(QuantityParam))
    ensures AddOrder(TestConfig, [], OrderRequest(Some(1), Some(0)), t).result == Err(InvalidParameter(QuantityParam))
    ensures AddOrder(TestConfig, [], OrderRequest(Some(1), Some(-1)), t).result == Err(InvalidParameter(QuantityParam))
    ensures AddOrder(TestConfig, [], OrderRequest(Some(1), Some(26)), t).result == Err(InvalidParameter(QuantityParam))
    ensures Admit([], 20000, 1, t) == [Order(20000, 1, t)]
    ensures Admit([], 1, 25, t) == [Order(1, 25, t)]
  {
    AdmitIntoEmpty(20000, 1, t);
    AdmitIntoEmpty(1, 25, t);
  }

  /** Clients 11, 12 and 13, all of the premium tier, queue in arrival order. */
  lemma PartialDeliveryQueue(t: nat)
    ensures Admit(Admit(Admit([], 11, 20, t), 12, 6, t + 1), 13, 4, t + 2)
         == [Order(11, 20, t), Order(12, 6, t + 1), Order(13, 4, t + 2)]
  {
    AdmitIntoEmpty(11, 20, t);
    PartialDeliveryAfterFirst(t, Admit([], 11, 20, t));
  }

  lemma PartialDeliveryAfterFirst(t: nat, q: seq<Order>)
    requires q == [Order(11, 20, t)]
    ensures Admit(Admit(q, 12, 6, t + 1), 13, 4, t + 2)
         == [Order(11, 20, t), Order(12, 6, t + 1), Order(13, 4, t + 2)]
  {
    AdmitAtBack(q, 12, 6, t + 1);
    PartialDeliveryAfterSecond(t, Admit(q, 12, 6, t + 1));
  }

  lemma PartialDeliveryAfterSecond(t: nat, q: seq<Order>)
    requires q == [Order(11, 20, t)] + [Order(12, 6, t + 1)]
    ensures Admit(q, 13, 4, t + 2) == [Order(11, 20, t), Order(12, 6, t + 1), Order(13, 4, t + 2)]
  {
    var a, b, c := Order(11, 20, t), Order(12, 6, t + 1), Order(13, 4, t + 2);
    assert q == [a, b];
    AdmitAtBack(q, 13, 4, t + 2);
    assert q + [c] == [a, b, c];
  }

  /** Clients 11 and 12 queue in arrival order. */
  lemma TwoOrdersQueue(t: nat)
    ensures Admit(Admit([], 11, 20, t), 12, 5, t + 1) == [Order(11, 20, t), Order(12, 5, t + 1)]
  {
    AdmitIntoEmpty(11, 20, t);
    TwoOrdersAfterFirst(t, Admit([], 11, 20, t));
  }

  lemma TwoOrdersAfterFirst(t: nat, q: seq<Order>)
    requires q == [Order(11, 20, t)]
    ensures Admit(q, 12, 5, t + 1) == [Order(11, 20, t), Order(12, 5, t + 1)]
  {
    AdmitAtBack(q, 12, 5, t + 1);
  }

  /** 20 + 5 fills a cart of 25 exactly, so one delivery carries both orders
      and leaves nothing for the next. */
  lemma TwoOrdersDeliveryScenario(t: nat)
    ensures var q := Admit(Admit([], 11, 20, t), 12, 5, t + 1);
      var d1 := GetNextDelivery(TestConfig, q);
      var d2 := GetNextDelivery(TestConfig, d1.queue);
      Ids(d1.result) == [11, 12] && Sum(d1.result) == 25 && d1.queue == [] && d2.result == []
  {
    TwoOrdersQueue(t);
    TwoOrdersDelivery(t, Admit(Admit([], 11, 20, t), 12, 5, t + 1));
  }

  lemma TwoOrdersDelivery(t: nat, q: seq<Order>)
    requires q == [Order(11, 20, t), Order(12, 5, t + 1)]
    ensures var d1 := GetNextDelivery(TestConfig, q);
      var d2 := GetNextDelivery(TestConfig, d1.queue);
      Ids(d1.result) == [11, 12] && Sum(d1.result) == 25 && d1.queue == [] && d2.result == []
  {
    var a, b := Order(11, 20, t), Order(12, 5, t + 1);
    assert Take(25, [a, b], 0) == Split([a, b], []) by {
      assert Take(25, [b], 20) == Split([b], []);
    }
    assert GetNextDelivery(TestConfig, q) == Step([a, b], []);
    assert Sum([a, b]) == 20 + Sum([b]) by {
      assert [a, b][1..] == [b];
    }
  }

  /** 20 + 6 does not fit a cart of 25, so the first delivery carries one
      order, the second the remaining two, the third nothing. */
  lemma PartialDeliveryScenario(t: nat)
    ensures var q := Admit(Admit(Admit([], 11, 20, t), 12, 6, t + 1), 13, 4, t + 2);
      var d1 := GetNextDelivery(TestConfig, q);
      var d2 := GetNextDelivery(TestConfig, d1.queue);
      var d3 := GetNextDelivery(TestConfig, d2.queue);
      Ids(d1.result) == [11] && Ids(d2.result) == [12, 13] && d3.result == [] && d3.queue == []
  {
    PartialDeliveryQueue(t);
    PartialDeliveries(t, Admit(Admit(Admit([], 11, 20, t), 12, 6, t + 1), 13, 4, t + 2));
  }

  lemma PartialDeliveries(t: nat, q: seq<Order>)
    requires q == [Order(11, 20, t), Order(12, 6, t + 1), Order(13, 4, t + 2)]
    ensures var d1 := GetNextDelivery(TestConfig, q);
      var d2 := GetNextDelivery(TestConfig, d1.queue);
      var d3 := GetNextDelivery(TestConfig, d2.queue);
      Ids(d1.result) == [11] && Ids(d2.result) == [12, 13] && d3.result == [] && d3.queue == []
  {
    var a, b, c := Order(11, 20, t), Order(12, 6, t + 1), Order(13, 4, t + 2);
    assert Take(25, [a, b, c], 0) == Split([a], [b, c]) by {
      assert Take(25, [b, c], 20) == Split([], [b, c]);
    }
    assert Take(25, [b, c], 0) == Split([b, c], []) by {
      assert Take(25, [c], 6) == Split([c], []);
    }
    var d1 := GetNextDelivery(TestConfig, q);
    assert d1 == Step([a], [b, c]);
    var d2 := GetNextDelivery(TestConfig, d1.queue);
    assert d2 == Step([b, c], []);
    assert GetNextDelivery(TestConfig, d2.queue) == Step([], []);
  }

  /** Client 1 fills a cart on its own; client 2 is queued behind it. */
  lemma TwoCartsQueue(t: nat)
    ensures Admit(Admit([], 1, 25, t), 2, 1, t + 1) == [Order(1, 25, t), Order(2, 1, t + 1)]
  {
    AdmitIntoEmpty(1, 25, t);
    TwoCartsAfterFirst(t, Admit([], 1, 25, t));
  }

  lemma TwoCartsAfterFirst(t: nat, q: seq<Order>)
    requires q == [Order(1, 25, t)]
    ensures Admit(q, 2, 1, t + 1) == [Order(1, 25, t), Order(2, 1, t + 1)]
  {
    AdmitAtBack(q, 2, 1, t + 1);
  }

  /** A full cart ahead of a client costs one pickup timeout. */
  lemma TwoCartsStatusScenario(t: nat)
    ensures var q := Admit(Admit([], 1, 25, t), 2, 1, t + 1);
      && GetClientOrderState(TestConfig, q, Some(1)).result == Ok(Some(ClientOrderState(1, 1, 0)))
      && GetClientOrderState(TestConfig, q, Some(2)).result == Ok(Some(ClientOrderState(2, 2, 300)))
      && GetClientOrderState(TestConfig, q, Some(99)).result == Ok(None)
  {
    TwoCartsQueue(t);
    TwoCartsStatus(t, Admit(Admit([], 1, 25, t), 2, 1, t + 1));
  }

  lemma TwoCartsStatus(t: nat, q: seq<Order>)
    requires q == [Order(1, 25, t), Order(2, 1, t + 1)]
    ensures && GetClientOrderState(TestConfig, q, Some(1)).result == Ok(Some(ClientOrderState(1, 1, 0)))
            && GetClientOrderState(TestConfig, q, Some(2)).result == Ok(Some(ClientOrderState(2, 2, 300)))
            && GetClientOrderState(TestConfig, q, Some(99)).result == Ok(None)
  {
    var a, b := Order(1, 25, t), Order(2, 1, t + 1);
    assert StateWalk(25, q, 1, 0, 0, 0) == Some(Spot(1, 0));
    assert StateWalk(25, q, 2, 0, 0, 0) == Some(Spot(2, 1)) by {
      assert q[1..] == [b];
      assert StateWalk(25, [b], 2, 1, 0, 25) == Some(Spot(2, 1));
    }
    assert !HasClient(q, 99);
  }

  /** Clients 1 and 2 queue in arrival order. */
  lemma SingleCartQueue(t: nat)
    ensures Admit(Admit([], 1, 1, t), 2, 2, t + 1) == [Order(1, 1, t), Order(2, 2, t + 1)]
  {
    AdmitIntoEmpty(1, 1, t);
    SingleCartAfterFirst(t, Admit([], 1, 1, t));
  }

  lemma SingleCartAfterFirst(t: nat, q: seq<Order>)
    requires q == [Order(1, 1, t)]
    ensures Admit(q, 2, 2, t + 1) == [Order(1, 1, t), Order(2, 2, t + 1)]
  {
    AdmitAtBack(q, 2, 2, t + 1);
  }

  /** Two orders sharing one cart are at positions 1 and 2, both without wait. */
  lemma SingleCartStatusScenario(t: nat)
    ensures var q := Admit(Admit([], 1, 1, t), 2, 2, t + 1);
      && GetClientOrderState(TestConfig, q, Some(1)).result == Ok(Some(ClientOrderState(1, 1, 0)))
      && GetClientOrderState(TestConfig, q, Some(2)).result == Ok(Some(ClientOrderState(2, 2, 0)))
  {
    SingleCartQueue(t);
    SingleCartStatus(t, Admit(Admit([], 1, 1, t), 2, 2, t + 1));
  }

  lemma SingleCartStatus(t: nat, q: seq<Order>)
    requires q == [Order(1, 1, t), Order(2, 2, t + 1)]
    ensures && GetClientOrderState(TestConfig, q, Some(1)).result == Ok(Some(ClientOrderState(1, 1, 0)))
            && GetClientOrderState(TestConfig, q, Some(2)).result == Ok(Some(ClientOrderState(2, 2, 0)))
  {
    var a, b := Order(1, 1, t), Order(2, 2, t + 1);
    assert StateWalk(25, q, 1, 0, 0, 0) == Some(Spot(1, 0));
    assert StateWalk(25, q, 2, 0, 0, 0) == Some(Spot(2, 0)) by {
      assert q[1..] == [b];
      assert StateWalk(25, [b], 2, 1, 0, 1) == Some(Spot(2, 0));
    }
  }

  /** Cancelling a client that is not queued answers false and keeps the queue. */
  lemma RemoveAbsentScenario(t: nat)
    ensures RemoveOrder(TestConfig, Admit([], 1, 1, t), Some(99)) == Step(Ok(false), [Order(1, 1, t)])
  {
    AdmitIntoEmpty(1, 1, t);
    assert !HasClient([Order(1, 1, t)], 99);
  }

  /** Cancelling on an empty queue answers false; cancelling one of two orders
      leaves the other. */
  lemma CancellationScenario(t: nat)
    ensures RemoveOrder(TestConfig, [], Some(1)) == Step(Ok(false), [])
    ensures RemoveOrder(TestConfig, Admit(Admit([], 1, 1, t), 2, 2, t + 1), Some(1))
         == Step(Ok(true), [Order(2, 2, t + 1)])
  {
    AdmitIntoEmpty(1, 1, t);
    CancellationAfterFirst(t, Admit([], 1, 1, t));
  }

  lemma CancellationAfterFirst(t: nat, q: seq<Order>)
    requires q == [Order(1, 1, t)]
    ensures RemoveOrder(TestConfig, Admit(q, 2, 2, t + 1), Some(1)) == Step(Ok(true), [Order(2, 2, t + 1)])
  {
    var a, b := Order(1, 1, t), Order(2, 2, t + 1);
    AdmitAtBack(q, 2, 2, t + 1);
    assert q + [b] == [a, b];
    RemoveOrderRemovesOnlyThatOrder(TestConfig, [a, b], 0);
    assert [a, b][..0] + [a, b][1..] == [b];
  }
}
