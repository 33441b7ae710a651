/** Cancellation: removing every queued order of one client. */
module Cancellation {
  import opened Wrappers
  import opened Entity
  import opened QueueState

  /** The queue with every order of client `id` taken out, the others in their
      original order. */
  function RemoveIf(q: seq<Order>, id: int): (r: seq<Order>)
    ensures forall o :: o in r <==> o in q && o.clientId != id
    ensures |r| <= |q|
    ensures |r| == |q| <==> !HasClient(q, id)
    decreases |q|
  {
    if |q| == 0 then []
    else
      assert q == [q[0]] + q[1..];
      if q[0].clientId == id then RemoveIf(q[1..], id)
      else [q[0]] + RemoveIf(q[1..], id)
  }

  /** Cancels client `clientId`'s order; answers whether one was queued. */
  function RemoveOrder(cfg: Config, q: seq<Order>, clientId: Option<int>): (r: Step<Result<bool>>)
    ensures ValidateClientId(cfg, clientId).Err? ==> r == Step(Err(InvalidParameter(ClientIdParam)), q)
    ensures ValidateClientId(cfg, clientId).Ok? ==>
      && r.result == Ok(HasClient(q, clientId.value))
      && !HasClient(r.queue, clientId.value)
      && (forall o :: o in r.queue <==> o in q && o.clientId != clientId.value)
  {
    match ValidateClientId(cfg, clientId)
    case Err(e) => Step(Err(e), q)
    case Ok(id) => Step(Ok(HasClient(q, id)), RemoveIf(q, id))
  }

  lemma {:induction false} RemoveIfAbsent(q: seq<Order>, id: int)
    requires !HasClient(q, id)
    ensures RemoveIf(q, id) == q
    decreases |q|
  {
    if |q| > 0 {
      assert q[0] in q;
      assert q == [q[0]] + q[1..];
      RemoveIfAbsent(q[1..], id);
    }
  }

  /** With one order per client, cancelling takes out exactly the client's
      order at index `k` and keeps the rest in order. */
  lemma {:induction false} RemoveIfIsSplice(q: seq<Order>, id: int, k: nat)
    requires UniqueClients(q) && k < |q| && q[k].clientId == id
    ensures RemoveIf(q, id) == q[..k] + q[k + 1..]
    decreases |q|
  {
    var t := q[1..];
    UniqueCons(q[0], t);
    assert q == [q[0]] + t;
    if k == 0 {
      RemoveIfAbsent(t, id);
    } else {
      assert t[k - 1] == q[k];
      RemoveIfIsSplice(t, id, k - 1);
      assert q[..k] == [q[0]] + t[..k - 1];
      assert q[k + 1..] == t[k..];
    }
  }

  lemma {:induction false} RemoveIfKeepsSorted(q: seq<Order>, id: int)
    requires Sorted(q)
    ensures Sorted(RemoveIf(q, id))
    decreases |q|
  {
    if |q| > 0 {
      var t := q[1..];
      assert q == [q[0]] + t;
      SortedCons(q[0], t);
      RemoveIfKeepsSorted(t, id);
      if q[0].clientId != id {
        SortedCons(q[0], RemoveIf(t, id));
      }
    }
  }

  lemma {:induction false} RemoveIfKeepsUnique(q: seq<Order>, id: int)
    requires UniqueClients(q)
    ensures UniqueClients(RemoveIf(q, id))
    decreases |q|
  {
    if |q| > 0 {
      var t := q[1..];
      assert q == [q[0]] + t;
      UniqueCons(q[0], t);
      RemoveIfKeepsUnique(t, id);
      if q[0].clientId != id {
        UniqueCons(q[0], RemoveIf(t, id));
      }
    }
  }

  /** Cancellation keeps the queue invariant. */
  lemma RemoveOrderPreservesValid(cfg: Config, q: seq<Order>, clientId: Option<int>)
    requires Valid(cfg, q)
    ensures Valid(cfg, RemoveOrder(cfg, q, clientId).queue)
  {
    if clientId.Some? {
      RemoveIfKeepsSorted(q, clientId.value);
      RemoveIfKeepsUnique(q, clientId.value);
    }
  }

  /** In a queue with one order per client, a successful cancellation removes
      exactly that client's order and keeps every other order in place. */
  lemma RemoveOrderRemovesOnlyThatOrder(cfg: Config, q: seq<Order>, k: nat)
    requires UniqueClients(q) && k < |q|
    requires ValidateClientId(cfg, Some(q[k].clientId)).Ok?
    ensures RemoveOrder(cfg, q, Some(q[k].clientId)) == Step(Ok(true), q[..k] + q[k + 1..])
  {
    assert q[k] in q;
    RemoveIfIsSplice(q, q[k].clientId, k);
  }

  /** Cancelling twice: the second call finds nothing and changes nothing. */
  lemma RemoveOrderTwice(cfg: Config, q: seq<Order>, clientId: Option<int>)
    requires ValidateClientId(cfg, clientId).Ok?
    ensures var once := RemoveOrder(cfg, q, clientId).queue;
      RemoveOrder(cfg, once, clientId) == Step(Ok(false), once)
  {
    var once := RemoveOrder(cfg, q, clientId).queue;
    RemoveIfAbsent(once, clientId.value);
  }
}
