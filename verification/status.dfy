/** Client status: a walk over the queue that counts positions and replays the
    delivery loop's cart packing without removing anything. */
module Status {
  import opened Wrappers
  import opened Entity
  import opened QueueState
  import opened Delivery

  /** Where the walk found the client: 1-based position and full carts ahead. */
  datatype Spot = Spot(position: nat, prevCarts: nat)

  /** The status loop, resumed after `position` orders, with `prevCarts` full
      carts counted and `itemsInCurrentCart` items in the cart being packed. */
  function StateWalk(cap: int, q: seq<Order>, id: int, position: nat, prevCarts: nat,
                     itemsInCurrentCart: int): (r: Option<Spot>)
    ensures r.None? <==> !HasClient(q, id)
    ensures r.Some? ==>
      position < r.value.position && FirstIndexOf(q, id, r.value.position - position - 1)
    decreases |q|
  {
    if |q| == 0 then None
    else
      var order := q[0];
      var full := itemsInCurrentCart + order.quantity > cap;
      var carts := if full then prevCarts + 1 else prevCarts;
      var items := if full then order.quantity else itemsInCurrentCart + order.quantity;
      if order.clientId == id then
        Some(Spot(position + 1, carts))
      else
        assert q == [order] + q[1..];
        StateWalk(cap, q[1..], id, position + 1, carts, items)
  }

  /** The status of client `clientId`'s order, or None when it has none queued. */
  function GetClientOrderState(cfg: Config, q: seq<Order>, clientId: Option<int>)
    : (r: Step<Result<Option<ClientOrderState>>>)
    ensures r.queue == q
    ensures r.result.Err? <==> ValidateClientId(cfg, clientId).Err?
    ensures r.result.Err? ==> r.result.error == InvalidParameter(ClientIdParam)
    ensures r.result.Ok? ==> (r.result.value.None? <==> !HasClient(q, clientId.value))
    ensures r.result.Ok? && r.result.value.Some? ==>
      var s := r.result.value.value;
      s.clientId == clientId.value && FirstIndexOf(q, clientId.value, s.position - 1)
  {
    match ValidateClientId(cfg, clientId)
    case Err(e) => Step(Err(e), q)
    case Ok(id) =>
      match StateWalk(cfg.cartCapacity, q, id, 0, 0, 0)
      case None => Step(Ok(None), q)
      case Some(spot) =>
        Step(Ok(Some(ClientOrderState(id, spot.position, spot.prevCarts * cfg.pickupTimeoutSeconds))), q)
  }

  /** Carts that leave before client `id`'s when packing resumes with `items`
      already loaded: the current cart, if the client is not in it, then every
      delivery before the client's. */
  function CartsAhead(cfg: Config, q: seq<Order>, items: int, id: int): nat
    requires AllFit(cfg.cartCapacity, q) && HasClient(q, id)
  {
    var d := Take(cfg.cartCapacity, q, items);
    if HasClient(d.batch, id) then 0 else 1 + DeliveriesBefore(cfg, d.rest, id)
  }

  /** One iteration of the status loop that does not find the client: the walk
      continues with `carts` full carts and `loaded` items in the current cart. */
  lemma WalkStep(cap: int, q: seq<Order>, id: int, position: nat, prevCarts: nat, items: int,
                 carts: nat, loaded: int)
    requires 0 < |q| && q[0].clientId != id
    requires items + q[0].quantity > cap ==> carts == prevCarts + 1 && loaded == q[0].quantity
    requires items + q[0].quantity <= cap ==> carts == prevCarts && loaded == items + q[0].quantity
    ensures StateWalk(cap, q, id, position, prevCarts, items) == StateWalk(cap, q[1..], id, position + 1, carts, loaded)
  {
  }

  /* One step of the walk against one step of the delivery loop. */

  lemma CartsAheadWhenFull(cfg: Config, q: seq<Order>, items: int, id: int)
    requires AllFit(cfg.cartCapacity, q) && HasClient(q, id)
    requires items + q[0].quantity > cfg.cartCapacity
    ensures CartsAhead(cfg, q, items, id) == 1 + DeliveriesBefore(cfg, q, id)
  {
  }

  lemma CartsAheadWhenFits(cfg: Config, q: seq<Order>, items: int, id: int, loaded: int)
    requires AllFit(cfg.cartCapacity, q) && HasClient(q, id)
    requires loaded == items + q[0].quantity <= cfg.cartCapacity
    ensures q[0].clientId == id ==> CartsAhead(cfg, q, items, id) == 0
    ensures q[0].clientId != id ==>
      HasClient(q[1..], id) && CartsAhead(cfg, q, items, id) == CartsAhead(cfg, q[1..], loaded, id)
  {
    var t := q[1..];
    assert q == [q[0]] + t;
    var d := Take(cfg.cartCapacity, q, items);
    assert d.batch == [q[0]] + Take(cfg.cartCapacity, t, loaded).batch;
    assert q[0] in d.batch;
  }

  lemma DeliveriesBeforeFromFront(cfg: Config, q: seq<Order>, id: int)
    requires AllFit(cfg.cartCapacity, q) && HasClient(q, id)
    ensures DeliveriesBefore(cfg, q, id) == CartsAhead(cfg, q, 0, id)
  {
  }

  /** The walk's count of full carts, continued from any point, equals the carts
      the delivery loop would send off before the client's. */
  lemma {:induction false} WalkCountsDeliveries(cfg: Config, q: seq<Order>, id: int, position: nat,
                                                prevCarts: nat, items: int)
    requires AllFit(cfg.cartCapacity, q) && HasClient(q, id)
    ensures StateWalk(cfg.cartCapacity, q, id, position, prevCarts, items).Some?
    ensures StateWalk(cfg.cartCapacity, q, id, position, prevCarts, items).value.prevCarts
         == prevCarts + CartsAhead(cfg, q, items, id)
    decreases |q|
  {
    var cap := cfg.cartCapacity;
    var order := q[0];
    var t := q[1..];
    var next := position + 1;
    assert order in q;
    if items + order.quantity > cap {
      var carts := prevCarts + 1;
      var loaded := order.quantity;
      CartsAheadWhenFull(cfg, q, items, id);
      DeliveriesBeforeFromFront(cfg, q, id);
      CartsAheadWhenFits(cfg, q, 0, id, loaded);
      if order.clientId != id {
        WalkStep(cap, q, id, position, prevCarts, items, carts, loaded);
        WalkCountsDeliveries(cfg, t, id, next, carts, loaded);
      }
    } else {
      var loaded := items + order.quantity;
      CartsAheadWhenFits(cfg, q, items, id, loaded);
      if order.clientId != id {
        WalkStep(cap, q, id, position, prevCarts, items, prevCarts, loaded);
        WalkCountsDeliveries(cfg, t, id, next, prevCarts, loaded);
      }
    }
  }

  /** The reported wait is the pickup timeout times the number of deliveries
      that would leave before the one carrying the client's order. */
  lemma WaitTimeCountsDeliveries(cfg: Config, q: seq<Order>, id: int)
    requires ValidateClientId(cfg, Some(id)).Ok?
    requires AllFit(cfg.cartCapacity, q) && HasClient(q, id)
    ensures GetClientOrderState(cfg, q, Some(id)).result.Ok?
    ensures GetClientOrderState(cfg, q, Some(id)).result.value.Some?
    ensures GetClientOrderState(cfg, q, Some(id)).result.value.value.waitTimeInSeconds
         == DeliveriesBefore(cfg, q, id) * cfg.pickupTimeoutSeconds
  {
    var spot := StateWalk(cfg.cartCapacity, q, id, 0, 0, 0);
    WalkCountsDeliveries(cfg, q, id, 0, 0, 0);
    DeliveriesBeforeFromFront(cfg, q, id);
    assert spot.Some? && spot.value.prevCarts == DeliveriesBefore(cfg, q, id);
    assert GetClientOrderState(cfg, q, Some(id)).result
        == Ok(Some(ClientOrderState(id, spot.value.position, spot.value.prevCarts * cfg.pickupTimeoutSeconds)));
  }

  /** In a queue with one order per client, the reported position is the
      client's 1-based index in the listing. */
  lemma PositionMatchesListing(cfg: Config, q: seq<Order>, k: nat)
    requires UniqueClients(q) && k < |q|
    requires ValidateClientId(cfg, Some(q[k].clientId)).Ok?
    ensures GetClientOrderState(cfg, q, Some(q[k].clientId)).result.Ok?
    ensures GetClientOrderState(cfg, q, Some(q[k].clientId)).result.value.Some?
    ensures GetClientOrderState(cfg, q, Some(q[k].clientId)).result.value.value.position == k + 1
    ensures GetAllOrders(q).result[k].clientId == q[k].clientId
  {
    assert q[k] in q;
  }
}
