/** The state shared by every queue operation: the configuration, the two
    domain error kinds, the shape of an operation's outcome, the invariants of
    the pending-order sequence, and the parameter validation policy. */
module QueueState {
  import opened Wrappers
  import opened Entity

  /** Read once at start-up: the largest valid client ID, the cart capacity
      (largest total quantity per delivery) and the time charged per full cart. */
  datatype Config = Config(maxClientId: int, cartCapacity: int, pickupTimeoutSeconds: int)

  datatype Param = ClientIdParam | QuantityParam

  /** The two recoverable failures: a bad parameter (naming which one), and an
      admission for a client that already has an order queued. */
  datatype QueueError = InvalidParameter(param: Param) | DuplicateClient

  datatype Result<+T> = Ok(value: T) | Err(error: QueueError)

  /** What an operation answers, together with the queue it leaves behind. */
  datatype Step<+T> = Step(result: T, queue: seq<Order>)

  /** An order as submitted for admission: either field may be missing. */
  datatype OrderRequest = OrderRequest(clientId: Option<int>, quantity: Option<int>)

  /** Total quantity of a sequence of orders. */
  function Sum(q: seq<Order>): int {
    if |q| == 0 then 0 else q[0].quantity + Sum(q[1..])
  }

  predicate HasClient(q: seq<Order>, id: int) {
    exists o :: o in q && o.clientId == id
  }

  /** `k` is the index of the first order of client `id`. */
  predicate FirstIndexOf(q: seq<Order>, id: int, k: int) {
    && 0 <= k < |q|
    && q[k].clientId == id
    && forall i :: 0 <= i < k ==> q[i].clientId != id
  }

  /** Sorted by (tier, admission stamp): premium block first, stamps
      non-decreasing within each tier. */
  predicate Sorted(q: seq<Order>) {
    forall i, j :: 0 <= i < j < |q| ==> RankedNoLater(q[i], q[j])
  }

  predicate UniqueClients(q: seq<Order>) {
    forall i, j :: 0 <= i < j < |q| ==> q[i].clientId != q[j].clientId
  }

  /** No order is larger than one cart. */
  predicate AllFit(cap: int, q: seq<Order>) {
    forall o :: o in q ==> o.quantity <= cap
  }

  /** An order that passed admission's parameter checks. */
  predicate Admissible(cfg: Config, o: Order) {
    1 <= o.clientId <= cfg.maxClientId && 1 <= o.quantity <= cfg.cartCapacity
  }

  /** The queue invariant kept by every operation. */
  predicate Valid(cfg: Config, q: seq<Order>) {
    && Sorted(q)
    && UniqueClients(q)
    && forall o :: o in q ==> Admissible(cfg, o)
  }

  function ValidateClientId(cfg: Config, clientId: Option<int>): (r: Result<int>)
    ensures r.Ok? <==> clientId.Some? && 1 <= clientId.value <= cfg.maxClientId
    ensures r.Ok? ==> clientId == Some(r.value)
    ensures r.Err? ==> r.error == InvalidParameter(ClientIdParam)
  {
    if clientId.None? || clientId.value < 1 || clientId.value > cfg.maxClientId then
      Err(InvalidParameter(ClientIdParam))
    else
      Ok(clientId.value)
  }

  function ValidateOrderQuantity(cfg: Config, quantity: Option<int>): (r: Result<int>)
    ensures r.Ok? <==> quantity.Some? && 1 <= quantity.value <= cfg.cartCapacity
    ensures r.Ok? ==> quantity == Some(r.value)
    ensures r.Err? ==> r.error == InvalidParameter(QuantityParam)
  {
    if quantity.None? || quantity.value < 1 || quantity.value > cfg.cartCapacity then
      Err(InvalidParameter(QuantityParam))
    else
      Ok(quantity.value)
  }

  /** The boundary values are accepted and their neighbours outside the range,
      as well as missing values, are refused. */
  lemma ValidationBoundaries(cfg: Config)
    requires 1 <= cfg.maxClientId && 1 <= cfg.cartCapacity
    ensures ValidateClientId(cfg, Some(1)).Ok? && ValidateClientId(cfg, Some(cfg.maxClientId)).Ok?
    ensures ValidateClientId(cfg, None).Err? && ValidateClientId(cfg, Some(0)).Err?
    ensures ValidateClientId(cfg, Some(-1)).Err? && ValidateClientId(cfg, Some(cfg.maxClientId + 1)).Err?
    ensures ValidateOrderQuantity(cfg, Some(1)).Ok? && ValidateOrderQuantity(cfg, Some(cfg.cartCapacity)).Ok?
    ensures ValidateOrderQuantity(cfg, None).Err? && ValidateOrderQuantity(cfg, Some(0)).Err?
    ensures ValidateOrderQuantity(cfg, Some(-1)).Err? && ValidateOrderQuantity(cfg, Some(cfg.cartCapacity + 1)).Err?
  {
  }

  /** A snapshot of the queue, front (next served) to back; nothing changes. */
  function GetAllOrders(q: seq<Order>): (r: Step<seq<Order>>)
    ensures r.result == q && r.queue == q
  {
    Step(q, q)
  }

  /* Facts about the invariants used by the operations' proofs. */

  lemma SortedSuffix(q: seq<Order>, n: nat)
    requires n <= |q| && Sorted(q)
    ensures Sorted(q[n..])
  {
    forall i, j | 0 <= i < j < |q[n..]|
      ensures RankedNoLater(q[n..][i], q[n..][j])
    {
      assert q[n..][i] == q[n + i] && q[n..][j] == q[n + j];
    }
  }

  lemma UniqueSuffix(q: seq<Order>, n: nat)
    requires n <= |q| && UniqueClients(q)
    ensures UniqueClients(q[n..])
  {
    forall i, j | 0 <= i < j < |q[n..]|
      ensures q[n..][i].clientId != q[n..][j].clientId
    {
      assert q[n..][i] == q[n + i] && q[n..][j] == q[n + j];
    }
  }

  /** Sortedness of a non-empty sequence splits into its head and its tail. */
  lemma SortedCons(a: Order, t: seq<Order>)
    ensures Sorted([a] + t) <==> (forall o :: o in t ==> RankedNoLater(a, o)) && Sorted(t)
  {
    var s := [a] + t;
    if Sorted(s) {
      assert t == s[1..];
      SortedSuffix(s, 1);
      forall o | o in t
        ensures RankedNoLater(a, o)
      {
        var k :| 0 <= k < |t| && t[k] == o;
        assert s[0] == a && s[k + 1] == o;
        assert RankedNoLater(s[0], s[k + 1]);
      }
    }
    if (forall o :: o in t ==> RankedNoLater(a, o)) && Sorted(t) {
      forall i, j | 0 <= i < j < |s|
        ensures RankedNoLater(s[i], s[j])
      {
        assert s[j] == t[j - 1];
        if i > 0 {
          assert s[i] == t[i - 1];
        } else {
          assert t[j - 1] in t;
        }
      }
    }
  }

  /** Uniqueness of a non-empty sequence splits into its head and its tail. */
  lemma UniqueCons(a: Order, t: seq<Order>)
    ensures UniqueClients([a] + t) <==> !HasClient(t, a.clientId) && UniqueClients(t)
  {
    var s := [a] + t;
    if UniqueClients(s) {
      assert t == s[1..];
      UniqueSuffix(s, 1);
      forall o | o in t
        ensures o.clientId != a.clientId
      {
        var k :| 0 <= k < |t| && t[k] == o;
        assert s[0] == a && s[k + 1] == o;
        assert s[0].clientId != s[k + 1].clientId;
      }
    }
    if !HasClient(t, a.clientId) && UniqueClients(t) {
      forall i, j | 0 <= i < j < |s|
        ensures s[i].clientId != s[j].clientId
      {
        assert s[j] == t[j - 1];
        if i > 0 {
          assert s[i] == t[i - 1];
        } else {
          assert t[j - 1] in t;
        }
      }
    }
  }

  lemma SumNonNegative(q: seq<Order>)
    requires forall o :: o in q ==> 0 <= o.quantity
    ensures 0 <= Sum(q)
  {
    if |q| > 0 {
      assert q[0] in q;
      SumNonNegative(q[1..]);
    }
  }
}
