/**
 * The decisions about orders that do not change anything: the status a new
 * order starts in, the track-code clash test, the branch an order is booked
 * to, and the filters of the order list.
 */
module OrderRules {
  import opened Common
  import opened Statuses
  import opened Rows

  /**
   * The status of a new order (main.py:1518, main.py:1870): buyouts wait for
   * the buyout, every other purchase type starts in processing.
   */
  function InitialStatus(purchaseType: string): (s: Status)
    ensures s == AwaitingBuyout <==> purchaseType == BuyoutPurchaseType
    ensures s == AwaitingBuyout || s == Processing
  {
    if purchaseType == BuyoutPurchaseType then AwaitingBuyout else Processing
  }

  /** Placeholder track codes ("PENDING-…") are exempt from the duplicate test. */
  predicate IsPending(track: string)
  {
    StartsWith(track, PendingPrefix)
  }

  /** Some order of the company other than `self` carries this track code. */
  predicate TrackHeldByOther(orders: map<int, Order>, self: Option<int>, track: string)
  {
    exists id :: id in orders && Some(id) != self && orders[id].trackCode == track
  }

  /**
   * The duplicate test of `create_order` (main.py:1482-1489) and of
   * `update_order` (main.py:1602-1610): a non-placeholder code held by
   * another order of the company.
   */
  predicate TrackClash(orders: map<int, Order>, self: Option<int>, track: string)
  {
    !IsPending(track) && TrackHeldByOther(orders, self, track)
  }

  /**
   * No two orders of the company share a track code, placeholder codes
   * apart: what the duplicate tests of creation, update and import keep.
   */
  predicate TracksDistinct(orders: map<int, Order>)
  {
    forall i, j :: i in orders && j in orders && i != j && orders[i].trackCode == orders[j].trackCode
      ==> IsPending(orders[i].trackCode)
  }

  /** Storing an order under `id` keeps the track codes distinct when its code is free or a placeholder. */
  lemma PutOrderKeepsTracksDistinct(orders: map<int, Order>, id: int, o: Order)
    requires TracksDistinct(orders)
    requires !TrackClash(orders, Some(id), o.trackCode)
    ensures TracksDistinct(orders[id := o])
  {
    assert forall j :: j in orders && j != id && orders[j].trackCode == o.trackCode ==> IsPending(o.trackCode);
  }

  /** A map of orders whose rows keep their track codes keeps them distinct. */
  lemma SameTracksKeepDistinct(orders: map<int, Order>, after: map<int, Order>)
    requires TracksDistinct(orders)
    requires after.Keys <= orders.Keys
    requires forall id :: id in after ==> after[id].trackCode == orders[id].trackCode
    ensures TracksDistinct(after)
  {
    forall i, j | i in after && j in after && i != j && after[i].trackCode == after[j].trackCode
      ensures IsPending(after[i].trackCode)
    {
      assert orders[i].trackCode == orders[j].trackCode;
    }
  }

  /**
   * A new order (main.py:1518-1534, main.py:1870-1886): processing, or
   * awaiting the buyout for a buyout, with no issue data.
   */
  function NewOrder(track: string, purchaseType: string, comment: Option<string>, partyDate: Date,
                    clientId: int, locationId: int): (o: Order)
    ensures o.trackCode == track && o.purchaseType == purchaseType && o.comment == comment
    ensures o.partyDate == partyDate && o.clientId == Some(clientId) && o.locationId == Some(locationId)
    ensures o.status == InitialStatus(purchaseType)
    ensures o.shiftId.None? && o.issuedAt.None? && o.revertedAt.None? && o.weightKg.None?
    ensures o.paidCashSom.None? && o.paidCardSom.None? && o.finalCostSom.None?
  {
    Order(track, InitialStatus(purchaseType), purchaseType, comment, partyDate,
          Some(clientId), Some(locationId), None, None, None,
          None, None, None, None, None, None, None, None)
  }

  /**
   * The branch a new or imported order is booked to (main.py:1492-1515 and
   * main.py:1795-1821).  An owner may name a branch, which must exist; else
   * the owner's own branch; else the company's first branch.  Everybody
   * else always books to their own branch and needs one.
   */
  function ResolveLocation(actor: Actor, requested: Option<int>, locations: seq<int>): (r: Result<int, Refusal>)
    ensures r.Err? ==> r.error == NotFound || r.error == BadRequest
    ensures r.Err? && r.error == NotFound ==> IsOwner(actor) && TruthyId(requested) && requested.value !in locations
    ensures !IsOwner(actor) ==> (r.Ok? <==> TruthyId(actor.locationId))
    ensures r.Ok? && !IsOwner(actor) ==> Some(r.value) == actor.locationId
    ensures r.Ok? && IsOwner(actor) && TruthyId(requested) ==> r.value == requested.value
    ensures IsOwner(actor) && !TruthyId(requested) && TruthyId(actor.locationId) ==> r == Ok(actor.locationId.value)
  {
    if IsOwner(actor) then
      if TruthyId(requested) then
        if requested.value in locations then Ok(requested.value) else Err(NotFound)
      else if TruthyId(actor.locationId) then Ok(actor.locationId.value)
      else if locations != [] then Ok(locations[0])
      else Err(BadRequest)
    else if TruthyId(actor.locationId) then Ok(actor.locationId.value)
    else Err(BadRequest)
  }

  /** A non-owner cannot choose the branch: whatever the request names is ignored. */
  lemma StaffLocationIgnoresRequest(actor: Actor, a: Option<int>, b: Option<int>, locations: seq<int>)
    requires !IsOwner(actor)
    ensures ResolveLocation(actor, a, locations) == ResolveLocation(actor, b, locations)
  {
  }

  /**
   * When the caller's own branch is one of the company's, every resolved
   * branch is one of the company's.
   */
  lemma ResolvedLocationExists(actor: Actor, requested: Option<int>, locations: seq<int>)
    requires actor.locationId.Some? ==> actor.locationId.value in locations
    ensures ResolveLocation(actor, requested, locations).Ok? ==> ResolveLocation(actor, requested, locations).value in locations
  {
  }

  /** An owner with no branch of their own who names none gets the first branch listed. */
  lemma OwnerFallsBackToFirstLocation(actor: Actor, requested: Option<int>, locations: seq<int>)
    requires IsOwner(actor) && !TruthyId(requested) && !TruthyId(actor.locationId)
    ensures locations == [] ==> ResolveLocation(actor, requested, locations) == Err(BadRequest)
    ensures locations != [] ==> ResolveLocation(actor, requested, locations) == Ok(locations[0])
  {
  }

  /**
   * The statuses `get_orders` keeps: those asked for, or every status but
   * "Выдан" when none is asked for (main.py:1443-1447).
   */
  function StatusFilter(statuses: seq<string>): (r: seq<string>)
    ensures statuses != [] ==> r == statuses
    ensures statuses == [] ==> forall n :: n in r <==> n in OrderStatuses && n != IssuedName
  {
    if statuses != [] then statuses else DefaultStatusFilter()
  }

  /** The query parameters of the order list. */
  datatype OrderQuery = OrderQuery(
    partyDates: seq<Date>,
    statuses: seq<string>,
    clientId: Option<int>,
    locationId: Option<int>)

  /** An order passes the date, status and client filters of `query`. */
  predicate MatchesFilters(o: Order, query: OrderQuery)
  {
    (query.partyDates != [] ==> o.partyDate in query.partyDates)
    && Name(o.status) in StatusFilter(query.statuses)
    && (query.clientId.Some? ==> o.clientId == query.clientId)
  }

  /** The branch filter: None means all branches. */
  function BranchFilter(actor: Actor, query: OrderQuery, locations: seq<int>): (r: Result<Option<int>, Refusal>)
    ensures r.Err? ==> r.error == NotFound && IsOwner(actor)
    ensures r.Ok? && !IsOwner(actor) ==> r.value == actor.locationId
    ensures r.Ok? && IsOwner(actor) ==> r.value == query.locationId
  {
    if IsOwner(actor) then
      if query.locationId.Some? && query.locationId.value !in locations then Err(NotFound)
      else Ok(query.locationId)
    else Ok(actor.locationId)
  }

  /**
   * The ids `get_orders` returns (main.py:1393-1458), ordering left aside.
   * An owner sees every branch or the one asked for; anybody else sees only
   * their own branch, and nothing at all without one.  A named client must
   * belong to the company.
   */
  function VisibleOrders(orders: map<int, Order>, clients: set<int>, locations: seq<int>,
                         actor: Actor, query: OrderQuery): (r: Result<set<int>, Refusal>)
    ensures r.Err? ==> r.error == NotFound
    ensures r.Ok? ==> forall id :: id in r.value ==> id in orders && MatchesFilters(orders[id], query)
    ensures r.Ok? && !IsOwner(actor) ==>
      forall id :: id in r.value ==> actor.locationId.Some? && orders[id].locationId == actor.locationId
    ensures r.Ok? && IsOwner(actor) && query.locationId.Some? ==>
      forall id :: id in r.value ==> orders[id].locationId == query.locationId
    ensures r.Err? <==>
      (IsOwner(actor) && query.locationId.Some? && query.locationId.value !in locations)
      || ((IsOwner(actor) || actor.locationId.Some?) && query.clientId.Some? && query.clientId.value !in clients)
  {
    match BranchFilter(actor, query, locations)
    case Err(e) => Err(e)
    case Ok(branch) =>
      if !IsOwner(actor) && branch.None? then Ok({})
      else if query.clientId.Some? && query.clientId.value !in clients then Err(NotFound)
      else Ok(set id | id in orders && (branch.Some? ==> orders[id].locationId == branch)
                       && MatchesFilters(orders[id], query))
  }

  /** Every matching order of the branch in view is listed: the filters drop nothing else. */
  lemma VisibleOrdersComplete(orders: map<int, Order>, clients: set<int>, locations: seq<int>,
                              actor: Actor, query: OrderQuery, id: int)
    requires id in orders && MatchesFilters(orders[id], query)
    requires IsOwner(actor) ==> query.locationId.None? || orders[id].locationId == query.locationId
    requires !IsOwner(actor) ==> actor.locationId.Some? && orders[id].locationId == actor.locationId
    requires VisibleOrders(orders, clients, locations, actor, query).Ok?
    ensures id in VisibleOrders(orders, clients, locations, actor, query).value
  {
  }

  /** Without a status filter, issued orders are never listed. */
  lemma DefaultHidesIssued(orders: map<int, Order>, clients: set<int>, locations: seq<int>,
                           actor: Actor, query: OrderQuery)
    requires query.statuses == []
    requires VisibleOrders(orders, clients, locations, actor, query).Ok?
    ensures forall id :: id in VisibleOrders(orders, clients, locations, actor, query).value ==>
              orders[id].status != Issued
  {
    forall id | id in VisibleOrders(orders, clients, locations, actor, query).value
      ensures orders[id].status != Issued
    {
      assert Name(orders[id].status) in StatusFilter(query.statuses);
    }
  }
}
