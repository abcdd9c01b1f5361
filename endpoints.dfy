/**
 * What each modelled endpoint of the backend decides before it writes:
 * the refusal it answers with, in the order the endpoint makes its checks,
 * or the values it goes on to store.  The lemmas show that a request the
 * endpoint accepts keeps the company's data consistent.
 */
module Endpoints {
  import opened Common
  import opened Statuses
  import opened Rows
  import opened ClientCodes
  import opened Patches
  import opened OrderRules
  import opened Tables

  // ---------------------------------------------------------------- clients

  /**
   * `create_client` (main.py:956-993) up to the INSERT: the code number the
   * new client gets, or the refusal.  A code number of 0 skips the
   * duplicate test (it is falsy) and then breaks the unique constraint.
   */
  function CreateClientDecision(clients: map<int, Client>, actor: Actor, phone: string, codeNum: Option<int>): (r: Result<int, Refusal>)
    ensures r == Err(Forbidden) <==> !IsManager(actor)
    ensures r == Err(BadRequest) <==>
      IsManager(actor) && (PhoneTaken(clients, phone) || (TruthyId(codeNum) && CodeTaken(clients, codeNum.value)))
    ensures r == Err(DbConflict) <==>
      IsManager(actor) && !PhoneTaken(clients, phone) && codeNum == Some(0) && CodeTaken(clients, 0)
    ensures r.Ok? ==> !PhoneTaken(clients, phone) && !CodeTaken(clients, r.value)
    ensures r.Ok? && codeNum.Some? ==> r.value == codeNum.value
    ensures r.Ok? && codeNum.None? ==> r.value == NextClientCode(CodeNumbers(clients))
  {
    if !IsManager(actor) then Err(Forbidden)
    else if PhoneTaken(clients, phone) then Err(BadRequest)
    else if TruthyId(codeNum) && CodeTaken(clients, codeNum.value) then Err(BadRequest)
    else if codeNum.None? then Ok(NextClientCode(CodeNumbers(clients)))
    else if CodeTaken(clients, codeNum.value) then Err(DbConflict)
    else Ok(codeNum.value)
  }

  /** A created client keeps phones and code numbers unique within the company. */
  lemma CreateClientKeepsUnique(clients: map<int, Client>, actor: Actor, fullName: string, phone: string,
                                prefix: Option<string>, codeNum: Option<int>, status: Option<string>)
    requires ClientsUnique(clients)
    requires CreateClientDecision(clients, actor, phone, codeNum).Ok?
    ensures ClientsUnique(clients[FreshId(clients.Keys) :=
      InsertedClient(fullName, phone, prefix, Some(CreateClientDecision(clients, actor, phone, codeNum).value), status)])
  {
    var id := FreshId(clients.Keys);
    var c := InsertedClient(fullName, phone, prefix, Some(CreateClientDecision(clients, actor, phone, codeNum).value), status);
    FreshClientFits(clients, id, c);
    PutClientKeepsUnique(clients, id, c);
  }

  /** The update sends a new phone that another client of the company has (main.py:1053-1055). */
  predicate PhoneChangeClash(clients: map<int, Client>, id: int, p: ClientPatch)
    requires id in clients
  {
    p.phone.Some? && p.phone.value.Some? && p.phone.value.value != clients[id].phone
    && PhoneTaken(clients, p.phone.value.value)
  }

  /** The update sends a new, non-zero code number that a client of the company has (main.py:1058-1061). */
  predicate CodeChangeClash(clients: map<int, Client>, id: int, p: ClientPatch)
    requires id in clients
  {
    p.codeNum.Some? && p.codeNum.value != clients[id].codeNum && TruthyId(p.codeNum.value)
    && CodeTaken(clients, p.codeNum.value.value)
  }

  /** The checks `update_client` makes before its setattr loop (main.py:1036-1061). */
  function UpdateClientGuard(clients: map<int, Client>, actor: Actor, id: int, p: ClientPatch): (r: Option<Refusal>)
    ensures r == Some(Forbidden) <==> !IsManager(actor)
    ensures r == Some(NotFound) <==> IsManager(actor) && id !in clients
    ensures r == Some(BadRequest) <==>
      IsManager(actor) && id in clients && (PhoneChangeClash(clients, id, p) || CodeChangeClash(clients, id, p))
    ensures r.None? ==> IsManager(actor) && id in clients
  {
    if !IsManager(actor) then Some(Forbidden)
    else if id !in clients then Some(NotFound)
    else if PhoneChangeClash(clients, id, p) || CodeChangeClash(clients, id, p) then Some(BadRequest)
    else None
  }

  /**
   * The whole of `update_client`: the guard, then the commit, which fails
   * when a NOT NULL column is sent as null or the updated row breaks a
   * unique constraint.
   */
  function UpdateClientOutcome(clients: map<int, Client>, actor: Actor, id: int, p: ClientPatch): (r: Result<Client, Refusal>)
    ensures UpdateClientGuard(clients, actor, id, p).Some? ==> r == Err(UpdateClientGuard(clients, actor, id, p).value)
    ensures UpdateClientGuard(clients, actor, id, p).None? && ClientNullViolation(p) ==> r == Err(DbConflict)
    ensures r.Ok? ==> id in clients && !ClientNullViolation(p) && r.value == PatchedClient(clients[id], p)
    ensures r.Ok? ==> !ClientClash(clients, id, r.value)
    ensures (UpdateClientGuard(clients, actor, id, p).None? && !ClientNullViolation(p)
             && !ClientClash(clients, id, PatchedClient(clients[id], p))) ==> r.Ok?
  {
    match UpdateClientGuard(clients, actor, id, p)
    case Some(e) => Err(e)
    case None =>
      if ClientNullViolation(p) then Err(DbConflict)
      else
        var c := PatchedClient(clients[id], p);
        if ClientClash(clients, id, c) then Err(DbConflict) else Ok(c)
  }

  /** An accepted client update keeps phones and code numbers unique within the company. */
  lemma UpdateClientKeepsUnique(clients: map<int, Client>, actor: Actor, id: int, p: ClientPatch)
    requires ClientsUnique(clients)
    requires UpdateClientOutcome(clients, actor, id, p).Ok?
    ensures ClientsUnique(clients[id := UpdateClientOutcome(clients, actor, id, p).value])
  {
    PutClientKeepsUnique(clients, id, UpdateClientOutcome(clients, actor, id, p).value);
  }

  /** `delete_client` (main.py:1070-1099): refused while an order of the client is not issued. */
  function DeleteClientDecision(clients: map<int, Client>, orders: map<int, Order>, actor: Actor, id: int): (r: Option<Refusal>)
    ensures r == Some(Forbidden) <==> !IsManager(actor)
    ensures r == Some(NotFound) <==> IsManager(actor) && id !in clients
    ensures r == Some(BadRequest) <==> IsManager(actor) && id in clients && HasOpenOrders(orders, id)
    ensures r.None? ==> id in clients && forall o :: o in orders && orders[o].clientId == Some(id) ==> orders[o].status == Issued
  {
    if !IsManager(actor) then Some(Forbidden)
    else if id !in clients then Some(NotFound)
    else if HasOpenOrders(orders, id) then Some(BadRequest)
    else None
  }

  // ----------------------------------------------------------------- orders

  /**
   * `create_order` (main.py:1460-1551) up to the INSERT: the branch the new
   * order is booked to, or the refusal.
   */
  function CreateOrderDecision(clients: map<int, Client>, orders: map<int, Order>, locations: seq<int>,
                               actor: Actor, clientId: int, track: string, requested: Option<int>): (r: Result<int, Refusal>)
    ensures clientId !in clients ==> r == Err(NotFound)
    ensures clientId in clients && TrackClash(orders, None, track) ==> r == Err(BadRequest)
    ensures r.Ok? ==>
      clientId in clients && !TrackClash(orders, None, track)
      && ResolveLocation(actor, requested, locations) == Ok(r.value)
    ensures clientId in clients && !TrackClash(orders, None, track) && ResolveLocation(actor, requested, locations).Ok? ==> r.Ok?
  {
    if clientId !in clients then Err(NotFound)
    else if TrackClash(orders, None, track) then Err(BadRequest)
    else ResolveLocation(actor, requested, locations)
  }

  /** A created order keeps the track codes distinct. */
  lemma CreateOrderKeepsTracks(clients: map<int, Client>, orders: map<int, Order>, locations: seq<int>, actor: Actor,
                               clientId: int, track: string, requested: Option<int>,
                               purchaseType: string, comment: Option<string>, partyDate: Date)
    requires TracksDistinct(orders)
    requires CreateOrderDecision(clients, orders, locations, actor, clientId, track, requested).Ok?
    ensures TracksDistinct(orders[FreshId(orders.Keys) := NewOrder(track, purchaseType, comment, partyDate, clientId,
      CreateOrderDecision(clients, orders, locations, actor, clientId, track, requested).value)])
  {
    var id := FreshId(orders.Keys);
    var o := NewOrder(track, purchaseType, comment, partyDate, clientId,
      CreateOrderDecision(clients, orders, locations, actor, clientId, track, requested).value);
    assert !TrackClash(orders, Some(id), track);
    PutOrderKeepsTracksDistinct(orders, id, o);
  }

  /** The patch `update_order` applies: a non-owner's `location_id` is dropped (main.py:1575-1579). */
  function EffectivePatch(actor: Actor, p: OrderPatch): (q: OrderPatch)
    ensures IsOwner(actor) ==> q == p
    ensures !IsOwner(actor) ==> q.locationId.None? && q.(locationId := p.locationId) == p
  {
    if IsOwner(actor) then p else p.(locationId := None)
  }

  /** The owner moves the order to a branch that is not one of the company's (main.py:1580-1587). */
  predicate BadNewLocation(o: Order, locations: seq<int>, actor: Actor, p: OrderPatch)
  {
    IsOwner(actor) && p.locationId.Some? && p.locationId.value != o.locationId
    && !(p.locationId.value.Some? && p.locationId.value.value in locations)
  }

  /** The order moves to a client that is not one of the company's (main.py:1591-1598). */
  predicate BadNewClient(o: Order, clients: map<int, Client>, p: OrderPatch)
  {
    p.clientId.Some? && p.clientId.value != o.clientId
    && !(p.clientId.value.Some? && p.clientId.value.value in clients)
  }

  /** A changed, non-placeholder track code another order of the company has (main.py:1602-1610). */
  predicate NewTrackClash(orders: map<int, Order>, id: int, p: OrderPatch)
    requires id in orders
  {
    p.trackCode.Some? && p.trackCode.value.Some? && p.trackCode.value.value != orders[id].trackCode
    && TrackClash(orders, Some(id), p.trackCode.value.value)
  }

  /** A status that is not one of the fixed list (main.py:1613-1614); a null is not one either. */
  predicate BadStatus(p: OrderPatch)
  {
    p.status.Some? && !(p.status.value.Some? && p.status.value.value in OrderStatuses)
  }

  /**
   * `update_order` (main.py:1553-1636) before its setattr loop.  A null
   * track code reaches `.startswith` and raises; a null purchase type or
   * party date breaks a NOT NULL column at the commit.
   */
  function UpdateOrderGuard(orders: map<int, Order>, clients: map<int, Client>, locations: seq<int>,
                            actor: Actor, id: int, p: OrderPatch): (r: Option<Refusal>)
    ensures id !in orders ==> r == Some(NotFound)
    ensures id in orders && BadStatus(p) ==> r.Some?
    ensures id in orders && NewTrackClash(orders, id, p) ==> r.Some?
    ensures r == Some(BadRequest) ==> id in orders && (NewTrackClash(orders, id, p) || BadStatus(p))
    ensures r.None? ==>
      id in orders && OrderPatchStorable(EffectivePatch(actor, p))
      && !BadNewLocation(orders[id], locations, actor, p) && !BadNewClient(orders[id], clients, p)
    ensures r.None? <==>
      id in orders && !BadNewLocation(orders[id], locations, actor, p)
      && !BadNewClient(orders[id], clients, p) && p.trackCode != Some(None) && !NewTrackClash(orders, id, p)
      && !BadStatus(p) && p.purchaseType != Some(None) && p.partyDate != Some(None)
  {
    if id !in orders then Some(NotFound)
    else
      var o := orders[id];
      if BadNewLocation(o, locations, actor, p) then Some(NotFound)
      else if BadNewClient(o, clients, p) then Some(NotFound)
      else if p.trackCode == Some(None) then Some(InternalError)
      else if NewTrackClash(orders, id, p) then Some(BadRequest)
      else if BadStatus(p) then Some(BadRequest)
      else if p.purchaseType == Some(None) || p.partyDate == Some(None) then Some(DbConflict)
      else None
  }

  /** Whatever a non-owner sends as `location_id`, the decision and the stored branch are the same. */
  lemma StaffCannotMoveOrder(orders: map<int, Order>, clients: map<int, Client>, locations: seq<int>,
                             actor: Actor, id: int, p: OrderPatch, loc: Option<Option<int>>)
    requires !IsOwner(actor)
    ensures UpdateOrderGuard(orders, clients, locations, actor, id, p)
         == UpdateOrderGuard(orders, clients, locations, actor, id, p.(locationId := loc))
    ensures UpdateOrderGuard(orders, clients, locations, actor, id, p).None? ==>
      PatchedOrder(orders[id], EffectivePatch(actor, p)).locationId == orders[id].locationId
  {
  }

  /** An accepted order update keeps the track codes distinct. */
  lemma UpdateOrderKeepsTracks(orders: map<int, Order>, clients: map<int, Client>, locations: seq<int>,
                               actor: Actor, id: int, p: OrderPatch)
    requires TracksDistinct(orders)
    requires UpdateOrderGuard(orders, clients, locations, actor, id, p).None?
    ensures TracksDistinct(orders[id := PatchedOrder(orders[id], EffectivePatch(actor, p))])
  {
    var o := PatchedOrder(orders[id], EffectivePatch(actor, p));
    if o.trackCode == orders[id].trackCode {
      assert forall j :: j in orders && j != id && orders[j].trackCode == o.trackCode ==> IsPending(o.trackCode);
    }
    PutOrderKeepsTracksDistinct(orders, id, o);
  }

  /** The change a bulk action makes to every selected order. */
  datatype BulkAction =
    | SetStatus(status: Status)
    | SetPartyDate(date: Date)
    | BuyOut(rate: real)
    | DeleteOrders

  /** `not payload.password or employee.password != payload.password`, negated. */
  predicate PasswordConfirms(actor: Actor, password: Option<string>)
  {
    password.Some? && password.value != [] && password.value == actor.password
  }

  /**
   * `bulk_order_action` (main.py:1685-1769): every check is made before
   * anything is written, so a refused request changes nothing.
   */
  function BulkActionDecision(orders: map<int, Order>, actor: Actor, action: string, ids: seq<int>,
                              newStatus: Option<string>, newPartyDate: Option<Date>,
                              rate: Option<real>, password: Option<string>): (r: Result<BulkAction, Refusal>)
    ensures r.Ok? ==> IsManager(actor) && ids != [] && forall i :: i in ids ==> i in orders
    ensures IsManager(actor) && ids != [] && (exists i :: i in ids && i !in orders) ==> r == Err(NotFound)
    ensures r.Ok? && r.value.SetStatus? ==>
      action == "update_status" && newStatus == Some(Name(r.value.status))
    ensures action == "update_status" && r.Ok? <==>
      IsManager(actor) && ids != [] && (forall i :: i in ids ==> i in orders)
      && action == "update_status" && newStatus.Some? && newStatus.value in OrderStatuses
    ensures r.Ok? && r.value.SetPartyDate? ==>
      action == "update_party_date" && PasswordConfirms(actor, password) && newPartyDate == Some(r.value.date)
    ensures r.Ok? && r.value.BuyOut? ==>
      action == "buyout" && rate == Some(r.value.rate) && r.value.rate > 0.0
      && forall i :: i in ids ==> orders[i].status == AwaitingBuyout
    ensures r.Ok? && r.value.DeleteOrders? ==> action == "delete" && PasswordConfirms(actor, password)
    ensures (action == "buyout" && IsManager(actor) && ids != [] && (forall i :: i in ids ==> i in orders)
             && (exists i :: i in ids && orders[i].status != AwaitingBuyout)) ==> r.Err?
  {
    if !IsManager(actor) then Err(Forbidden)
    else if ids == [] then Err(BadRequest)
    else if exists i :: i in ids && i !in orders then Err(NotFound)
    else if action == "update_status" then
      if newStatus.None? || newStatus.value == [] || newStatus.value !in OrderStatuses then Err(BadRequest)
      else Ok(SetStatus(StatusNamed(newStatus.value)))
    else if action == "update_party_date" then
      if !PasswordConfirms(actor, password) then Err(Forbidden)
      else if newPartyDate.None? then Err(BadRequest)
      else Ok(SetPartyDate(newPartyDate.value))
    else if action == "buyout" then
      if rate.None? || rate.value == 0.0 || rate.value <= 0.0 then Err(BadRequest)
      else if exists i :: i in ids && orders[i].status != AwaitingBuyout then Err(BadRequest)
      else Ok(BuyOut(rate.value))
    else if action == "delete" then
      if !PasswordConfirms(actor, password) then Err(Forbidden)
      else Ok(DeleteOrders)
    else Err(BadRequest)
  }

  /** One selected order after a bulk update. */
  function BulkUpdated(o: Order, a: BulkAction): Order
  {
    match a
    case SetStatus(s) => o.(status := s)
    case SetPartyDate(d) => o.(partyDate := d)
    case BuyOut(rate) => o.(status := BoughtOut, buyoutActualRate := Some(rate))
    case DeleteOrders => o
  }

  /** The orders after a bulk action on the selected ids: one UPDATE or DELETE statement. */
  function ApplyBulk(orders: map<int, Order>, ids: set<int>, a: BulkAction): (r: map<int, Order>)
    ensures a.DeleteOrders? ==> r.Keys == orders.Keys - ids
    ensures !a.DeleteOrders? ==> r.Keys == orders.Keys
    ensures forall id :: id in r && id !in ids ==> r[id] == orders[id]
    ensures forall id :: id in r && id in ids ==> r[id] == BulkUpdated(orders[id], a)
  {
    if a.DeleteOrders? then map id | id in orders && id !in ids :: orders[id]
    else map id | id in orders :: if id in ids then BulkUpdated(orders[id], a) else orders[id]
  }

  /**
   * A bulk buyout moves exactly the selected orders to "Выкуплен", with the
   * rate paid; no other order changes.
   */
  lemma BuyoutMovesExactlySelected(orders: map<int, Order>, actor: Actor, ids: seq<int>, rate: Option<real>,
                                   password: Option<string>, a: BulkAction)
    requires BulkActionDecision(orders, actor, "buyout", ids, None, None, rate, password) == Ok(a)
    ensures var after := ApplyBulk(orders, set i | i in ids :: i, a);
      after.Keys == orders.Keys
      && (forall i :: i in ids ==>
            orders[i].status == AwaitingBuyout && after[i].status == BoughtOut && after[i].buyoutActualRate == rate)
      && (forall i :: i in orders && i !in ids ==> after[i] == orders[i])
  {
  }

  /** No bulk action changes a track code, so none makes two orders share one. */
  lemma BulkKeepsTracks(orders: map<int, Order>, ids: set<int>, a: BulkAction)
    requires TracksDistinct(orders)
    ensures TracksDistinct(ApplyBulk(orders, ids, a))
  {
    SameTracksKeepDistinct(orders, ApplyBulk(orders, ids, a));
  }

  // ----------------------------------------------------------------- shifts

  /** `open_shift` (main.py:1967-2058): refused while the branch has an open shift. */
  function OpenShiftDecision(shifts: map<int, Shift>, employees: map<int, Employee>, locations: seq<int>,
                             actor: Actor, employeeId: int, locationId: int): (r: Option<Refusal>)
    ensures r == Some(Forbidden) <==> "open_close_shift" !in actor.permissions
    ensures r == Some(NotFound) <==>
      "open_close_shift" in actor.permissions && (employeeId !in employees || locationId !in locations)
    ensures r == Some(BadRequest) <==>
      "open_close_shift" in actor.permissions && employeeId in employees && locationId in locations
      && OpenShiftAt(shifts, locationId)
    ensures r.None? ==> !OpenShiftAt(shifts, locationId)
  {
    if "open_close_shift" !in actor.permissions then Some(Forbidden)
    else if employeeId !in employees then Some(NotFound)
    else if locationId !in locations then Some(NotFound)
    else if OpenShiftAt(shifts, locationId) then Some(BadRequest)
    else None
  }

  /**
   * `close_shift` (main.py:2060-2093) with the super-admin test left out:
   * the open shift of the caller's own branch, or the refusal.
   */
  function CloseShiftDecision(shifts: map<int, Shift>, actor: Actor): (r: Result<int, Refusal>)
    requires OneOpenShiftPerLocation(shifts)
    ensures r == Err(Forbidden) <==> "open_close_shift" !in actor.permissions
    ensures r == Err(NotFound) <==>
      "open_close_shift" in actor.permissions
      && (actor.locationId.None? || !OpenShiftAt(shifts, actor.locationId.value))
    ensures r.Ok? ==> r.value in shifts && IsOpen(shifts[r.value]) && actor.locationId == Some(shifts[r.value].locationId)
  {
    if "open_close_shift" !in actor.permissions then Err(Forbidden)
    else if actor.locationId.None? then Err(NotFound)
    else
      match OpenShiftIdAt(shifts, actor.locationId.value)
      case None => Err(NotFound)
      case Some(id) => Ok(id)
  }

  /** `force_close_shift` (main.py:280-306): owner's password, a shift of the company, still open. */
  function ForceCloseDecision(shifts: map<int, Shift>, actor: Actor, shiftId: int, password: string): (r: Option<Refusal>)
    ensures r == Some(Forbidden) <==> !IsManager(actor) || password != actor.password
    ensures r == Some(NotFound) <==> IsManager(actor) && password == actor.password && shiftId !in shifts
    ensures r == Some(BadRequest) <==> IsManager(actor) && password == actor.password && shiftId in shifts && !IsOpen(shifts[shiftId])
    ensures r.None? ==> shiftId in shifts && IsOpen(shifts[shiftId])
  {
    if !IsManager(actor) || password != actor.password then Some(Forbidden)
    else if shiftId !in shifts then Some(NotFound)
    else if !IsOpen(shifts[shiftId]) then Some(BadRequest)
    else None
  }

  // ------------------------------------------------------------ issue, revert

  /** One line of an issue: the order and its weight at the counter. */
  datatype IssueItem = IssueItem(orderId: int, weightKg: real)

  predicate ItemsDistinct(items: seq<IssueItem>)
  {
    forall k, l :: 0 <= k < l < |items| ==> items[k].orderId != items[l].orderId
  }

  predicate ItemsFound(orders: map<int, Order>, items: seq<IssueItem>)
  {
    forall k :: 0 <= k < |items| ==> items[k].orderId in orders
  }

  /**
   * The request body `IssuePayload` as validated before `issue_orders` runs
   * (main.py:1378-1386): every weight and both rates positive, both payments
   * non-negative.  A body that fails this is refused with 422.
   */
  predicate IssuePayloadValid(items: seq<IssueItem>, pricePerKgUsd: real, exchangeRateUsd: real,
                              paidCash: real, paidCard: real)
  {
    (forall k :: 0 <= k < |items| ==> items[k].weightKg > 0.0)
    && pricePerKgUsd > 0.0 && exchangeRateUsd > 0.0 && paidCash >= 0.0 && paidCard >= 0.0
  }

  /**
   * `issue_orders` (main.py:2489-2594) before it writes: the open shift of
   * the caller's branch, or the refusal.  The body is validated first; then
   * every id must be an order of the company, given once and ready for issue;
   * `underpaid` stands for the money check, which is not modelled.
   */
  function IssueDecision(orders: map<int, Order>, shifts: map<int, Shift>, actor: Actor,
                         items: seq<IssueItem>, pricePerKgUsd: real, exchangeRateUsd: real,
                         paidCash: real, paidCard: real, underpaid: bool): (r: Result<int, Refusal>)
    requires OneOpenShiftPerLocation(shifts)
    ensures !IssuePayloadValid(items, pricePerKgUsd, exchangeRateUsd, paidCash, paidCard) ==> r == Err(BadRequest)
    ensures r == Err(Forbidden) <==>
      IssuePayloadValid(items, pricePerKgUsd, exchangeRateUsd, paidCash, paidCard) && "issue_orders" !in actor.permissions
    ensures r.Ok? ==>
      IssuePayloadValid(items, pricePerKgUsd, exchangeRateUsd, paidCash, paidCard)
      && ItemsFound(orders, items) && ItemsDistinct(items) && !underpaid
      && (forall k :: 0 <= k < |items| ==> orders[items[k].orderId].status == ReadyForIssue)
    ensures r.Ok? ==> r.value in shifts && IsOpen(shifts[r.value]) && actor.locationId == Some(shifts[r.value].locationId)
    ensures r == Err(NotFound) <==>
      IssuePayloadValid(items, pricePerKgUsd, exchangeRateUsd, paidCash, paidCard) && "issue_orders" in actor.permissions
      && actor.locationId.Some? && OpenShiftAt(shifts, actor.locationId.value)
      && !(ItemsFound(orders, items) && ItemsDistinct(items))
    ensures (IssuePayloadValid(items, pricePerKgUsd, exchangeRateUsd, paidCash, paidCard)
             && "issue_orders" in actor.permissions && actor.locationId.Some? && OpenShiftAt(shifts, actor.locationId.value)
             && ItemsFound(orders, items) && ItemsDistinct(items)
             && (exists k :: 0 <= k < |items| && orders[items[k].orderId].status != ReadyForIssue)) ==>
      r == Err(BadRequest)
    ensures (IssuePayloadValid(items, pricePerKgUsd, exchangeRateUsd, paidCash, paidCard)
             && "issue_orders" in actor.permissions && actor.locationId.Some? && OpenShiftAt(shifts, actor.locationId.value)
             && ItemsFound(orders, items) && ItemsDistinct(items)
             && (forall k :: 0 <= k < |items| ==> orders[items[k].orderId].status == ReadyForIssue)
             && !underpaid) ==>
      r.Ok?
  {
    if !IssuePayloadValid(items, pricePerKgUsd, exchangeRateUsd, paidCash, paidCard) then Err(BadRequest)
    else if "issue_orders" !in actor.permissions then Err(Forbidden)
    else if actor.locationId.None? || !OpenShiftAt(shifts, actor.locationId.value) then Err(BadRequest)
    else if !ItemsFound(orders, items) || !ItemsDistinct(items) then Err(NotFound)
    else if exists k :: 0 <= k < |items| && orders[items[k].orderId].status != ReadyForIssue then Err(BadRequest)
    else if underpaid then Err(BadRequest)
    else Ok(OpenShiftIdAt(shifts, actor.locationId.value).value)
  }

  /** The orders after issuing `items`, each one on its own (main.py:2562-2581). */
  function IssueAll(orders: map<int, Order>, items: seq<IssueItem>, t: IssueTerms, count: nat): (r: map<int, Order>)
    requires (items != [] ==> count > 0) && ItemsFound(orders, items)
    ensures r.Keys == orders.Keys
    decreases |items|
  {
    if items == [] then orders
    else
      var last := items[|items| - 1];
      IssueAll(orders, items[..|items| - 1], t, count)[last.orderId := IssuedOrder(orders[last.orderId], last.weightKg, t, count)]
  }

  /** An order that is not listed is left as it was. */
  lemma {:induction false} IssueAllOutside(orders: map<int, Order>, items: seq<IssueItem>, t: IssueTerms, count: nat, id: int)
    requires (items != [] ==> count > 0) && ItemsFound(orders, items) && id in orders
    requires forall k :: 0 <= k < |items| ==> items[k].orderId != id
    ensures IssueAll(orders, items, t, count)[id] == orders[id]
    decreases |items|
  {
    if items != [] {
      var init := items[..|items| - 1];
      assert forall k :: 0 <= k < |init| ==> init[k] == items[k];
      IssueAllOutside(orders, init, t, count, id);
    }
  }

  /** A listed order is issued with its own weight, once. */
  lemma {:induction false} IssueAllListed(orders: map<int, Order>, items: seq<IssueItem>, t: IssueTerms, count: nat, k: int)
    requires count > 0 && ItemsFound(orders, items) && ItemsDistinct(items) && 0 <= k < |items|
    ensures IssueAll(orders, items, t, count)[items[k].orderId]
         == IssuedOrder(orders[items[k].orderId], items[k].weightKg, t, count)
    decreases |items|
  {
    var init := items[..|items| - 1];
    if k < |items| - 1 {
      assert init[k] == items[k];
      assert ItemsDistinct(init);
      IssueAllListed(orders, init, t, count, k);
    }
  }

  /**
   * Issuing touches exactly the listed orders: each becomes issued on the
   * shift with its own weight, and every other order is left as it was.
   */
  lemma IssueAllEffect(orders: map<int, Order>, items: seq<IssueItem>, t: IssueTerms, count: nat)
    requires (items != [] ==> count > 0) && ItemsFound(orders, items) && ItemsDistinct(items)
    ensures IssueAll(orders, items, t, count).Keys == orders.Keys
    ensures forall k :: 0 <= k < |items| ==>
      IssueAll(orders, items, t, count)[items[k].orderId] == IssuedOrder(orders[items[k].orderId], items[k].weightKg, t, count)
    ensures forall id :: id in orders && (forall k :: 0 <= k < |items| ==> items[k].orderId != id) ==>
      IssueAll(orders, items, t, count)[id] == orders[id]
  {
    forall k | 0 <= k < |items|
      ensures IssueAll(orders, items, t, count)[items[k].orderId]
           == IssuedOrder(orders[items[k].orderId], items[k].weightKg, t, count)
    {
      IssueAllListed(orders, items, t, count, k);
    }
    forall id | id in orders && (forall k :: 0 <= k < |items| ==> items[k].orderId != id)
      ensures IssueAll(orders, items, t, count)[id] == orders[id]
    {
      IssueAllOutside(orders, items, t, count, id);
    }
  }

  /** Issuing keeps the track codes. */
  lemma IssueKeepsTracks(orders: map<int, Order>, items: seq<IssueItem>, t: IssueTerms, count: nat)
    requires (items != [] ==> count > 0) && ItemsFound(orders, items) && ItemsDistinct(items) && TracksDistinct(orders)
    ensures TracksDistinct(IssueAll(orders, items, t, count))
  {
    IssueAllEffect(orders, items, t, count);
    var after := IssueAll(orders, items, t, count);
    forall id | id in after
      ensures after[id].trackCode == orders[id].trackCode
    {
      if exists k :: 0 <= k < |items| && items[k].orderId == id {
        var k :| 0 <= k < |items| && items[k].orderId == id;
        assert after[id] == IssuedOrder(orders[id], items[k].weightKg, t, count);
      }
    }
    SameTracksKeepDistinct(orders, after);
  }

  /**
   * Who may take an issue back (main.py:2683-2693): an owner always,
   * anybody else only while the shift of the issue is still open and is
   * their own.
   */
  predicate MayRevert(shifts: map<int, Shift>, actor: Actor, o: Order)
  {
    IsOwner(actor)
    || (o.shiftId.Some? && o.shiftId.value in shifts && IsOpen(shifts[o.shiftId.value])
        && shifts[o.shiftId.value].employeeId == actor.id)
  }

  /** `revert_order_status` (main.py:2656-2716): only an issued order goes back. */
  function RevertDecision(orders: map<int, Order>, shifts: map<int, Shift>, actor: Actor, id: int): (r: Option<Refusal>)
    ensures r.None? <==>
      "issue_orders" in actor.permissions && id in orders && orders[id].status == Issued
      && MayRevert(shifts, actor, orders[id])
    ensures "issue_orders" in actor.permissions && id in orders && orders[id].status != Issued ==> r == Some(BadRequest)
    ensures r == Some(Forbidden) ==> "issue_orders" !in actor.permissions || (id in orders && !MayRevert(shifts, actor, orders[id]))
  {
    if "issue_orders" !in actor.permissions then Some(Forbidden)
    else if id !in orders then Some(NotFound)
    else if orders[id].status != Issued then Some(BadRequest)
    else if !MayRevert(shifts, actor, orders[id]) then Some(Forbidden)
    else None
  }

  /** Reverting keeps the track codes. */
  lemma RevertKeepsTracks(orders: map<int, Order>, id: int, now: Time)
    requires TracksDistinct(orders) && id in orders
    ensures TracksDistinct(orders[id := RevertedOrder(orders[id], now)])
  {
    SameTracksKeepDistinct(orders, orders[id := RevertedOrder(orders[id], now)]);
  }

  // ------------------------------------------------------- staff, settings

  predicate HasOwnerRole(e: Employee, roles: map<int, Role>)
  {
    e.roleId in roles && roles[e.roleId].name == OwnerRole
  }

  /**
   * The patch takes the employee out of the active ones: `is_active` sent
   * as false or as null.  The endpoint itself tests only `is False`.
   */
  predicate Deactivates(p: EmployeePatch)
  {
    p.isActive.Some? && p.isActive.value != Some(true)
  }

  /**
   * `update_employee` (main.py:723-777) before its setattr loop, with the
   * last-owner guard applied to every value that deactivates.  An id that
   * is null or not the company's is not found, as the lookup matches no row.
   */
  function UpdateEmployeeDecision(employees: map<int, Employee>, roles: map<int, Role>, locations: seq<int>,
                                  actor: Actor, id: int, p: EmployeePatch): (r: Option<Refusal>)
    requires RolesKnown(employees, roles)
    ensures r == Some(Forbidden) <==> !IsManager(actor)
    ensures IsManager(actor) && id !in employees ==> r == Some(NotFound)
    ensures (IsManager(actor) && id in employees && Deactivates(p) && HasOwnerRole(employees[id], roles)
             && |ActiveOwners(employees, roles)| <= 1) ==> r == Some(BadRequest)
    ensures r.None? ==>
      id in employees && EmployeePatchStorable(p)
      && (p.locationId.Some? ==> p.locationId.value.value in locations)
      && (p.roleId.Some? ==> p.roleId.value.value in roles)
    ensures r.None? && HasOwnerRole(employees[id], roles) && p.roleId.Some? ==> roles[p.roleId.value.value].name == OwnerRole
  {
    if !IsManager(actor) then Some(Forbidden)
    else if id !in employees then Some(NotFound)
    else
      var e := employees[id];
      if Deactivates(p) && HasOwnerRole(e, roles) && |ActiveOwners(employees, roles)| <= 1 then Some(BadRequest)
      else if p.locationId.Some? && !(p.locationId.value.Some? && p.locationId.value.value in locations) then Some(NotFound)
      else if p.roleId.Some? && !(p.roleId.value.Some? && p.roleId.value.value in roles) then Some(NotFound)
      else if p.roleId.Some? && HasOwnerRole(e, roles) && roles[p.roleId.value.value].name != OwnerRole then Some(BadRequest)
      else if p.fullName == Some(None) || p.password == Some(None) then Some(DbConflict)
      else None
  }

  /**
   * An accepted employee update keeps every role known and leaves the
   * company at least one active owner.
   */
  lemma UpdateEmployeeKeepsOwner(employees: map<int, Employee>, roles: map<int, Role>, locations: seq<int>,
                                 actor: Actor, id: int, p: EmployeePatch)
    requires RolesKnown(employees, roles) && |ActiveOwners(employees, roles)| >= 1
    requires UpdateEmployeeDecision(employees, roles, locations, actor, id, p).None?
    ensures RolesKnown(employees[id := PatchedEmployee(employees[id], p)], roles)
    ensures |ActiveOwners(employees[id := PatchedEmployee(employees[id], p)], roles)| >= 1
  {
    var e := employees[id];
    var e' := PatchedEmployee(e, p);
    if IsActiveOwner(e, roles) && !IsActiveOwner(e', roles) {
      assert HasOwnerRole(e, roles);
      if !Deactivates(p) {
        assert e'.isActive == Some(true);
        assert p.roleId.Some?;
      }
    }
    PutEmployeeKeepsOwner(employees, roles, id, e');
  }

  /** `delete_role` (main.py:824-848): never the owner role, never a role somebody holds. */
  function DeleteRoleDecision(employees: map<int, Employee>, roles: map<int, Role>, actor: Actor, roleId: int): (r: Option<Refusal>)
    ensures r == Some(Forbidden) <==> !IsManager(actor)
    ensures r == Some(NotFound) <==> IsManager(actor) && roleId !in roles
    ensures r == Some(BadRequest) <==>
      IsManager(actor) && roleId in roles
      && (roles[roleId].name == OwnerRole || RoleInUse(employees, roleId))
    ensures r.None? ==> roleId in roles && roles[roleId].name != OwnerRole && !RoleInUse(employees, roleId)
  {
    if !IsManager(actor) then Some(Forbidden)
    else if roleId !in roles then Some(NotFound)
    else if roles[roleId].name == OwnerRole then Some(BadRequest)
    else if RoleInUse(employees, roleId) then Some(BadRequest)
    else None
  }

  /** Deleting a role the guard lets through keeps the roles known and the active owners. */
  lemma DeleteRoleKeepsOwners(employees: map<int, Employee>, roles: map<int, Role>, actor: Actor, roleId: int)
    requires RolesKnown(employees, roles)
    requires DeleteRoleDecision(employees, roles, actor, roleId).None?
    ensures RolesKnown(employees, map r | r in roles && r != roleId :: roles[r])
    ensures ActiveOwners(employees, map r | r in roles && r != roleId :: roles[r]) == ActiveOwners(employees, roles)
  {
    RemoveRoleKeepsOwners(employees, roles, roleId);
    forall id | id in employees
      ensures employees[id].roleId != roleId
    {
    }
  }

  /** `update_role_permissions` (main.py:867-893): any role of the company but the owner's. */
  function RolePermissionsDecision(roles: map<int, Role>, actor: Actor, roleId: int): (r: Option<Refusal>)
    ensures r == Some(Forbidden) <==> !IsManager(actor)
    ensures r == Some(NotFound) <==> IsManager(actor) && roleId !in roles
    ensures r == Some(BadRequest) <==> IsManager(actor) && roleId in roles && roles[roleId].name == OwnerRole
    ensures r.None? ==> roleId in roles && roles[roleId].name != OwnerRole
  {
    if !IsManager(actor) then Some(Forbidden)
    else if roleId !in roles then Some(NotFound)
    else if roles[roleId].name == OwnerRole then Some(BadRequest)
    else None
  }

  /** Changing the permissions of a role keeps its name, so the active owners stay the same. */
  lemma RolePermissionsKeepOwners(employees: map<int, Employee>, roles: map<int, Role>, roleId: int, perms: set<int>)
    requires roleId in roles
    ensures ActiveOwners(employees, roles[roleId := roles[roleId].(permissions := perms)]) == ActiveOwners(employees, roles)
  {
    var after := roles[roleId := roles[roleId].(permissions := perms)];
    forall id | id in employees
      ensures IsActiveOwner(employees[id], after) == IsActiveOwner(employees[id], roles)
    {
      if employees[id].roleId in roles {
        assert after[employees[id].roleId].name == roles[employees[id].roleId].name;
      }
    }
  }

  /** An expense of the company is booked to this type. */
  predicate ExpenseTypeInUse(expenses: map<int, int>, typeId: int)
  {
    exists e :: e in expenses && expenses[e] == typeId
  }

  /** `delete_expense_type` (main.py:2160-2184): refused while an expense uses the type. */
  function DeleteExpenseTypeDecision(expenseTypes: set<int>, expenses: map<int, int>, actor: Actor, typeId: int): (r: Option<Refusal>)
    ensures r == Some(Forbidden) <==> !IsManager(actor) || "manage_expense_types" !in actor.permissions
    ensures r == Some(NotFound) <==> IsManager(actor) && "manage_expense_types" in actor.permissions && typeId !in expenseTypes
    ensures r == Some(BadRequest) <==>
      IsManager(actor) && "manage_expense_types" in actor.permissions
      && typeId in expenseTypes && ExpenseTypeInUse(expenses, typeId)
    ensures r.None? ==> typeId in expenseTypes && forall e :: e in expenses ==> expenses[e] != typeId
  {
    if !IsManager(actor) || "manage_expense_types" !in actor.permissions then Some(Forbidden)
    else if typeId !in expenseTypes then Some(NotFound)
    else if ExpenseTypeInUse(expenses, typeId) then Some(BadRequest)
    else None
  }
}
