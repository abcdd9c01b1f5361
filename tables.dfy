/**
 * The tables of one company as maps from primary key to row, the
 * constraints the database and the endpoints keep on them, and the row
 * updates the endpoints make.  Each constraint comes with the lemmas that
 * show which changes keep it.
 */
module Tables {
  import opened Common
  import opened Statuses
  import opened Rows
  import opened ClientCodes

  /** The key the database hands out for a new row: larger than every key in use. */
  function FreshId(keys: set<int>): (r: int)
    ensures r >= 1 && r !in keys
    ensures forall k :: k in keys ==> k < r
  {
    if keys == {} then 1
    else
      var m := MaxOf(keys);
      if m < 1 then 1 else m + 1
  }

  // ---------------------------------------------------------------- clients

  predicate PhoneTaken(clients: map<int, Client>, phone: string)
  {
    exists id :: id in clients && clients[id].phone == phone
  }

  predicate CodeTaken(clients: map<int, Client>, n: int)
  {
    exists id :: id in clients && clients[id].codeNum == Some(n)
  }

  /** The code numbers in use (`func.max` reads their maximum). */
  function CodeNumbers(clients: map<int, Client>): (r: set<int>)
    ensures forall n :: n in r <==> CodeTaken(clients, n)
  {
    set id | id in clients && clients[id].codeNum.Some? :: clients[id].codeNum.value
  }

  /**
   * The unique constraints on clients (models.py:74, 86-87): phone and code
   * number are unique within the company, a Telegram chat is linked to one
   * client.  NULL never clashes.
   */
  predicate ClientsUnique(clients: map<int, Client>)
  {
    forall i, j :: i in clients && j in clients && i != j ==>
      clients[i].phone != clients[j].phone
      && (clients[i].codeNum.Some? ==> clients[i].codeNum != clients[j].codeNum)
      && (clients[i].telegramChatId.Some? ==> clients[i].telegramChatId != clients[j].telegramChatId)
  }

  /** Storing `c` under `id` would break one of those constraints. */
  predicate ClientClash(clients: map<int, Client>, id: int, c: Client)
  {
    exists j :: j in clients && j != id &&
      (clients[j].phone == c.phone
       || (c.codeNum.Some? && clients[j].codeNum == c.codeNum)
       || (c.telegramChatId.Some? && clients[j].telegramChatId == c.telegramChatId))
  }

  /** A row that clashes with no other row keeps the table valid. */
  lemma PutClientKeepsUnique(clients: map<int, Client>, id: int, c: Client)
    requires ClientsUnique(clients) && !ClientClash(clients, id, c)
    ensures ClientsUnique(clients[id := c])
  {
    var m := clients[id := c];
    forall i, j | i in m && j in m && i != j
      ensures m[i].phone != m[j].phone
      ensures m[i].codeNum.Some? ==> m[i].codeNum != m[j].codeNum
      ensures m[i].telegramChatId.Some? ==> m[i].telegramChatId != m[j].telegramChatId
    {
      if i == id {
        assert j in clients && j != id;
      } else if j == id {
        assert i in clients && i != id;
      }
    }
  }

  /** A new client with no code number, phone or chat of anybody else's never clashes. */
  lemma FreshClientFits(clients: map<int, Client>, id: int, c: Client)
    requires id !in clients && !PhoneTaken(clients, c.phone)
    requires c.codeNum.Some? ==> !CodeTaken(clients, c.codeNum.value)
    requires c.telegramChatId.None?
    ensures !ClientClash(clients, id, c)
  {
  }

  /**
   * The row an INSERT stores: SQLAlchemy leaves a None attribute out of the
   * statement, so `client_code_prefix` and `status` take their column
   * defaults "KB" and "Розница" (models.py:72, 75).
   */
  function InsertedClient(fullName: string, phone: string, prefix: Option<string>,
                          codeNum: Option<int>, status: Option<string>): (c: Client)
    ensures c.prefix.Some? && c.status.Some? && c.telegramChatId.None?
    ensures prefix.None? ==> c.prefix == Some(DefaultPrefix)
    ensures status.None? ==> c.status == Some(DefaultClientStatus)
    ensures c.fullName == fullName && c.phone == phone && c.codeNum == codeNum
  {
    Client(fullName, phone,
           if prefix.Some? then prefix else Some(DefaultPrefix),
           codeNum,
           if status.Some? then status else Some(DefaultClientStatus),
           None)
  }

  /** The client still has an order that is not issued (main.py:1084-1087). */
  predicate HasOpenOrders(orders: map<int, Order>, clientId: int)
  {
    exists id :: id in orders && orders[id].clientId == Some(clientId) && orders[id].status != Issued
  }

  /** Deleting a client sets `client_id` of its orders to NULL; nothing else changes. */
  function DetachClient(orders: map<int, Order>, clientId: int): (r: map<int, Order>)
    ensures r.Keys == orders.Keys
    ensures forall id :: id in r ==> r[id].clientId != Some(clientId)
    ensures forall id :: id in r ==> r[id] == orders[id].(clientId := r[id].clientId)
    ensures forall id :: id in r && orders[id].clientId != Some(clientId) ==> r[id] == orders[id]
  {
    map id | id in orders ::
      if orders[id].clientId == Some(clientId) then orders[id].(clientId := None) else orders[id]
  }

  // ----------------------------------------------------------------- shifts

  predicate IsOpen(s: Shift)
  {
    s.endTime.None?
  }

  predicate OpenShiftAt(shifts: map<int, Shift>, location: int)
  {
    exists id :: id in shifts && shifts[id].locationId == location && IsOpen(shifts[id])
  }

  /** At most one shift per branch has no `end_time`. */
  predicate OneOpenShiftPerLocation(shifts: map<int, Shift>)
  {
    forall i, j ::
      i in shifts && j in shifts && IsOpen(shifts[i]) && IsOpen(shifts[j]) && shifts[i].locationId == shifts[j].locationId
      ==> i == j
  }

  /** The open shift of a branch: `.first()` of a query that matches at most one row. */
  function OpenShiftIdAt(shifts: map<int, Shift>, location: int): (r: Option<int>)
    requires OneOpenShiftPerLocation(shifts)
    ensures r.Some? <==> OpenShiftAt(shifts, location)
    ensures r.Some? ==> r.value in shifts && shifts[r.value].locationId == location && IsOpen(shifts[r.value])
  {
    if OpenShiftAt(shifts, location) then
      var id :| id in shifts && shifts[id].locationId == location && IsOpen(shifts[id]);
      Some(id)
    else None
  }

  /** Opening a shift where none is open keeps one open shift per branch. */
  lemma AddShiftKeepsOneOpen(shifts: map<int, Shift>, id: int, s: Shift)
    requires OneOpenShiftPerLocation(shifts) && id !in shifts
    requires !OpenShiftAt(shifts, s.locationId)
    ensures OneOpenShiftPerLocation(shifts[id := s])
  {
    assert forall k :: k in shifts && shifts[k].locationId == s.locationId ==> !IsOpen(shifts[k]);
  }

  /** The row of a closed shift. */
  function ClosedShift(s: Shift, now: Time, closingCash: real): (c: Shift)
    ensures !IsOpen(c) && c.endTime == Some(now) && c.closingCash == Some(closingCash)
    ensures c.(endTime := s.endTime, closingCash := s.closingCash) == s
  {
    s.(endTime := Some(now), closingCash := Some(closingCash))
  }

  /** Closing a shift keeps one open shift per branch, and leaves its branch with none open. */
  lemma CloseShiftKeepsOneOpen(shifts: map<int, Shift>, id: int, now: Time, cash: real)
    requires OneOpenShiftPerLocation(shifts) && id in shifts
    ensures OneOpenShiftPerLocation(shifts[id := ClosedShift(shifts[id], now, cash)])
    ensures IsOpen(shifts[id]) ==> !OpenShiftAt(shifts[id := ClosedShift(shifts[id], now, cash)], shifts[id].locationId)
  {
    if IsOpen(shifts[id]) {
      assert forall k :: k in shifts && k != id && shifts[k].locationId == shifts[id].locationId ==> !IsOpen(shifts[k]);
    }
  }

  // ------------------------------------------------------------- employees

  predicate IsActiveOwner(e: Employee, roles: map<int, Role>)
  {
    e.isActive == Some(true) && e.roleId in roles && roles[e.roleId].name == OwnerRole
  }

  /** The ids the `active_owners_count` query counts (main.py:744-748). */
  function ActiveOwners(employees: map<int, Employee>, roles: map<int, Role>): (r: set<int>)
    ensures forall id :: id in r <==> id in employees && IsActiveOwner(employees[id], roles)
  {
    set id | id in employees && IsActiveOwner(employees[id], roles)
  }

  /** Every employee's role is a role of the company. */
  predicate RolesKnown(employees: map<int, Employee>, roles: map<int, Role>)
  {
    forall id :: id in employees ==> employees[id].roleId in roles
  }

  predicate RoleInUse(employees: map<int, Employee>, roleId: int)
  {
    exists id :: id in employees && employees[id].roleId == roleId
  }

  /**
   * Replacing one employee's row keeps an active owner, provided the row
   * stays an active owner or it was not the only one.
   */
  lemma {:induction false} PutEmployeeKeepsOwner(employees: map<int, Employee>, roles: map<int, Role>, id: int, e: Employee)
    requires |ActiveOwners(employees, roles)| >= 1
    requires id in employees && IsActiveOwner(employees[id], roles) && !IsActiveOwner(e, roles)
      ==> |ActiveOwners(employees, roles)| >= 2
    ensures |ActiveOwners(employees[id := e], roles)| >= 1
  {
    var before := ActiveOwners(employees, roles);
    var after := ActiveOwners(employees[id := e], roles);
    assert before - {id} <= after;
    if id in before {
      if IsActiveOwner(e, roles) {
        assert id in after;
      } else {
        assert |before - {id}| == |before| - 1;
        SubsetSize(before - {id}, after);
      }
    } else {
      assert before - {id} == before;
      SubsetSize(before, after);
    }
  }

  lemma SubsetSize(a: set<int>, b: set<int>)
    requires a <= b
    ensures |a| <= |b|
  {
    assert b == a + (b - a);
  }

  /** Removing a role nobody holds, other than the owner role, keeps the active owners. */
  lemma RemoveRoleKeepsOwners(employees: map<int, Employee>, roles: map<int, Role>, roleId: int)
    requires !RoleInUse(employees, roleId)
    ensures ActiveOwners(employees, map r | r in roles && r != roleId :: roles[r]) == ActiveOwners(employees, roles)
  {
    var rest := map r | r in roles && r != roleId :: roles[r];
    forall id | id in employees
      ensures IsActiveOwner(employees[id], rest) == IsActiveOwner(employees[id], roles)
    {
      assert employees[id].roleId != roleId;
    }
  }

  /**
   * The permissions an owner may give a role (main.py:876-887): the requested
   * ids that exist and whose codename is neither company management nor
   * impersonation.  Unknown or forbidden ids are dropped without an error.
   */
  function AssignablePermissions(requested: seq<int>, table: map<int, string>): (r: set<int>)
    ensures forall p :: p in r <==> p in requested && p in table && table[p] in OwnerAssignable
    ensures forall p :: p in r ==> table[p] != "manage_companies" && table[p] != "impersonate_company"
  {
    set p | p in requested && p in table && table[p] in OwnerAssignable
  }

  // ---------------------------------------------------------------- orders

  /** The payment data of one issue, shared by every order issued together. */
  datatype IssueTerms = IssueTerms(
    pricePerKgUsd: real,
    exchangeRateUsd: real,
    paidCash: real,
    paidCard: real,
    cardPaymentType: Option<string>,
    now: Time,
    shiftId: int)

  /**
   * One order after issue (main.py:2562-2581): issued on the shift, weighed,
   * priced, and paid an equal share of the cash and card amounts; the card
   * type is kept only when something was paid by card.
   */
  function IssuedOrder(o: Order, weight: real, t: IssueTerms, count: nat): (r: Order)
    requires count > 0
    ensures r.status == Issued && r.shiftId == Some(t.shiftId) && r.issuedAt == Some(t.now)
    ensures r.revertedAt.None? && r.weightKg == Some(weight)
    ensures r.finalCostSom == Some(weight * t.pricePerKgUsd * t.exchangeRateUsd)
    ensures r.paidCashSom == Some(t.paidCash / count as real) && r.paidCardSom == Some(t.paidCard / count as real)
    ensures r.cardPaymentType == (if t.paidCard > 0.0 then t.cardPaymentType else None)
    ensures r.trackCode == o.trackCode && r.clientId == o.clientId && r.locationId == o.locationId
    ensures r.partyDate == o.partyDate && r.purchaseType == o.purchaseType && r.comment == o.comment
  {
    o.(status := Issued,
       weightKg := Some(weight),
       pricePerKgUsd := Some(t.pricePerKgUsd),
       exchangeRateUsd := Some(t.exchangeRateUsd),
       finalCostSom := Some(weight * t.pricePerKgUsd * t.exchangeRateUsd),
       paidCashSom := Some(t.paidCash / count as real),
       paidCardSom := Some(t.paidCard / count as real),
       cardPaymentType := if t.paidCard > 0.0 then t.cardPaymentType else None,
       issuedAt := Some(t.now),
       shiftId := Some(t.shiftId),
       revertedAt := None)
  }

  /**
   * An issued order taken back (main.py:2699-2708): ready for issue again,
   * with the issue data cleared.  The price and the rate stay.
   */
  function RevertedOrder(o: Order, now: Time): (r: Order)
    ensures r.status == ReadyForIssue && r.revertedAt == Some(now)
    ensures r.issuedAt.None? && r.shiftId.None? && r.weightKg.None? && r.finalCostSom.None?
    ensures r.paidCashSom.None? && r.paidCardSom.None? && r.cardPaymentType.None?
    ensures r.pricePerKgUsd == o.pricePerKgUsd && r.exchangeRateUsd == o.exchangeRateUsd
    ensures r.trackCode == o.trackCode && r.clientId == o.clientId && r.locationId == o.locationId
  {
    o.(status := ReadyForIssue,
       revertedAt := Some(now),
       issuedAt := None,
       shiftId := None,
       weightKg := None,
       finalCostSom := None,
       paidCashSom := None,
       paidCardSom := None,
       cardPaymentType := None)
  }

  /** An order that is ready for issue and carries no issue data. */
  predicate AwaitsIssue(o: Order)
  {
    o.status == ReadyForIssue && o.issuedAt.None? && o.shiftId.None? && o.weightKg.None?
    && o.finalCostSom.None? && o.paidCashSom.None? && o.paidCardSom.None? && o.cardPaymentType.None?
  }

  /**
   * Issuing and then reverting gives back the order as it was, except that
   * it remembers the revert time and the price and rate of the issue.
   */
  lemma IssueThenRevert(o: Order, weight: real, t: IssueTerms, count: nat, later: Time)
    requires count > 0 && AwaitsIssue(o)
    ensures RevertedOrder(IssuedOrder(o, weight, t, count), later)
      == o.(revertedAt := Some(later), pricePerKgUsd := Some(t.pricePerKgUsd), exchangeRateUsd := Some(t.exchangeRateUsd))
    ensures AwaitsIssue(RevertedOrder(IssuedOrder(o, weight, t, count), later))
  {
  }
}
