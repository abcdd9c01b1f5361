/**
 * One company's data as the backend keeps it, and the endpoints that change
 * it.  Every endpoint first takes its decision with the matching function
 * of the Endpoints module, answers with the refusal if there is one and
 * then writes; the invariant `Valid` collects the constraints those
 * decisions exist to keep.
 */
module Store {
  import opened Common
  import opened Statuses
  import opened Rows
  import opened Patches
  import opened Tables
  import opened OrderRules
  import opened Endpoints
  import opened Imports

  /** The permissions the owner role is created with: every one but the two super-admin ones. */
  function OwnerPermissions(table: map<int, string>): (r: set<int>)
    ensures forall p :: p in r ==> p in table && table[p] != "manage_companies" && table[p] != "impersonate_company"
    ensures forall p :: p in table && table[p] in OwnerAssignable ==> p in r
  {
    set p | p in table && table[p] != "manage_companies" && table[p] != "impersonate_company"
  }

  /** The expense types every company starts with (main.py:567). */
  const DefaultExpenseTypes: map<int, string> :=
    map[1 := "Хоз. нужды", 2 := "Зарплата", 3 := "Аванс", 4 := "Аренда", 5 := "Прочие расходы"]

  /** `for key, value in update_data.items(): setattr(row, key, value)` on a client. */
  method RunClientSetattr(c: Client, items: seq<ClientField>) returns (r: Client)
    ensures r == ApplyClientFields(c, items)
  {
    r := c;
    var i := 0;
    while i < |items|
      invariant 0 <= i <= |items|
      invariant r == ApplyClientFields(c, items[..i])
    {
      assert items[..i + 1][..i] == items[..i];
      r := SetClientField(r, items[i]);
      i := i + 1;
    }
    assert items[..i] == items;
  }

  /** The setattr loop of `update_client` (main.py:1063-1064) over the fields sent. */
  method SetClientAttrs(c: Client, p: ClientPatch) returns (r: Client)
    requires !ClientNullViolation(p)
    ensures r == PatchedClient(c, p)
  {
    r := RunClientSetattr(c, ClientItems(p));
    ClientSetattrLoop(c, p);
  }

  /** `for key, value in update_data.items(): setattr(row, key, value)` on an order. */
  method RunOrderSetattr(o: Order, items: seq<OrderField>) returns (r: Order)
    ensures r == ApplyOrderFields(o, items)
  {
    r := o;
    var i := 0;
    while i < |items|
      invariant 0 <= i <= |items|
      invariant r == ApplyOrderFields(o, items[..i])
    {
      assert items[..i + 1][..i] == items[..i];
      r := SetOrderField(r, items[i]);
      i := i + 1;
    }
    assert items[..i] == items;
  }

  /** The setattr loop of `update_order` (main.py:1618-1619) over the fields sent. */
  method SetOrderAttrs(o: Order, p: OrderPatch) returns (r: Order)
    requires OrderPatchStorable(p)
    ensures r == PatchedOrder(o, p)
  {
    r := RunOrderSetattr(o, OrderItems(p));
    OrderSetattrLoop(o, p);
  }

  /** `for key, value in update_data.items(): setattr(row, key, value)` on an employee. */
  method RunEmployeeSetattr(e: Employee, items: seq<EmployeeField>) returns (r: Employee)
    ensures r == ApplyEmployeeFields(e, items)
  {
    r := e;
    var i := 0;
    while i < |items|
      invariant 0 <= i <= |items|
      invariant r == ApplyEmployeeFields(e, items[..i])
    {
      assert items[..i + 1][..i] == items[..i];
      r := SetEmployeeField(r, items[i]);
      i := i + 1;
    }
    assert items[..i] == items;
  }

  /** The setattr loop of `update_employee` (main.py:768-769) over the fields sent. */
  method SetEmployeeAttrs(e: Employee, p: EmployeePatch) returns (r: Employee)
    requires EmployeePatchStorable(p)
    ensures r == PatchedEmployee(e, p)
  {
    r := RunEmployeeSetattr(e, EmployeeItems(p));
    EmployeeSetattrLoop(e, p);
  }

  /**
   * The issue loop of `issue_orders` (main.py:2562-2581): each listed order,
   * read from the snapshot taken before the loop, is issued in turn.
   */
  method RunIssue(before: map<int, Order>, items: seq<IssueItem>, t: IssueTerms) returns (after: map<int, Order>)
    requires ItemsFound(before, items)
    ensures after == IssueAll(before, items, t, |items|)
  {
    after := before;
    var i := 0;
    while i < |items|
      invariant 0 <= i <= |items|
      invariant after == IssueAll(before, items[..i], t, |items|)
    {
      assert items[..i + 1][..i] == items[..i];
      after := after[items[i].orderId := IssuedOrder(before[items[i].orderId], items[i].weightKg, t, |items|)];
      i := i + 1;
    }
    assert items[..i] == items;
  }

  /** The row loop of `bulk_import_clients` (main.py:1176-1247). */
  method RunClientImport(start: ClientImport, rows: seq<ClientRow>) returns (st: ClientImport)
    ensures st == ImportClients(start, rows)
  {
    st := start;
    var i := 0;
    while i < |rows|
      invariant 0 <= i <= |rows|
      invariant st == ImportClients(start, rows[..i])
    {
      assert rows[..i + 1][..i] == rows[..i];
      st := ImportClientRow(st, rows[i]);
      i := i + 1;
    }
    assert rows[..i] == rows;
  }

  /** The row loop of `bulk_import_orders` (main.py:1831-1892): the first failing row ends the import. */
  method RunOrderImport(start: OrderImport, rows: seq<OrderRow>, terms: OrderImportTerms)
    returns (r: Result<OrderImport, Refusal>)
    ensures r == ImportOrders(start, rows, terms)
  {
    var st := start;
    var i := 0;
    while i < |rows|
      invariant 0 <= i <= |rows|
      invariant ImportOrders(start, rows[..i], terms) == Ok(st)
    {
      assert rows[..i + 1][..i] == rows[..i];
      var next := ImportOrderRow(st, rows[i], terms);
      if next.Err? {
        ImportOrdersStopsAtError(start, rows, i + 1, terms);
        return Err(next.error);
      }
      st := next.value;
      i := i + 1;
    }
    assert rows[..i] == rows;
    r := Ok(st);
  }

  class CompanyStore {
    const companyId: int
    /** The global permission table, id to codename. */
    const permissionTable: map<int, string>

    var clients: map<int, Client>
    var orders: map<int, Order>
    var shifts: map<int, Shift>
    var roles: map<int, Role>
    var employees: map<int, Employee>
    /** The company's branches, in the order `.first()` sees them. */
    var locations: seq<int>
    var expenseTypes: map<int, string>
    /** Each expense, with the id of its type. */
    var expenses: map<int, int>

    /**
     * The constraints the endpoints keep: unique phones and code numbers,
     * distinct track codes, at most one open shift per branch, every role
     * and expense type referred to exists, and an active owner remains.
     */
    ghost predicate Valid()
      reads this
    {
      ClientsUnique(clients) && TracksDistinct(orders) && OneOpenShiftPerLocation(shifts)
      && RolesKnown(employees, roles) && |ActiveOwners(employees, roles)| >= 1
      && (forall e :: e in expenses ==> expenses[e] in expenseTypes)
    }

    /**
     * The data `create_company` sets up (main.py:550-570): the main branch,
     * the owner role, the owner as an active employee of that branch, and
     * the default expense types.
     */
    constructor (companyId: int, permissionTable: map<int, string>, ownerName: string, ownerPassword: string)
      ensures Valid()
      ensures this.companyId == companyId && this.permissionTable == permissionTable
      ensures clients == map[] && orders == map[] && shifts == map[] && expenses == map[]
      ensures locations == [1] && expenseTypes == DefaultExpenseTypes
      ensures roles == map[1 := Role(OwnerRole, OwnerPermissions(permissionTable))]
      ensures employees == map[1 := Employee(ownerName, ownerPassword, Some(true), 1, 1)]
    {
      this.companyId := companyId;
      this.permissionTable := permissionTable;
      clients := map[];
      orders := map[];
      shifts := map[];
      locations := [1];
      roles := map[1 := Role(OwnerRole, OwnerPermissions(permissionTable))];
      employees := map[1 := Employee(ownerName, ownerPassword, Some(true), 1, 1)];
      expenseTypes := DefaultExpenseTypes;
      expenses := map[];
      new;
      assert 1 in ActiveOwners(employees, roles);
    }

    // -------------------------------------------------------------- clients

    /** `create_client` (main.py:956-993). */
    method CreateClient(actor: Actor, fullName: string, phone: string, prefix: Option<string>,
                        codeNum: Option<int>, status: Option<string>) returns (r: Result<int, Refusal>)
      requires Valid()
      modifies this`clients
      ensures Valid()
      ensures CreateClientDecision(old(clients), actor, phone, codeNum).Err? ==>
        r == Err(CreateClientDecision(old(clients), actor, phone, codeNum).error) && clients == old(clients)
      ensures CreateClientDecision(old(clients), actor, phone, codeNum).Ok? ==>
        r == Ok(FreshId(old(clients).Keys))
        && clients == old(clients)[r.value := InsertedClient(fullName, phone, prefix,
             Some(CreateClientDecision(old(clients), actor, phone, codeNum).value), status)]
    {
      var d := CreateClientDecision(clients, actor, phone, codeNum);
      if d.Err? {
        return Err(d.error);
      }
      CreateClientKeepsUnique(clients, actor, fullName, phone, prefix, codeNum, status);
      var id := FreshId(clients.Keys);
      clients := clients[id := InsertedClient(fullName, phone, prefix, Some(d.value), status)];
      r := Ok(id);
    }

    /** `update_client` (main.py:1036-1068): the checks, the setattr loop, the commit. */
    method UpdateClient(actor: Actor, id: int, p: ClientPatch) returns (r: Result<Client, Refusal>)
      requires Valid()
      modifies this`clients
      ensures Valid()
      ensures r == UpdateClientOutcome(old(clients), actor, id, p)
      ensures r.Ok? ==> clients == old(clients)[id := r.value]
      ensures r.Err? ==> clients == old(clients)
    {
      var guard := UpdateClientGuard(clients, actor, id, p);
      if guard.Some? {
        return Err(guard.value);
      }
      if ClientNullViolation(p) {
        return Err(DbConflict);
      }
      var c := SetClientAttrs(clients[id], p);
      if ClientClash(clients, id, c) {
        return Err(DbConflict);
      }
      UpdateClientKeepsUnique(clients, actor, id, p);
      clients := clients[id := c];
      r := Ok(c);
    }

    /** `delete_client` (main.py:1070-1099): the row goes, its orders lose their client. */
    method DeleteClient(actor: Actor, id: int) returns (r: Option<Refusal>)
      requires Valid()
      modifies this`clients, this`orders
      ensures Valid()
      ensures r == DeleteClientDecision(old(clients), old(orders), actor, id)
      ensures r.None? ==> clients == old(clients) - {id} && orders == DetachClient(old(orders), id)
      ensures r.Some? ==> clients == old(clients) && orders == old(orders)
    {
      r := DeleteClientDecision(clients, orders, actor, id);
      if r.Some? {
        return;
      }
      SameTracksKeepDistinct(orders, DetachClient(orders, id));
      clients := clients - {id};
      orders := DetachClient(orders, id);
    }

    /**
     * `bulk_import_clients` (main.py:1160-1252), with the seen phones and
     * codes kept in sets as intended.
     */
    method BulkImportClients(actor: Actor, rows: seq<ClientRow>) returns (r: Result<ClientImport, Refusal>)
      requires Valid()
      modifies this`clients
      ensures Valid()
      ensures r == BulkClientImport(old(clients), actor, rows)
      ensures r.Ok? ==> clients == r.value.clients
      ensures r.Err? ==> clients == old(clients)
    {
      if !IsManager(actor) {
        return Err(Forbidden);
      }
      var st := RunClientImport(ClientImportStart(clients), rows);
      r := Ok(st);
      assert r == BulkClientImport(clients, actor, rows);
      clients := st.clients;
    }

    // --------------------------------------------------------------- orders

    /** `create_order` (main.py:1460-1551); `today` stands for `date.today()`. */
    method CreateOrder(actor: Actor, clientId: int, track: string, purchaseType: string, comment: Option<string>,
                       partyDate: Option<Date>, today: Date, requested: Option<int>) returns (r: Result<int, Refusal>)
      requires Valid()
      modifies this`orders
      ensures Valid()
      ensures CreateOrderDecision(clients, old(orders), locations, actor, clientId, track, requested).Err? ==>
        r == Err(CreateOrderDecision(clients, old(orders), locations, actor, clientId, track, requested).error)
        && orders == old(orders)
      ensures CreateOrderDecision(clients, old(orders), locations, actor, clientId, track, requested).Ok? ==>
        r == Ok(FreshId(old(orders).Keys))
        && orders == old(orders)[r.value := NewOrder(track, purchaseType, comment,
             if partyDate.Some? then partyDate.value else today, clientId,
             CreateOrderDecision(clients, old(orders), locations, actor, clientId, track, requested).value)]
    {
      var d := CreateOrderDecision(clients, orders, locations, actor, clientId, track, requested);
      if d.Err? {
        return Err(d.error);
      }
      var date := if partyDate.Some? then partyDate.value else today;
      CreateOrderKeepsTracks(clients, orders, locations, actor, clientId, track, requested, purchaseType, comment, date);
      var id := FreshId(orders.Keys);
      orders := orders[id := NewOrder(track, purchaseType, comment, date, clientId, d.value)];
      r := Ok(id);
    }

    /** `update_order` (main.py:1553-1636): the checks, then the setattr loop over the fields sent. */
    method UpdateOrder(actor: Actor, id: int, p: OrderPatch) returns (r: Result<Order, Refusal>)
      requires Valid()
      modifies this`orders
      ensures Valid()
      ensures UpdateOrderGuard(old(orders), clients, locations, actor, id, p).Some? ==>
        r == Err(UpdateOrderGuard(old(orders), clients, locations, actor, id, p).value) && orders == old(orders)
      ensures UpdateOrderGuard(old(orders), clients, locations, actor, id, p).None? ==>
        r == Ok(PatchedOrder(old(orders)[id], EffectivePatch(actor, p))) && orders == old(orders)[id := r.value]
    {
      var guard := UpdateOrderGuard(orders, clients, locations, actor, id, p);
      if guard.Some? {
        return Err(guard.value);
      }
      var q := EffectivePatch(actor, p);
      var o := SetOrderAttrs(orders[id], q);
      UpdateOrderKeepsTracks(orders, clients, locations, actor, id, p);
      orders := orders[id := o];
      r := Ok(o);
    }

    /**
     * `bulk_order_action` (main.py:1685-1769): one UPDATE or DELETE over the
     * selected orders, or nothing at all.
     */
    method BulkOrderAction(actor: Actor, action: string, ids: seq<int>, newStatus: Option<string>,
                           newPartyDate: Option<Date>, rate: Option<real>, password: Option<string>)
      returns (r: Option<Refusal>)
      requires Valid()
      modifies this`orders
      ensures Valid()
      ensures BulkActionDecision(old(orders), actor, action, ids, newStatus, newPartyDate, rate, password).Err? ==>
        r == Some(BulkActionDecision(old(orders), actor, action, ids, newStatus, newPartyDate, rate, password).error)
        && orders == old(orders)
      ensures BulkActionDecision(old(orders), actor, action, ids, newStatus, newPartyDate, rate, password).Ok? ==>
        r.None? && orders == ApplyBulk(old(orders), (set i | i in ids),
          BulkActionDecision(old(orders), actor, action, ids, newStatus, newPartyDate, rate, password).value)
    {
      var d := BulkActionDecision(orders, actor, action, ids, newStatus, newPartyDate, rate, password);
      if d.Err? {
        return Some(d.error);
      }
      var selected := set i | i in ids;
      BulkKeepsTracks(orders, selected, d.value);
      orders := ApplyBulk(orders, selected, d.value);
      r := None;
    }

    /**
     * `bulk_import_orders` (main.py:1775-1904); `today` stands for
     * `date.today()` and `timestampMs` for the clock read for placeholder
     * phones.  A failing row fails the request and nothing is stored.
     */
    method BulkImportOrders(actor: Actor, rows: seq<OrderRow>, requested: Option<int>, partyDate: Option<Date>,
                            today: Date, timestampMs: int) returns (r: Result<OrderImport, Refusal>)
      requires Valid()
      modifies this`clients, this`orders
      ensures Valid()
      ensures r == BulkOrderImport(old(clients), old(orders), locations, actor, companyId, rows, requested,
                                   if partyDate.Some? then partyDate.value else today, timestampMs)
      ensures r.Ok? ==> clients == r.value.clients && orders == r.value.orders
      ensures r.Err? ==> clients == old(clients) && orders == old(orders)
    {
      var date := if partyDate.Some? then partyDate.value else today;
      var location := ResolveLocation(actor, requested, locations);
      if location.Err? {
        return Err(location.error);
      }
      var terms := OrderImportTerms(companyId, location.value, date, timestampMs, PhoneIndex(clients), CodeIndex(clients));
      r := RunOrderImport(OrderImportStart(clients, orders), rows, terms);
      assert r == BulkOrderImport(clients, orders, locations, actor, companyId, rows, requested, date, timestampMs);
      if r.Ok? {
        clients := r.value.clients;
        orders := r.value.orders;
      }
    }

    // --------------------------------------------------------------- shifts

    /** `open_shift` (main.py:1967-2058); `now` stands for the insert time. */
    method OpenShift(actor: Actor, employeeId: int, locationId: int, now: Time,
                     startingCash: real, exchangeRateUsd: real, pricePerKgUsd: real) returns (r: Result<int, Refusal>)
      requires Valid()
      modifies this`shifts
      ensures Valid()
      ensures OpenShiftDecision(old(shifts), employees, locations, actor, employeeId, locationId).Some? ==>
        r == Err(OpenShiftDecision(old(shifts), employees, locations, actor, employeeId, locationId).value)
        && shifts == old(shifts)
      ensures OpenShiftDecision(old(shifts), employees, locations, actor, employeeId, locationId).None? ==>
        r == Ok(FreshId(old(shifts).Keys))
        && shifts == old(shifts)[r.value := Shift(employeeId, locationId, now, startingCash, exchangeRateUsd, pricePerKgUsd, None, None)]
    {
      var d := OpenShiftDecision(shifts, employees, locations, actor, employeeId, locationId);
      if d.Some? {
        return Err(d.value);
      }
      var id := FreshId(shifts.Keys);
      var s := Shift(employeeId, locationId, now, startingCash, exchangeRateUsd, pricePerKgUsd, None, None);
      AddShiftKeepsOneOpen(shifts, id, s);
      shifts := shifts[id := s];
      r := Ok(id);
    }

    /** `close_shift` (main.py:2060-2093) without its super-admin test: the caller's branch's open shift. */
    method CloseShift(actor: Actor, now: Time, closingCash: real) returns (r: Result<int, Refusal>)
      requires Valid()
      modifies this`shifts
      ensures Valid()
      ensures r == CloseShiftDecision(old(shifts), actor)
      ensures r.Ok? ==> shifts == old(shifts)[r.value := ClosedShift(old(shifts)[r.value], now, closingCash)]
      ensures r.Err? ==> shifts == old(shifts)
    {
      r := CloseShiftDecision(shifts, actor);
      if r.Err? {
        return;
      }
      CloseShiftKeepsOneOpen(shifts, r.value, now, closingCash);
      shifts := shifts[r.value := ClosedShift(shifts[r.value], now, closingCash)];
    }

    /** `force_close_shift` (main.py:280-310). */
    method ForceCloseShift(actor: Actor, shiftId: int, password: string, now: Time, closingCash: real)
      returns (r: Option<Refusal>)
      requires Valid()
      modifies this`shifts
      ensures Valid()
      ensures r == ForceCloseDecision(old(shifts), actor, shiftId, password)
      ensures r.None? ==> shifts == old(shifts)[shiftId := ClosedShift(old(shifts)[shiftId], now, closingCash)]
      ensures r.Some? ==> shifts == old(shifts)
    {
      r := ForceCloseDecision(shifts, actor, shiftId, password);
      if r.Some? {
        return;
      }
      CloseShiftKeepsOneOpen(shifts, shiftId, now, closingCash);
      shifts := shifts[shiftId := ClosedShift(shifts[shiftId], now, closingCash)];
    }

    // -------------------------------------------------------- issue, revert

    /**
     * `issue_orders` (main.py:2489-2594): the checks, then every listed
     * order is issued on the open shift of the caller's branch.  The
     * payment check is the input `underpaid`.
     */
    method IssueOrders(actor: Actor, items: seq<IssueItem>, pricePerKgUsd: real, exchangeRateUsd: real,
                       paidCash: real, paidCard: real, cardPaymentType: Option<string>, underpaid: bool, now: Time)
      returns (r: Result<int, Refusal>)
      requires Valid()
      modifies this`orders
      ensures Valid()
      ensures IssueDecision(old(orders), shifts, actor, items, pricePerKgUsd, exchangeRateUsd, paidCash, paidCard, underpaid).Err? ==>
        r == IssueDecision(old(orders), shifts, actor, items, pricePerKgUsd, exchangeRateUsd, paidCash, paidCard, underpaid) && orders == old(orders)
      ensures IssueDecision(old(orders), shifts, actor, items, pricePerKgUsd, exchangeRateUsd, paidCash, paidCard, underpaid).Ok? ==>
        r == Ok(|items|)
        && orders == IssueAll(old(orders), items,
             IssueTerms(pricePerKgUsd, exchangeRateUsd, paidCash, paidCard, cardPaymentType, now,
                        IssueDecision(old(orders), shifts, actor, items, pricePerKgUsd, exchangeRateUsd, paidCash, paidCard, underpaid).value), |items|)
    {
      var d := IssueDecision(orders, shifts, actor, items, pricePerKgUsd, exchangeRateUsd, paidCash, paidCard, underpaid);
      if d.Err? {
        return d;
      }
      var t := IssueTerms(pricePerKgUsd, exchangeRateUsd, paidCash, paidCard, cardPaymentType, now, d.value);
      IssueKeepsTracks(orders, items, t, |items|);
      var after := RunIssue(orders, items, t);
      orders := after;
      r := Ok(|items|);
    }

    /** `revert_order_status` (main.py:2656-2725). */
    method RevertOrderStatus(actor: Actor, id: int, now: Time) returns (r: Option<Refusal>)
      requires Valid()
      modifies this`orders
      ensures Valid()
      ensures r == RevertDecision(old(orders), shifts, actor, id)
      ensures r.None? ==> orders == old(orders)[id := RevertedOrder(old(orders)[id], now)]
      ensures r.Some? ==> orders == old(orders)
    {
      r := RevertDecision(orders, shifts, actor, id);
      if r.Some? {
        return;
      }
      RevertKeepsTracks(orders, id, now);
      orders := orders[id := RevertedOrder(orders[id], now)];
    }

    // ----------------------------------------------------- staff, settings

    /** `update_employee` (main.py:723-777), with the last-owner guard as intended. */
    method UpdateEmployee(actor: Actor, id: int, p: EmployeePatch) returns (r: Result<Employee, Refusal>)
      requires Valid()
      modifies this`employees
      ensures Valid()
      ensures UpdateEmployeeDecision(old(employees), roles, locations, actor, id, p).Some? ==>
        r == Err(UpdateEmployeeDecision(old(employees), roles, locations, actor, id, p).value)
        && employees == old(employees)
      ensures UpdateEmployeeDecision(old(employees), roles, locations, actor, id, p).None? ==>
        r == Ok(PatchedEmployee(old(employees)[id], p)) && employees == old(employees)[id := r.value]
    {
      var d := UpdateEmployeeDecision(employees, roles, locations, actor, id, p);
      if d.Some? {
        return Err(d.value);
      }
      var e := SetEmployeeAttrs(employees[id], p);
      UpdateEmployeeKeepsOwner(employees, roles, locations, actor, id, p);
      employees := employees[id := e];
      r := Ok(e);
    }

    /** `delete_role` (main.py:824-848). */
    method DeleteRole(actor: Actor, roleId: int) returns (r: Option<Refusal>)
      requires Valid()
      modifies this`roles
      ensures Valid()
      ensures r == DeleteRoleDecision(employees, old(roles), actor, roleId)
      ensures r.None? ==> roles == map k | k in old(roles) && k != roleId :: old(roles)[k]
      ensures r.Some? ==> roles == old(roles)
    {
      r := DeleteRoleDecision(employees, roles, actor, roleId);
      if r.Some? {
        return;
      }
      DeleteRoleKeepsOwners(employees, roles, actor, roleId);
      roles := map k | k in roles && k != roleId :: roles[k];
    }

    /**
     * `update_role_permissions` (main.py:867-898): the role gets exactly the
     * requested permissions an owner may assign.
     */
    method UpdateRolePermissions(actor: Actor, roleId: int, requested: seq<int>) returns (r: Option<Refusal>)
      requires Valid()
      modifies this`roles
      ensures Valid()
      ensures r == RolePermissionsDecision(old(roles), actor, roleId)
      ensures r.None? ==>
        roles == old(roles)[roleId := old(roles)[roleId].(permissions := AssignablePermissions(requested, permissionTable))]
      ensures r.Some? ==> roles == old(roles)
    {
      r := RolePermissionsDecision(roles, actor, roleId);
      if r.Some? {
        return;
      }
      var perms := AssignablePermissions(requested, permissionTable);
      RolePermissionsKeepOwners(employees, roles, roleId, perms);
      roles := roles[roleId := roles[roleId].(permissions := perms)];
    }

    /** `delete_expense_type` (main.py:2160-2188). */
    method DeleteExpenseType(actor: Actor, typeId: int) returns (r: Option<Refusal>)
      requires Valid()
      modifies this`expenseTypes
      ensures Valid()
      ensures r == DeleteExpenseTypeDecision(old(expenseTypes).Keys, expenses, actor, typeId)
      ensures r.None? ==> expenseTypes == old(expenseTypes) - {typeId}
      ensures r.Some? ==> expenseTypes == old(expenseTypes)
    {
      r := DeleteExpenseTypeDecision(expenseTypes.Keys, expenses, actor, typeId);
      if r.Some? {
        return;
      }
      expenseTypes := expenseTypes - {typeId};
    }
  }
}
