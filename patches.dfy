/**
 * Partial updates.
 *
 * The PATCH endpoints read `payload.dict(exclude_unset=True)`: the fields
 * the request actually sent, a field sent as `null` included.  A patch below
 * holds, per field, None when the field was not sent and Some(v) when it
 * was, v being None for `null`.  The endpoints then run
 * `for key, value in update_data.items(): setattr(row, key, value)`, which
 * is `Apply…Fields` over `…Items(patch)`, the fields in declaration order.
 * Each `Patched…` is the reference meaning of a patch, and the
 * `…SetattrLoop` lemmas show that the loop computes it.
 */
module Patches {
  import opened Common
  import opened Rows
  import opened Statuses

  // ---------------------------------------------------------------- clients

  /** One sent field of a client update, with a value its column accepts. */
  datatype ClientField =
    | ClientFullName(name: string)
    | ClientPhone(phone: string)
    | ClientPrefix(prefix: Option<string>)
    | ClientCodeNum(num: Option<int>)
    | ClientStatus(status: Option<string>)
    | ClientTelegram(chatId: Option<string>)

  /** The fields of a client update (main.py:917-923). */
  datatype ClientPatch = ClientPatch(
    fullName: Option<Option<string>>,
    phone: Option<Option<string>>,
    prefix: Option<Option<string>>,
    codeNum: Option<Option<int>>,
    status: Option<Option<string>>,
    telegramChatId: Option<Option<string>>)

  /** A null sent for a NOT NULL column (`full_name`, `phone`): the commit fails. */
  predicate ClientNullViolation(p: ClientPatch)
  {
    p.fullName == Some(None) || p.phone == Some(None)
  }

  /** A field in `update_data` when it was sent, nothing otherwise. */
  function Listed<T>(f: Option<T>): (r: seq<T>)
    ensures |r| <= 1
  {
    if f.Some? then [f.value] else []
  }

  /** The `(key, value)` pairs of `update_data`, in declaration order. */
  function ClientItems(p: ClientPatch): (items: seq<ClientField>)
    requires !ClientNullViolation(p)
  {
    Listed(if p.fullName.Some? then Some(ClientFullName(p.fullName.value.value)) else None)
    + Listed(if p.phone.Some? then Some(ClientPhone(p.phone.value.value)) else None)
    + Listed(if p.prefix.Some? then Some(ClientPrefix(p.prefix.value)) else None)
    + Listed(if p.codeNum.Some? then Some(ClientCodeNum(p.codeNum.value)) else None)
    + Listed(if p.status.Some? then Some(ClientStatus(p.status.value)) else None)
    + Listed(if p.telegramChatId.Some? then Some(ClientTelegram(p.telegramChatId.value)) else None)
  }

  /** `setattr(client, key, value)` for one field. */
  function SetClientField(c: Client, f: ClientField): Client
  {
    match f
    case ClientFullName(v) => c.(fullName := v)
    case ClientPhone(v) => c.(phone := v)
    case ClientPrefix(v) => c.(prefix := v)
    case ClientCodeNum(v) => c.(codeNum := v)
    case ClientStatus(v) => c.(status := v)
    case ClientTelegram(v) => c.(telegramChatId := v)
  }

  /** The setattr loop: the fields applied one after the other, the last one last. */
  function ApplyClientFields(c: Client, fs: seq<ClientField>): Client
    decreases |fs|
  {
    if fs == [] then c else SetClientField(ApplyClientFields(c, fs[..|fs| - 1]), fs[|fs| - 1])
  }

  /** What a client update means: each field sent takes its value, the others keep theirs. */
  function PatchedClient(c: Client, p: ClientPatch): Client
    requires !ClientNullViolation(p)
  {
    Client(
      if p.fullName.Some? then p.fullName.value.value else c.fullName,
      if p.phone.Some? then p.phone.value.value else c.phone,
      if p.prefix.Some? then p.prefix.value else c.prefix,
      if p.codeNum.Some? then p.codeNum.value else c.codeNum,
      if p.status.Some? then p.status.value else c.status,
      if p.telegramChatId.Some? then p.telegramChatId.value else c.telegramChatId)
  }

  /** Running the loop over one more field, if it was sent. */
  lemma ClientStep(c: Client, fs: seq<ClientField>, g: Option<ClientField>, before: Client, after: Client)
    requires ApplyClientFields(c, fs) == before
    requires after == if g.None? then before else SetClientField(before, g.value)
    ensures ApplyClientFields(c, fs + Listed(g)) == after
  {
    if g.None? {
      assert fs + Listed(g) == fs;
    } else {
      assert (fs + Listed(g))[..|fs|] == fs;
    }
  }

  /** The loop over `full_name`, `phone` and `client_code_prefix`. */
  lemma ClientSetattrFront(c: Client, p: ClientPatch)
    requires !ClientNullViolation(p)
    ensures ApplyClientFields(c,
              Listed(if p.fullName.Some? then Some(ClientFullName(p.fullName.value.value)) else None)
              + Listed(if p.phone.Some? then Some(ClientPhone(p.phone.value.value)) else None)
              + Listed(if p.prefix.Some? then Some(ClientPrefix(p.prefix.value)) else None))
            == c.(fullName := if p.fullName.Some? then p.fullName.value.value else c.fullName,
                  phone := if p.phone.Some? then p.phone.value.value else c.phone,
                  prefix := if p.prefix.Some? then p.prefix.value else c.prefix)
  {
    var g1 := if p.fullName.Some? then Some(ClientFullName(p.fullName.value.value)) else None;
    var g2 := if p.phone.Some? then Some(ClientPhone(p.phone.value.value)) else None;
    var g3 := if p.prefix.Some? then Some(ClientPrefix(p.prefix.value)) else None;
    var c1 := c.(fullName := if p.fullName.Some? then p.fullName.value.value else c.fullName);
    var c2 := c1.(phone := if p.phone.Some? then p.phone.value.value else c.phone);
    var c3 := c2.(prefix := if p.prefix.Some? then p.prefix.value else c.prefix);
    assert [] + Listed(g1) == Listed(g1);
    ClientStep(c, [], g1, c, c1);
    ClientStep(c, Listed(g1), g2, c1, c2);
    ClientStep(c, Listed(g1) + Listed(g2), g3, c2, c3);
  }

  /** The loop over `client_code_num`, `status` and `telegram_chat_id`, after any earlier fields. */
  lemma ClientSetattrBack(c: Client, fs: seq<ClientField>, before: Client, p: ClientPatch)
    requires ApplyClientFields(c, fs) == before
    ensures ApplyClientFields(c,
              fs + Listed(if p.codeNum.Some? then Some(ClientCodeNum(p.codeNum.value)) else None)
              + Listed(if p.status.Some? then Some(ClientStatus(p.status.value)) else None)
              + Listed(if p.telegramChatId.Some? then Some(ClientTelegram(p.telegramChatId.value)) else None))
            == before.(codeNum := if p.codeNum.Some? then p.codeNum.value else before.codeNum,
                       status := if p.status.Some? then p.status.value else before.status,
                       telegramChatId := if p.telegramChatId.Some? then p.telegramChatId.value else before.telegramChatId)
  {
    var g4 := if p.codeNum.Some? then Some(ClientCodeNum(p.codeNum.value)) else None;
    var g5 := if p.status.Some? then Some(ClientStatus(p.status.value)) else None;
    var g6 := if p.telegramChatId.Some? then Some(ClientTelegram(p.telegramChatId.value)) else None;
    var c4 := before.(codeNum := if p.codeNum.Some? then p.codeNum.value else before.codeNum);
    var c5 := c4.(status := if p.status.Some? then p.status.value else before.status);
    var c6 := c5.(telegramChatId := if p.telegramChatId.Some? then p.telegramChatId.value else before.telegramChatId);
    ClientStep(c, fs, g4, before, c4);
    ClientStep(c, fs + Listed(g4), g5, c4, c5);
    ClientStep(c, fs + Listed(g4) + Listed(g5), g6, c5, c6);
  }

  /** The setattr loop over the sent fields computes the patched client. */
  lemma ClientSetattrLoop(c: Client, p: ClientPatch)
    requires !ClientNullViolation(p)
    ensures ApplyClientFields(c, ClientItems(p)) == PatchedClient(c, p)
  {
    var front :=
      Listed(if p.fullName.Some? then Some(ClientFullName(p.fullName.value.value)) else None)
      + Listed(if p.phone.Some? then Some(ClientPhone(p.phone.value.value)) else None)
      + Listed(if p.prefix.Some? then Some(ClientPrefix(p.prefix.value)) else None);
    ClientSetattrFront(c, p);
    ClientSetattrBack(c, front, ApplyClientFields(c, front), p);
  }

  // ----------------------------------------------------------------- orders

  /** One sent field of an order update, with a value its column accepts. */
  datatype OrderField =
    | OrderTrack(track: string)
    | OrderStatusName(status: Status)
    | OrderPurchaseType(purchaseType: string)
    | OrderComment(comment: Option<string>)
    | OrderPartyDate(date: Date)
    | OrderClient(clientId: Option<int>)
    | OrderLocation(locationId: Option<int>)

  /** The fields of an order update (main.py:1305-1313); the buyout fields are not modelled. */
  datatype OrderPatch = OrderPatch(
    trackCode: Option<Option<string>>,
    status: Option<Option<string>>,
    purchaseType: Option<Option<string>>,
    comment: Option<Option<string>>,
    partyDate: Option<Option<Date>>,
    clientId: Option<Option<int>>,
    locationId: Option<Option<int>>)

  /**
   * A patch every field of which can be stored: a track code, a known
   * status name, and non-null `purchase_type` and `party_date`.
   */
  predicate OrderPatchStorable(p: OrderPatch)
  {
    (p.trackCode.Some? ==> p.trackCode.value.Some?)
    && (p.status.Some? ==> p.status.value.Some? && p.status.value.value in OrderStatuses)
    && (p.purchaseType.Some? ==> p.purchaseType.value.Some?)
    && (p.partyDate.Some? ==> p.partyDate.value.Some?)
  }

  /** The status a stored status name stands for. */
  function StatusNamed(name: string): (s: Status)
    requires name in OrderStatuses
    ensures Name(s) == name
  {
    Parse(name).value
  }

  /** The `(key, value)` pairs of `update_data`, in declaration order. */
  function OrderItems(p: OrderPatch): (items: seq<OrderField>)
    requires OrderPatchStorable(p)
  {
    Listed(if p.trackCode.Some? then Some(OrderTrack(p.trackCode.value.value)) else None)
    + Listed(if p.status.Some? then Some(OrderStatusName(StatusNamed(p.status.value.value))) else None)
    + Listed(if p.purchaseType.Some? then Some(OrderPurchaseType(p.purchaseType.value.value)) else None)
    + Listed(if p.comment.Some? then Some(OrderComment(p.comment.value)) else None)
    + Listed(if p.partyDate.Some? then Some(OrderPartyDate(p.partyDate.value.value)) else None)
    + Listed(if p.clientId.Some? then Some(OrderClient(p.clientId.value)) else None)
    + Listed(if p.locationId.Some? then Some(OrderLocation(p.locationId.value)) else None)
  }

  /** `setattr(order, key, value)` for one field. */
  function SetOrderField(o: Order, f: OrderField): Order
  {
    match f
    case OrderTrack(v) => o.(trackCode := v)
    case OrderStatusName(v) => o.(status := v)
    case OrderPurchaseType(v) => o.(purchaseType := v)
    case OrderComment(v) => o.(comment := v)
    case OrderPartyDate(v) => o.(partyDate := v)
    case OrderClient(v) => o.(clientId := v)
    case OrderLocation(v) => o.(locationId := v)
  }

  /** The setattr loop: the fields applied one after the other, the last one last. */
  function ApplyOrderFields(o: Order, fs: seq<OrderField>): Order
    decreases |fs|
  {
    if fs == [] then o else SetOrderField(ApplyOrderFields(o, fs[..|fs| - 1]), fs[|fs| - 1])
  }

  /** What an order update means: each field sent takes its value, the others keep theirs. */
  function PatchedOrder(o: Order, p: OrderPatch): Order
    requires OrderPatchStorable(p)
  {
    o.(trackCode := if p.trackCode.Some? then p.trackCode.value.value else o.trackCode,
       status := if p.status.Some? then StatusNamed(p.status.value.value) else o.status,
       purchaseType := if p.purchaseType.Some? then p.purchaseType.value.value else o.purchaseType,
       comment := if p.comment.Some? then p.comment.value else o.comment,
       partyDate := if p.partyDate.Some? then p.partyDate.value.value else o.partyDate,
       clientId := if p.clientId.Some? then p.clientId.value else o.clientId,
       locationId := if p.locationId.Some? then p.locationId.value else o.locationId)
  }

  /** Running the loop over one more field, if it was sent. */
  lemma OrderStep(o: Order, fs: seq<OrderField>, g: Option<OrderField>, before: Order, after: Order)
    requires ApplyOrderFields(o, fs) == before
    requires after == if g.None? then before else SetOrderField(before, g.value)
    ensures ApplyOrderFields(o, fs + Listed(g)) == after
  {
    if g.None? {
      assert fs + Listed(g) == fs;
    } else {
      assert (fs + Listed(g))[..|fs|] == fs;
    }
  }

  /** The loop over `track_code`, `status` and `purchase_type`. */
  lemma OrderSetattrFront(o: Order, p: OrderPatch)
    requires OrderPatchStorable(p)
    ensures ApplyOrderFields(o,
              Listed(if p.trackCode.Some? then Some(OrderTrack(p.trackCode.value.value)) else None)
              + Listed(if p.status.Some? then Some(OrderStatusName(StatusNamed(p.status.value.value))) else None)
              + Listed(if p.purchaseType.Some? then Some(OrderPurchaseType(p.purchaseType.value.value)) else None))
            == o.(trackCode := if p.trackCode.Some? then p.trackCode.value.value else o.trackCode,
                  status := if p.status.Some? then StatusNamed(p.status.value.value) else o.status,
                  purchaseType := if p.purchaseType.Some? then p.purchaseType.value.value else o.purchaseType)
  {
    var g1 := if p.trackCode.Some? then Some(OrderTrack(p.trackCode.value.value)) else None;
    var g2 := if p.status.Some? then Some(OrderStatusName(StatusNamed(p.status.value.value))) else None;
    var g3 := if p.purchaseType.Some? then Some(OrderPurchaseType(p.purchaseType.value.value)) else None;
    var o1 := o.(trackCode := if p.trackCode.Some? then p.trackCode.value.value else o.trackCode);
    var o2 := o1.(status := if p.status.Some? then StatusNamed(p.status.value.value) else o.status);
    var o3 := o2.(purchaseType := if p.purchaseType.Some? then p.purchaseType.value.value else o.purchaseType);
    assert [] + Listed(g1) == Listed(g1);
    OrderStep(o, [], g1, o, o1);
    OrderStep(o, Listed(g1), g2, o1, o2);
    OrderStep(o, Listed(g1) + Listed(g2), g3, o2, o3);
  }

  /** The loop over `comment`, `party_date`, `client_id` and `location_id`, after any earlier fields. */
  lemma OrderSetattrBack(o: Order, fs: seq<OrderField>, before: Order, p: OrderPatch)
    requires ApplyOrderFields(o, fs) == before
    requires p.partyDate.Some? ==> p.partyDate.value.Some?
    ensures ApplyOrderFields(o,
              fs + Listed(if p.comment.Some? then Some(OrderComment(p.comment.value)) else None)
              + Listed(if p.partyDate.Some? then Some(OrderPartyDate(p.partyDate.value.value)) else None)
              + Listed(if p.clientId.Some? then Some(OrderClient(p.clientId.value)) else None)
              + Listed(if p.locationId.Some? then Some(OrderLocation(p.locationId.value)) else None))
            == before.(comment := if p.comment.Some? then p.comment.value else before.comment,
                       partyDate := if p.partyDate.Some? then p.partyDate.value.value else before.partyDate,
                       clientId := if p.clientId.Some? then p.clientId.value else before.clientId,
                       locationId := if p.locationId.Some? then p.locationId.value else before.locationId)
  {
    var g4 := if p.comment.Some? then Some(OrderComment(p.comment.value)) else None;
    var g5 := if p.partyDate.Some? then Some(OrderPartyDate(p.partyDate.value.value)) else None;
    var g6 := if p.clientId.Some? then Some(OrderClient(p.clientId.value)) else None;
    var g7 := if p.locationId.Some? then Some(OrderLocation(p.locationId.value)) else None;
    var o4 := before.(comment := if p.comment.Some? then p.comment.value else before.comment);
    var o5 := o4.(partyDate := if p.partyDate.Some? then p.partyDate.value.value else before.partyDate);
    var o6 := o5.(clientId := if p.clientId.Some? then p.clientId.value else before.clientId);
    var o7 := o6.(locationId := if p.locationId.Some? then p.locationId.value else before.locationId);
    OrderStep(o, fs, g4, before, o4);
    OrderStep(o, fs + Listed(g4), g5, o4, o5);
    OrderStep(o, fs + Listed(g4) + Listed(g5), g6, o5, o6);
    OrderStep(o, fs + Listed(g4) + Listed(g5) + Listed(g6), g7, o6, o7);
  }

  /** The setattr loop over the sent fields computes the patched order. */
  lemma OrderSetattrLoop(o: Order, p: OrderPatch)
    requires OrderPatchStorable(p)
    ensures ApplyOrderFields(o, OrderItems(p)) == PatchedOrder(o, p)
  {
    var front :=
      Listed(if p.trackCode.Some? then Some(OrderTrack(p.trackCode.value.value)) else None)
      + Listed(if p.status.Some? then Some(OrderStatusName(StatusNamed(p.status.value.value))) else None)
      + Listed(if p.purchaseType.Some? then Some(OrderPurchaseType(p.purchaseType.value.value)) else None);
    OrderSetattrFront(o, p);
    OrderSetattrBack(o, front, ApplyOrderFields(o, front), p);
  }

  // -------------------------------------------------------------- employees

  /** One sent field of an employee update, with a value its column accepts. */
  datatype EmployeeField =
    | EmployeeFullName(name: string)
    | EmployeeLocation(locationId: int)
    | EmployeeRole(roleId: int)
    | EmployeePassword(password: string)
    | EmployeeActive(active: Option<bool>)

  /** The fields of an employee update (main.py:195-200). */
  datatype EmployeePatch = EmployeePatch(
    fullName: Option<Option<string>>,
    locationId: Option<Option<int>>,
    roleId: Option<Option<int>>,
    password: Option<Option<string>>,
    isActive: Option<Option<bool>>)

  /** No null for the NOT NULL columns; `is_active` is nullable. */
  predicate EmployeePatchStorable(p: EmployeePatch)
  {
    p.fullName != Some(None) && p.locationId != Some(None) && p.roleId != Some(None)
    && p.password != Some(None)
  }

  /** The `(key, value)` pairs of `update_data`, in declaration order. */
  function EmployeeItems(p: EmployeePatch): (items: seq<EmployeeField>)
    requires EmployeePatchStorable(p)
  {
    Listed(if p.fullName.Some? then Some(EmployeeFullName(p.fullName.value.value)) else None)
    + Listed(if p.locationId.Some? then Some(EmployeeLocation(p.locationId.value.value)) else None)
    + Listed(if p.roleId.Some? then Some(EmployeeRole(p.roleId.value.value)) else None)
    + Listed(if p.password.Some? then Some(EmployeePassword(p.password.value.value)) else None)
    + Listed(if p.isActive.Some? then Some(EmployeeActive(p.isActive.value)) else None)
  }

  /** `setattr(employee, key, value)` for one field. */
  function SetEmployeeField(e: Employee, f: EmployeeField): Employee
  {
    match f
    case EmployeeFullName(v) => e.(fullName := v)
    case EmployeeLocation(v) => e.(locationId := v)
    case EmployeeRole(v) => e.(roleId := v)
    case EmployeePassword(v) => e.(password := v)
    case EmployeeActive(v) => e.(isActive := v)
  }

  /** The setattr loop: the fields applied one after the other, the last one last. */
  function ApplyEmployeeFields(e: Employee, fs: seq<EmployeeField>): Employee
    decreases |fs|
  {
    if fs == [] then e else SetEmployeeField(ApplyEmployeeFields(e, fs[..|fs| - 1]), fs[|fs| - 1])
  }

  /** What an employee update means: each field sent takes its value, the others keep theirs. */
  function PatchedEmployee(e: Employee, p: EmployeePatch): Employee
    requires EmployeePatchStorable(p)
  {
    Employee(
      if p.fullName.Some? then p.fullName.value.value else e.fullName,
      if p.password.Some? then p.password.value.value else e.password,
      if p.isActive.Some? then p.isActive.value else e.isActive,
      if p.roleId.Some? then p.roleId.value.value else e.roleId,
      if p.locationId.Some? then p.locationId.value.value else e.locationId)
  }

  /** Running the loop over one more field, if it was sent. */
  lemma EmployeeStep(e: Employee, fs: seq<EmployeeField>, g: Option<EmployeeField>, before: Employee, after: Employee)
    requires ApplyEmployeeFields(e, fs) == before
    requires after == if g.None? then before else SetEmployeeField(before, g.value)
    ensures ApplyEmployeeFields(e, fs + Listed(g)) == after
  {
    if g.None? {
      assert fs + Listed(g) == fs;
    } else {
      assert (fs + Listed(g))[..|fs|] == fs;
    }
  }

  /** The loop over `full_name`, `location_id` and `role_id`. */
  lemma EmployeeSetattrFront(e: Employee, p: EmployeePatch)
    requires EmployeePatchStorable(p)
    ensures ApplyEmployeeFields(e,
              Listed(if p.fullName.Some? then Some(EmployeeFullName(p.fullName.value.value)) else None)
              + Listed(if p.locationId.Some? then Some(EmployeeLocation(p.locationId.value.value)) else None)
              + Listed(if p.roleId.Some? then Some(EmployeeRole(p.roleId.value.value)) else None))
            == e.(fullName := if p.fullName.Some? then p.fullName.value.value else e.fullName,
                  locationId := if p.locationId.Some? then p.locationId.value.value else e.locationId,
                  roleId := if p.roleId.Some? then p.roleId.value.value else e.roleId)
  {
    var g1 := if p.fullName.Some? then Some(EmployeeFullName(p.fullName.value.value)) else None;
    var g2 := if p.locationId.Some? then Some(EmployeeLocation(p.locationId.value.value)) else None;
    var g3 := if p.roleId.Some? then Some(EmployeeRole(p.roleId.value.value)) else None;
    var e1 := e.(fullName := if p.fullName.Some? then p.fullName.value.value else e.fullName);
    var e2 := e1.(locationId := if p.locationId.Some? then p.locationId.value.value else e.locationId);
    var e3 := e2.(roleId := if p.roleId.Some? then p.roleId.value.value else e.roleId);
    assert [] + Listed(g1) == Listed(g1);
    EmployeeStep(e, [], g1, e, e1);
    EmployeeStep(e, Listed(g1), g2, e1, e2);
    EmployeeStep(e, Listed(g1) + Listed(g2), g3, e2, e3);
  }

  /** The setattr loop over the sent fields computes the patched employee. */
  lemma EmployeeSetattrLoop(e: Employee, p: EmployeePatch)
    requires EmployeePatchStorable(p)
    ensures ApplyEmployeeFields(e, EmployeeItems(p)) == PatchedEmployee(e, p)
  {
    var front :=
      Listed(if p.fullName.Some? then Some(EmployeeFullName(p.fullName.value.value)) else None)
      + Listed(if p.locationId.Some? then Some(EmployeeLocation(p.locationId.value.value)) else None)
      + Listed(if p.roleId.Some? then Some(EmployeeRole(p.roleId.value.value)) else None);
    var g4 := if p.password.Some? then Some(EmployeePassword(p.password.value.value)) else None;
    var g5 := if p.isActive.Some? then Some(EmployeeActive(p.isActive.value)) else None;
    var e3 := ApplyEmployeeFields(e, front);
    var e4 := e3.(password := if p.password.Some? then p.password.value.value else e3.password);
    var e5 := e4.(isActive := if p.isActive.Some? then p.isActive.value else e3.isActive);
    EmployeeSetattrFront(e, p);
    EmployeeStep(e, front, g4, e3, e4);
    EmployeeStep(e, front + Listed(g4), g5, e4, e5);
  }
}
