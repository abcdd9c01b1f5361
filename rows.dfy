/**
 * The rows of one company's data as the backend stores them, and the
 * employee on whose behalf an endpoint runs.
 *
 * Money and weights are floating point in the database; here they are
 * `real`.  Dates and instants are plain integers supplied by the caller.
 */
module Rows {
  import opened Common
  import opened Statuses

  /** Why an endpoint refused, standing for the HTTP error it answers with. */
  datatype Refusal =
    | NotFound        // 404
    | BadRequest      // 400
    | Forbidden       // 403
    | DbConflict      // 500: the commit breaks a unique or NOT NULL constraint
    | InternalError   // 500: an uncaught Python exception

  type Date = int
  type Time = int

  const OwnerRole: string := "Владелец"
  const DefaultClientStatus: string := "Розница"
  const DefaultPurchaseType: string := "Доставка"
  const BuyoutPurchaseType: string := "Выкуп"
  const PendingPrefix: string := "PENDING-"

  /** The permission codenames the system knows. */
  const AllPermissions: set<string> := {
    "manage_companies", "impersonate_company", "manage_employees", "manage_roles",
    "manage_locations", "manage_expense_types", "view_full_reports", "view_shift_report",
    "add_expense", "open_close_shift", "issue_orders", "manage_clients", "manage_orders",
    "wipe_database"
  }

  /** The permissions an owner may put on a role of the company. */
  const OwnerAssignable: set<string> := AllPermissions - {"manage_companies", "impersonate_company"}

  datatype Client = Client(
    fullName: string,
    phone: string,
    prefix: Option<string>,
    codeNum: Option<int>,
    status: Option<string>,
    telegramChatId: Option<string>)

  datatype Order = Order(
    trackCode: string,
    status: Status,
    purchaseType: string,
    comment: Option<string>,
    partyDate: Date,
    clientId: Option<int>,
    locationId: Option<int>,
    shiftId: Option<int>,
    issuedAt: Option<Time>,
    revertedAt: Option<Time>,
    weightKg: Option<real>,
    pricePerKgUsd: Option<real>,
    exchangeRateUsd: Option<real>,
    finalCostSom: Option<real>,
    paidCashSom: Option<real>,
    paidCardSom: Option<real>,
    cardPaymentType: Option<string>,
    buyoutActualRate: Option<real>)

  datatype Shift = Shift(
    employeeId: int,
    locationId: int,
    startTime: Time,
    startingCash: real,
    exchangeRateUsd: real,
    pricePerKgUsd: real,
    endTime: Option<Time>,
    closingCash: Option<real>)

  /** A role of the company; `permissions` are ids in the global permission table. */
  datatype Role = Role(name: string, permissions: set<int>)

  /** `isActive` is a nullable column: None is SQL NULL. */
  datatype Employee = Employee(
    fullName: string,
    password: string,
    isActive: Option<bool>,
    roleId: int,
    locationId: int)

  /** The authenticated employee calling an endpoint, with the codenames of their role. */
  datatype Actor = Actor(
    id: int,
    roleName: string,
    permissions: set<string>,
    locationId: Option<int>,
    password: string)

  /** The gate of the owner-only endpoints (`get_company_owner`). */
  predicate IsManager(a: Actor)
  {
    "manage_employees" in a.permissions || "manage_roles" in a.permissions
    || "manage_locations" in a.permissions
  }

  predicate IsOwner(a: Actor)
  {
    a.roleName == OwnerRole
  }

  /** Python truthiness of an optional id: None and 0 are false. */
  predicate TruthyId(x: Option<int>)
  {
    x.Some? && x.value != 0
  }

  predicate StartsWith(s: string, prefix: string)
  {
    prefix <= s
  }
}
