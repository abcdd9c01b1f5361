/**
 * Defects of the backend as written.  Each is modelled here as the code
 * reads, with the input that shows it; the rest of the model uses the
 * corrected rule beside it (Endpoints.CloseShiftDecision,
 * Imports.BulkClientImport, Endpoints.UpdateEmployeeDecision,
 * ClientCodes.CompanyCreationRefusal).
 */
module Findings {
  import opened Common
  import opened Rows
  import opened Tables
  import opened Patches
  import opened Endpoints
  import opened Imports

  // ------------------------------------------------------------ close_shift

  /** The attributes of an `Employee` row (models.py:164-184). */
  const EmployeeAttributes: set<string> :=
    {"id", "full_name", "password", "is_active", "is_company_owner", "role_id", "role",
     "shifts", "company_id", "company", "location_id", "location"}

  /**
   * `close_shift` as written (main.py:2060-2093): its first test reads
   * `closer_employee.is_super_admin`; a row without that attribute raises,
   * and the request ends in an internal error before anything else.
   */
  function CloseShiftAsWritten(shifts: map<int, Shift>, actor: Actor): Result<int, Refusal>
    requires OneOpenShiftPerLocation(shifts)
  {
    if "is_super_admin" !in EmployeeAttributes then Err(InternalError)
    else CloseShiftDecision(shifts, actor)
  }

  /**
   * As written no shift is ever closed through `close_shift`, not even by a
   * permitted employee whose branch has an open shift, which the intended
   * rule closes.
   */
  lemma CloseShiftNeverCloses(shifts: map<int, Shift>, actor: Actor)
    requires OneOpenShiftPerLocation(shifts)
    ensures CloseShiftAsWritten(shifts, actor) == Err(InternalError)
    ensures "open_close_shift" in actor.permissions && actor.locationId.Some? && OpenShiftAt(shifts, actor.locationId.value)
      ==> CloseShiftDecision(shifts, actor).Ok?
  {
    assert "is_super_admin" !in EmployeeAttributes;
  }

  // ---------------------------------------------------- bulk_import_clients

  /**
   * One row of the client import as written (main.py:1176-1245): the seen
   * phones and codes are dicts, `in` reads their keys as intended, but a
   * row that gets past the tests calls `.add` on a dict (for its code at
   * line 1225, for its phone at line 1241), which raises.
   */
  function ImportClientRowAsWritten(st: ClientImport, row: ClientRow): Result<ClientImport, Refusal>
  {
    if RowAccepted(st, row) then Err(InternalError) else Ok(ImportClientRow(st, row))
  }

  /** The rows in order as written: the first exception ends the request. */
  function ImportClientsAsWritten(st: ClientImport, rows: seq<ClientRow>): Result<ClientImport, Refusal>
    decreases |rows|
  {
    if rows == [] then Ok(st)
    else
      match ImportClientsAsWritten(st, rows[..|rows| - 1])
      case Err(e) => Err(e)
      case Ok(mid) => ImportClientRowAsWritten(mid, rows[|rows| - 1])
  }

  /** `bulk_import_clients` as written (main.py:1160-1252). */
  function BulkClientImportAsWritten(clients: map<int, Client>, actor: Actor, rows: seq<ClientRow>): Result<ClientImport, Refusal>
  {
    if !IsManager(actor) then Err(Forbidden)
    else ImportClientsAsWritten(ClientImportStart(clients), rows)
  }

  /**
   * As written, an import that answers at all has created nothing: it
   * agrees with the intended import only on rows that are all skipped.
   */
  lemma {:induction false} AsWrittenCreatesNothing(st: ClientImport, rows: seq<ClientRow>)
    ensures ImportClientsAsWritten(st, rows).Ok? ==>
      ImportClientsAsWritten(st, rows).value == ImportClients(st, rows)
      && ImportClients(st, rows).created == st.created
      && ImportClients(st, rows).clients == st.clients
    decreases |rows|
  {
    if rows != [] {
      AsWrittenCreatesNothing(st, rows[..|rows| - 1]);
    }
  }

  /** The import's own example row: refused as written, created as intended. */
  lemma AsWrittenRefusesExample()
    ensures BulkClientImportAsWritten(map[], ExampleManager(), [ClientRow("Asel", "996555", Some("ab-12"))])
      == Err(InternalError)
    ensures ImportClients(ClientImportStart(map[]), [ClientRow("Asel", "996555", Some("ab-12"))]).created == 1
  {
    var row := ClientRow("Asel", "996555", Some("ab-12"));
    var st := ClientImportStart(map[]);
    assert [row][..0] == [];
    assert st.phones == {};
    ExamplePhoneDigits();
    assert RowAccepted(st, row);
    assert ImportClientsAsWritten(st, [row]) == ImportClientRowAsWritten(st, row);
  }

  /** An owner of the examples. */
  function ExampleManager(): (a: Actor)
    ensures IsManager(a)
  {
    Actor(7, OwnerRole, {"manage_employees"}, Some(1), "pw")
  }

  // -------------------------------------------------------- update_employee

  /**
   * `update_employee` as written (main.py:723-777): the last-owner guard runs
   * only when `is_active` was sent as `False`; an explicit null passes it and
   * is stored as NULL, which the active-owner count does not count.
   */
  function UpdateEmployeeDecisionAsWritten(employees: map<int, Employee>, roles: map<int, Role>, locations: seq<int>,
                                           actor: Actor, id: int, p: EmployeePatch): Option<Refusal>
    requires RolesKnown(employees, roles)
  {
    if !IsManager(actor) then Some(Forbidden)
    else if id !in employees then Some(NotFound)
    else
      var e := employees[id];
      if p.isActive == Some(Some(false)) && HasOwnerRole(e, roles) && |ActiveOwners(employees, roles)| <= 1 then Some(BadRequest)
      else if p.locationId.Some? && !(p.locationId.value.Some? && p.locationId.value.value in locations) then Some(NotFound)
      else if p.roleId.Some? && !(p.roleId.value.Some? && p.roleId.value.value in roles) then Some(NotFound)
      else if p.roleId.Some? && HasOwnerRole(e, roles) && roles[p.roleId.value.value].name != OwnerRole then Some(BadRequest)
      else if p.fullName == Some(None) || p.password == Some(None) then Some(DbConflict)
      else None
  }

  /** The two guards differ only on an explicit null `is_active`. */
  lemma AsWrittenAgreesUnlessNull(employees: map<int, Employee>, roles: map<int, Role>, locations: seq<int>,
                                  actor: Actor, id: int, p: EmployeePatch)
    requires RolesKnown(employees, roles)
    requires p.isActive != Some(None)
    ensures UpdateEmployeeDecisionAsWritten(employees, roles, locations, actor, id, p)
      == UpdateEmployeeDecision(employees, roles, locations, actor, id, p)
  {
    assert Deactivates(p) <==> p.isActive == Some(Some(false)) by {
      if p.isActive.Some? {
        var v := p.isActive.value;
        assert v != None;
        if v.value {
          assert v == Some(true);
        } else {
          assert v == Some(false);
        }
      }
    }
  }

  /** The company of the example: one employee, its only active owner. */
  function SoleOwner(): map<int, Employee>
  {
    map[1 := Employee("Aibek", "pw", Some(true), 1, 1)]
  }

  function OwnerRoles(): map<int, Role>
  {
    map[1 := Role(OwnerRole, {})]
  }

  /** The patch `{"is_active": null}`. */
  function NullActive(): EmployeePatch
  {
    EmployeePatch(None, None, None, None, Some(None))
  }

  /**
   * Sending `{"is_active": null}` for the sole active owner: accepted as
   * written, after which the company has no active owner; refused by the
   * intended guard.
   */
  lemma AsWrittenDropsLastOwner()
    ensures |ActiveOwners(SoleOwner(), OwnerRoles())| == 1
    ensures UpdateEmployeeDecisionAsWritten(SoleOwner(), OwnerRoles(), [1], ExampleManager(), 1, NullActive()) == None
    ensures ActiveOwners(SoleOwner()[1 := PatchedEmployee(SoleOwner()[1], NullActive())], OwnerRoles()) == {}
    ensures UpdateEmployeeDecision(SoleOwner(), OwnerRoles(), [1], ExampleManager(), 1, NullActive()) == Some(BadRequest)
  {
    assert ActiveOwners(SoleOwner(), OwnerRoles()) == {1};
  }
}
