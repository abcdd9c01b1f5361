/**
 * The two spreadsheet imports, row by row.  Each import is a fold of a
 * one-row step over the rows; the store's import loops are proved to
 * compute these folds, and the lemmas below say what the folds keep.
 */
module Imports {
  import opened Common
  import opened Text
  import opened Statuses
  import opened Rows
  import opened ClientCodes
  import opened Tables
  import opened OrderRules

  // --------------------------------------------------------- client import

  /** One row of the client spreadsheet (`BulkClientItem`). */
  datatype ClientRow = ClientRow(fullName: string, phone: string, clientCode: Option<string>)

  /** The messages of the client import, by the row they are about. */
  datatype ClientNote =
    | MissingNameOrPhone                        // error: the row is skipped
    | BadPhone(name: string, phone: string)     // error: no digit in the phone
    | PhoneExists(name: string, phone: string)  // warning: the row is skipped
    | CodeInUse(name: string, num: int)         // warning: the client gets no code
    | NoNumberInCode(name: string, code: string)
    | BlankCodeCell(name: string)

  /**
   * The running state of the import: the company's clients with the rows
   * added so far, the phones and code numbers seen so far, the count of
   * created clients, and the messages.
   */
  datatype ClientImport = ClientImport(
    clients: map<int, Client>,
    phones: set<string>,
    codes: set<int>,
    created: nat,
    errors: seq<ClientNote>,
    warnings: seq<ClientNote>)

  function PhoneSet(clients: map<int, Client>): (r: set<string>)
    ensures forall p :: p in r <==> PhoneTaken(clients, p)
  {
    set id | id in clients :: clients[id].phone
  }

  /** Before the first row: every client of the company, no message (main.py:1167-1173). */
  function ClientImportStart(clients: map<int, Client>): (st: ClientImport)
    ensures st.clients == clients && st.created == 0 && st.errors == [] && st.warnings == []
    ensures forall p :: p in st.phones <==> PhoneTaken(clients, p)
    ensures forall n :: n in st.codes <==> CodeTaken(clients, n)
  {
    ClientImport(clients, PhoneSet(clients), CodeNumbers(clients), 0, [], [])
  }

  /** The row is turned into a client: name and phone present, a digit in the phone, phone not seen. */
  predicate RowAccepted(st: ClientImport, row: ClientRow)
  {
    row.fullName != [] && row.phone != [] && Digits(row.phone) != [] && Digits(row.phone) !in st.phones
  }

  /**
   * The code a created client gets from its cell (main.py:1202-1233): a
   * parsed number not seen yet, with its prefix; otherwise no code, and a
   * warning unless the cell was empty.
   */
  function CodeFromCell(cell: Option<string>, name: string, codes: set<int>): (r: (Option<string>, Option<int>, seq<ClientNote>))
    ensures r.1.Some? ==> r.1.value !in codes && r.0.Some? && IsImportPrefix(r.0.value)
    ensures r.1.None? ==> r.0.None?
    ensures ParseImportCode(cell).Code? && ParseImportCode(cell).num in codes ==> r.1.None? && r.0.None?
    ensures ParseImportCode(cell).Code? && ParseImportCode(cell).num !in codes
      ==> r.1 == Some(ParseImportCode(cell).num) && r.0 == Some(ParseImportCode(cell).prefix)
    ensures |r.2| <= 1 && (ParseImportCode(cell) == NoCode ==> r.2 == [])
  {
    match ParseImportCode(cell)
    case NoCode => (None, None, [])
    case BlankCode => (None, None, [BlankCodeCell(name)])
    case NoNumber(text) => (None, None, [NoNumberInCode(name, text)])
    case Code(prefix, num) =>
      if num in codes then (None, None, [CodeInUse(name, num)])
      else (Some(prefix), Some(num), [])
  }

  /** One row of the client import (main.py:1176-1245), with the seen-sets as intended. */
  function ImportClientRow(st: ClientImport, row: ClientRow): (r: ClientImport)
    ensures r.created == (if RowAccepted(st, row) then st.created + 1 else st.created)
    ensures !RowAccepted(st, row) ==> r.clients == st.clients && r.phones == st.phones && r.codes == st.codes
    ensures RowAccepted(st, row) ==>
      var id := FreshId(st.clients.Keys);
      var code := CodeFromCell(row.clientCode, row.fullName, st.codes);
      r.clients == st.clients[id := InsertedClient(row.fullName, Digits(row.phone), code.0, code.1, None)]
      && r.phones == st.phones + {Digits(row.phone)}
      && r.codes == (if code.1.Some? then st.codes + {code.1.value} else st.codes)
    ensures row.fullName == [] || row.phone == [] ==> r == st.(errors := st.errors + [MissingNameOrPhone])
    ensures row.fullName != [] && row.phone != [] && Digits(row.phone) == [] ==>
      r == st.(errors := st.errors + [BadPhone(row.fullName, row.phone)])
    ensures row.fullName != [] && row.phone != [] && Digits(row.phone) != [] && Digits(row.phone) in st.phones ==>
      r == st.(warnings := st.warnings + [PhoneExists(row.fullName, Digits(row.phone))])
    ensures RowAccepted(st, row) ==>
      r.errors == st.errors && r.warnings == st.warnings + CodeFromCell(row.clientCode, row.fullName, st.codes).2
  {
    if row.fullName == [] || row.phone == [] then
      st.(errors := st.errors + [MissingNameOrPhone])
    else
      var cleaned := Digits(row.phone);
      if cleaned == [] then st.(errors := st.errors + [BadPhone(row.fullName, row.phone)])
      else if cleaned in st.phones then st.(warnings := st.warnings + [PhoneExists(row.fullName, cleaned)])
      else
        var code := CodeFromCell(row.clientCode, row.fullName, st.codes);
        var id := FreshId(st.clients.Keys);
        ClientImport(
          st.clients[id := InsertedClient(row.fullName, cleaned, code.0, code.1, None)],
          st.phones + {cleaned},
          if code.1.Some? then st.codes + {code.1.value} else st.codes,
          st.created + 1,
          st.errors,
          st.warnings + code.2)
  }

  /** The import of the rows, in order. */
  function ImportClients(st: ClientImport, rows: seq<ClientRow>): ClientImport
    decreases |rows|
  {
    if rows == [] then st
    else ImportClientRow(ImportClients(st, rows[..|rows| - 1]), rows[|rows| - 1])
  }

  /**
   * The import state is consistent: the seen phones and codes are exactly
   * those of the clients, and the clients satisfy the unique constraints.
   */
  ghost predicate ImportConsistent(st: ClientImport)
  {
    ClientsUnique(st.clients)
    && (forall p :: p in st.phones <==> PhoneTaken(st.clients, p))
    && (forall n :: n in st.codes <==> CodeTaken(st.clients, n))
  }
  /** Adding a client with a new phone, no chat and a new code number if any keeps the import consistent. */
  lemma AddImportedClient(st: ClientImport, id: int, c: Client, r: ClientImport)
    requires ImportConsistent(st)
    requires id !in st.clients && c.phone !in st.phones && (c.codeNum.Some? ==> c.codeNum.value !in st.codes)
    requires c.telegramChatId.None?
    requires r.clients == st.clients[id := c] && r.phones == st.phones + {c.phone}
    requires r.codes == (if c.codeNum.Some? then st.codes + {c.codeNum.value} else st.codes)
    ensures ImportConsistent(r)
  {
    FreshClientFits(st.clients, id, c);
    PutClientKeepsUnique(st.clients, id, c);
    forall p
      ensures p in r.phones <==> PhoneTaken(r.clients, p)
    {
      if p in st.phones {
        var k :| k in st.clients && st.clients[k].phone == p;
        assert k in r.clients && r.clients[k].phone == p;
      }
      if p == c.phone {
        assert r.clients[id].phone == p;
      }
      if PhoneTaken(r.clients, p) && p != c.phone {
        var k :| k in r.clients && r.clients[k].phone == p;
        assert k != id && k in st.clients && st.clients[k].phone == p;
      }
    }
    forall n
      ensures n in r.codes <==> CodeTaken(r.clients, n)
    {
      if n in st.codes {
        var k :| k in st.clients && st.clients[k].codeNum == Some(n);
        assert k in r.clients && r.clients[k].codeNum == Some(n);
      }
      if c.codeNum == Some(n) {
        assert r.clients[id].codeNum == Some(n);
      }
      if CodeTaken(r.clients, n) && c.codeNum != Some(n) {
        var k :| k in r.clients && r.clients[k].codeNum == Some(n);
        assert k != id && k in st.clients && st.clients[k].codeNum == Some(n);
      }
    }
  }

  lemma ImportClientRowKeeps(st: ClientImport, row: ClientRow)
    requires ImportConsistent(st)
    ensures ImportConsistent(ImportClientRow(st, row))
    ensures |ImportClientRow(st, row).clients| == |st.clients| + ImportClientRow(st, row).created - st.created
    ensures forall id :: id in st.clients ==>
              id in ImportClientRow(st, row).clients && ImportClientRow(st, row).clients[id] == st.clients[id]
  {
    if RowAccepted(st, row) {
      var id := FreshId(st.clients.Keys);
      var code := CodeFromCell(row.clientCode, row.fullName, st.codes);
      var c := InsertedClient(row.fullName, Digits(row.phone), code.0, code.1, None);
      AddImportedClient(st, id, c, ImportClientRow(st, row));
    }
  }

  /**
   * The whole import keeps the table consistent, never changes an existing
   * client, and `created_clients` is the number of clients it added.
   */
  lemma {:induction false} ImportClientsKeeps(st: ClientImport, rows: seq<ClientRow>)
    requires ImportConsistent(st)
    ensures ImportConsistent(ImportClients(st, rows))
    ensures |ImportClients(st, rows).clients| == |st.clients| + ImportClients(st, rows).created - st.created
    ensures ImportClients(st, rows).created >= st.created
    ensures forall id :: id in st.clients ==>
              id in ImportClients(st, rows).clients && ImportClients(st, rows).clients[id] == st.clients[id]
    decreases |rows|
  {
    if rows != [] {
      var mid := ImportClients(st, rows[..|rows| - 1]);
      ImportClientsKeeps(st, rows[..|rows| - 1]);
      ImportClientRowKeeps(mid, rows[|rows| - 1]);
    }
  }

  /**
   * `bulk_import_clients` (main.py:1160-1252) with the seen-sets as
   * intended: owners only; the rows against every client of the company.
   */
  function BulkClientImport(clients: map<int, Client>, actor: Actor, rows: seq<ClientRow>): (r: Result<ClientImport, Refusal>)
    requires ClientsUnique(clients)
    ensures r.Err? <==> !IsManager(actor)
    ensures r.Err? ==> r.error == Forbidden
    ensures r.Ok? ==> ClientsUnique(r.value.clients)
    ensures r.Ok? ==> |r.value.clients| == |clients| + r.value.created
    ensures r.Ok? ==> forall id :: id in clients ==> id in r.value.clients && r.value.clients[id] == clients[id]
  {
    if !IsManager(actor) then Err(Forbidden)
    else
      var st := ClientImportStart(clients);
      ImportClientsKeeps(st, rows);
      Ok(ImportClients(st, rows))
  }

  /** The phone of the example row is all digits. */
  lemma ExamplePhoneDigits()
    ensures Digits("996555") == "996555"
  {
    assert AllDigits("996555");
  }

  /** The example of the format: an empty company, one row "ab-12" gives client AB 12. */
  lemma ImportClientsExample()
    ensures ImportClients(ClientImportStart(map[]), [ClientRow("Asel", "996555", Some("ab-12"))]).clients
      == map[1 := Client("Asel", "996555", Some("AB"), Some(12), Some(DefaultClientStatus), None)]
  {
    var row := ClientRow("Asel", "996555", Some("ab-12"));
    var st := ClientImportStart(map[]);
    assert [row][..0] == [];
    assert ImportClients(st, [row]) == ImportClientRow(st, row);
    assert st.codes == {} && st.phones == {} && st.clients == map[];
    ExamplePhoneDigits();
    assert RowAccepted(st, row);
    assert CodeFromCell(row.clientCode, row.fullName, st.codes) == (Some("AB"), Some(12), []) by {
      ParseExample();
    }
    assert FreshId(st.clients.Keys) == 1;
    var c := InsertedClient("Asel", "996555", Some("AB"), Some(12), None);
    assert c == Client("Asel", "996555", Some("AB"), Some(12), Some(DefaultClientStatus), None);
    assert ImportClientRow(st, row).clients == map[][1 := c];
  }

  // ---------------------------------------------------------- order import

  /** One row of the order spreadsheet (`BulkOrderItem`). */
  datatype OrderRow = OrderRow(
    trackCode: string,
    clientCode: Option<string>,
    phone: Option<string>,
    comment: Option<string>,
    purchaseType: Option<string>)

  datatype OrderNote =
    | MissingTrack                                 // error: the row is skipped
    | TrackExists(track: string)                   // warning: the row is skipped
    | UnknownClient(track: string, name: string)   // warning: a placeholder client was created

  /** What the whole import shares: branch, party date, company and clock. */
  datatype OrderImportTerms = OrderImportTerms(
    companyId: int,
    locationId: int,
    partyDate: Date,
    timestampMs: int,
    byPhone: map<string, int>,
    byCode: map<int, int>)

  datatype OrderImport = OrderImport(
    clients: map<int, Client>,
    orders: map<int, Order>,
    tracks: set<string>,
    counter: int,
    created: nat,
    errors: seq<OrderNote>,
    warnings: seq<OrderNote>)

  function TrackSet(orders: map<int, Order>): (r: set<string>)
    ensures forall t :: t in r <==> exists id :: id in orders && orders[id].trackCode == t
  {
    set id | id in orders :: orders[id].trackCode
  }

  /** The lookup dictionaries built once before the loop (main.py:1824-1826). */
  function PhoneIndex(clients: map<int, Client>): (r: map<string, int>)
    requires ClientsUnique(clients)
    ensures forall p :: p in r <==> PhoneTaken(clients, p)
    ensures forall p :: p in r ==> r[p] in clients && clients[r[p]].phone == p
  {
    map p | p in PhoneSet(clients) :: var id :| id in clients && clients[id].phone == p; id
  }

  function CodeIndex(clients: map<int, Client>): (r: map<int, int>)
    requires ClientsUnique(clients)
    ensures forall n :: n in r <==> CodeTaken(clients, n)
    ensures forall n :: n in r ==> r[n] in clients && clients[r[n]].codeNum == Some(n)
  {
    map n | n in CodeNumbers(clients) :: var id :| id in clients && clients[id].codeNum == Some(n); id
  }

  function OrderImportStart(clients: map<int, Client>, orders: map<int, Order>): (st: OrderImport)
    ensures st.clients == clients && st.orders == orders && st.counter == 1 && st.created == 0
    ensures forall t :: t in st.tracks <==> exists id :: id in orders && orders[id].trackCode == t
  {
    OrderImport(clients, orders, TrackSet(orders), 1, 0, [], [])
  }

  /**
   * The client a row names: by the trailing number of its code, else by the
   * digits of its phone; and the text identifying it in messages
   * (main.py:1843-1855).
   */
  function FindClient(row: OrderRow, terms: OrderImportTerms): (r: (Option<int>, string))
    ensures r.0.Some? ==> r.0.value in terms.byCode.Values || r.0.value in terms.byPhone.Values
  {
    var byCode :=
      if row.clientCode.Some? && row.clientCode.value != [] then
        var codeText := Strip(row.clientCode.value);
        var digits := TrailingDigits(codeText);
        var found := if digits != [] && DecimalValue(digits) in terms.byCode then Some(terms.byCode[DecimalValue(digits)]) else None;
        (found, "код '" + codeText + "'")
      else (None, "");
    if byCode.0.None? && row.phone.Some? && row.phone.value != [] then
      var cleaned := Digits(row.phone.value);
      var ident := if byCode.1 == [] then "тел. '" + cleaned + "'" else byCode.1;
      var found := if cleaned != [] && cleaned in terms.byPhone then Some(terms.byPhone[cleaned]) else None;
      (found, ident)
    else byCode
  }

  /** The placeholder phone of an unknown client: `unknown_{company}_{counter}_{timestamp}`. */
  function PlaceholderPhone(companyId: int, counter: int, timestampMs: int): (p: string)
    ensures StartsWith(p, "unknown_")
  {
    "unknown_" + IntToDecimal(companyId) + "_" + IntToDecimal(counter) + "_" + IntToDecimal(timestampMs)
  }

  /** The order a row creates (main.py:1873-1886). */
  function ImportedOrder(row: OrderRow, track: string, clientId: int, terms: OrderImportTerms): (o: Order)
    ensures o.trackCode == track && o.clientId == Some(clientId) && o.locationId == Some(terms.locationId)
    ensures o.partyDate == terms.partyDate && o.comment == row.comment
    ensures o.status == AwaitingBuyout <==> row.purchaseType == Some(BuyoutPurchaseType)
    ensures o.purchaseType != []
    ensures o.issuedAt.None? && o.shiftId.None?
  {
    var purchaseType := if row.purchaseType.Some? && row.purchaseType.value != [] then row.purchaseType.value else DefaultPurchaseType;
    NewOrder(track, purchaseType, row.comment, terms.partyDate, clientId, terms.locationId)
  }

  /** The client a new order goes to, with the counter and warnings after placing it. */
  datatype Placement = Placement(clients: map<int, Client>, clientId: int, counter: int, warnings: seq<OrderNote>)

  /**
   * The client of a row (main.py:1843-1868): the one the row names, or else a
   * new placeholder client "Неизвестный (…)" with a placeholder phone.  A
   * placeholder phone already in use makes the flush fail.
   */
  function PlaceClient(st: OrderImport, row: OrderRow, track: string, terms: OrderImportTerms): (r: Result<Placement, Refusal>)
    ensures r.Err? ==> r.error == DbConflict && FindClient(row, terms).0.None?
    ensures FindClient(row, terms).0.Some? ==> r == Ok(Placement(st.clients, FindClient(row, terms).0.value, st.counter, st.warnings))
    ensures r.Ok? && FindClient(row, terms).0.None? ==>
      var cid := FreshId(st.clients.Keys);
      r.value.clientId == cid && r.value.counter == st.counter + 1
      && cid in r.value.clients && r.value.clients == st.clients[cid := r.value.clients[cid]]
      && StartsWith(r.value.clients[cid].phone, "unknown_") && !PhoneTaken(st.clients, r.value.clients[cid].phone)
      && r.value.clients[cid].codeNum.None? && r.value.clients[cid].telegramChatId.None?
  {
    var found := FindClient(row, terms);
    if found.0.Some? then Ok(Placement(st.clients, found.0.value, st.counter, st.warnings))
    else
      var name := "Неизвестный (" + (if found.1 != [] then found.1 else track) + ")";
      var phone := PlaceholderPhone(terms.companyId, st.counter, terms.timestampMs);
      if PhoneTaken(st.clients, phone) then Err(DbConflict)
      else
        var cid := FreshId(st.clients.Keys);
        Ok(Placement(st.clients[cid := InsertedClient(name, phone, None, None, None)], cid, st.counter + 1,
                     st.warnings + [UnknownClient(track, name)]))
  }

  /** A placeholder client never breaks the unique constraints. */
  lemma PlaceClientKeepsUnique(st: OrderImport, row: OrderRow, track: string, terms: OrderImportTerms)
    requires ClientsUnique(st.clients)
    ensures PlaceClient(st, row, track, terms).Ok? ==> ClientsUnique(PlaceClient(st, row, track, terms).value.clients)
  {
    var r := PlaceClient(st, row, track, terms);
    if r.Ok? && FindClient(row, terms).0.None? {
      var cid := FreshId(st.clients.Keys);
      FreshClientFits(st.clients, cid, r.value.clients[cid]);
      PutClientKeepsUnique(st.clients, cid, r.value.clients[cid]);
    }
  }

  /**
   * One row of the order import (main.py:1831-1892).  A placeholder client
   * whose phone is already taken makes the whole request fail, and nothing
   * is stored.
   */
  function ImportOrderRow(st: OrderImport, row: OrderRow, terms: OrderImportTerms): (r: Result<OrderImport, Refusal>)
    ensures r.Err? ==> r.error == DbConflict
    ensures Strip(row.trackCode) == [] ==> r == Ok(st.(errors := st.errors + [MissingTrack]))
    ensures Strip(row.trackCode) != [] && Strip(row.trackCode) in st.tracks ==> r == Ok(st.(warnings := st.warnings + [TrackExists(Strip(row.trackCode))]))
    ensures r.Ok? && Strip(row.trackCode) != [] && Strip(row.trackCode) !in st.tracks ==>
      var p := PlaceClient(st, row, Strip(row.trackCode), terms);
      var oid := FreshId(st.orders.Keys);
      p.Ok? && r.value.clients == p.value.clients && r.value.created == st.created + 1
      && r.value.orders == st.orders[oid := ImportedOrder(row, Strip(row.trackCode), p.value.clientId, terms)]
      && r.value.tracks == st.tracks + {Strip(row.trackCode)}
  {
    var track := Strip(row.trackCode);
    if track == [] then Ok(st.(errors := st.errors + [MissingTrack]))
    else if track in st.tracks then Ok(st.(warnings := st.warnings + [TrackExists(track)]))
    else
      match PlaceClient(st, row, track, terms)
      case Err(e) => Err(e)
      case Ok(p) =>
        var oid := FreshId(st.orders.Keys);
        Ok(OrderImport(p.clients, st.orders[oid := ImportedOrder(row, track, p.clientId, terms)],
                       st.tracks + {track}, p.counter, st.created + 1, st.errors, p.warnings))
  }

  function ImportOrders(st: OrderImport, rows: seq<OrderRow>, terms: OrderImportTerms): Result<OrderImport, Refusal>
    decreases |rows|
  {
    if rows == [] then Ok(st)
    else
      match ImportOrders(st, rows[..|rows| - 1], terms)
      case Err(e) => Err(e)
      case Ok(mid) => ImportOrderRow(mid, rows[|rows| - 1], terms)
  }

  /**
   * The order import state is consistent: the seen track codes are exactly
   * those of the orders, the clients satisfy the unique constraints, and no
   * two orders share a track code that is not a placeholder.
   */
  ghost predicate OrderImportConsistent(st: OrderImport)
  {
    ClientsUnique(st.clients) && TracksDistinct(st.orders)
    && (forall t :: t in st.tracks <==> exists id :: id in st.orders && st.orders[id].trackCode == t)
  }

  /** Adding an order adds its track code to the set of codes in use. */
  lemma AddOrderTrack(orders: map<int, Order>, tracks: set<string>, oid: int, o: Order, after: map<int, Order>)
    requires forall t :: t in tracks <==> exists id :: id in orders && orders[id].trackCode == t
    requires oid !in orders && after == orders[oid := o]
    ensures forall t :: t in tracks + {o.trackCode} <==> exists id :: id in after && after[id].trackCode == t
  {
    forall t
      ensures t in tracks + {o.trackCode} <==> exists id :: id in after && after[id].trackCode == t
    {
      if t in tracks {
        var k :| k in orders && orders[k].trackCode == t;
        assert k in after && after[k].trackCode == t;
      }
      if t == o.trackCode {
        assert after[oid].trackCode == t;
      }
      if t != o.trackCode && exists id :: id in after && after[id].trackCode == t {
        var k :| k in after && after[k].trackCode == t;
        assert k != oid && k in orders && orders[k].trackCode == t;
      }
    }
  }

  /** Adding one order with a new track code keeps the import consistent. */
  lemma AddImportedOrder(st: OrderImport, clients: map<int, Client>, oid: int, o: Order, r: OrderImport)
    requires OrderImportConsistent(st) && ClientsUnique(clients)
    requires oid !in st.orders && o.trackCode !in st.tracks
    requires r.clients == clients && r.orders == st.orders[oid := o]
    requires r.tracks == st.tracks + {o.trackCode} && r.created == st.created + 1
    ensures OrderImportConsistent(r)
    ensures |r.orders| == |st.orders| + r.created - st.created
    ensures forall id :: id in st.orders ==> id in r.orders && r.orders[id] == st.orders[id]
  {
    AddOrderTrack(st.orders, st.tracks, oid, o, r.orders);
    assert !TrackHeldByOther(st.orders, Some(oid), o.trackCode);
    PutOrderKeepsTracksDistinct(st.orders, oid, o);
  }

  lemma ImportOrderRowKeeps(st: OrderImport, row: OrderRow, terms: OrderImportTerms)
    requires OrderImportConsistent(st)
    ensures ImportOrderRow(st, row, terms).Ok? ==> OrderImportConsistent(ImportOrderRow(st, row, terms).value)
    ensures ImportOrderRow(st, row, terms).Ok? ==>
      |ImportOrderRow(st, row, terms).value.orders| == |st.orders| + ImportOrderRow(st, row, terms).value.created - st.created
    ensures ImportOrderRow(st, row, terms).Ok? ==>
      forall id :: id in st.orders ==>
        id in ImportOrderRow(st, row, terms).value.orders && ImportOrderRow(st, row, terms).value.orders[id] == st.orders[id]
  {
    var r := ImportOrderRow(st, row, terms);
    var track := Strip(row.trackCode);
    if r.Ok? && track != [] && track !in st.tracks {
      PlaceClientKeepsUnique(st, row, track, terms);
      var p := PlaceClient(st, row, track, terms);
      var oid := FreshId(st.orders.Keys);
      AddImportedOrder(st, p.value.clients, oid, ImportedOrder(row, track, p.value.clientId, terms), r.value);
    }
  }

  /**
   * The whole import either fails with nothing stored or keeps the tables
   * consistent, never changes an existing order, and its count is the
   * number of orders it added.
   */
  lemma {:induction false} ImportOrdersKeeps(st: OrderImport, rows: seq<OrderRow>, terms: OrderImportTerms)
    requires OrderImportConsistent(st)
    ensures ImportOrders(st, rows, terms).Ok? ==> OrderImportConsistent(ImportOrders(st, rows, terms).value)
    ensures ImportOrders(st, rows, terms).Ok? ==>
      |ImportOrders(st, rows, terms).value.orders| == |st.orders| + ImportOrders(st, rows, terms).value.created - st.created
    ensures ImportOrders(st, rows, terms).Ok? ==>
      forall id :: id in st.orders ==>
        id in ImportOrders(st, rows, terms).value.orders && ImportOrders(st, rows, terms).value.orders[id] == st.orders[id]
    decreases |rows|
  {
    if rows != [] {
      ImportOrdersKeeps(st, rows[..|rows| - 1], terms);
      var prev := ImportOrders(st, rows[..|rows| - 1], terms);
      if prev.Ok? {
        ImportOrderRowKeeps(prev.value, rows[|rows| - 1], terms);
      }
    }
  }

  /** Once a row fails, the import has failed, whatever rows follow. */
  lemma {:induction false} ImportOrdersStopsAtError(st: OrderImport, rows: seq<OrderRow>, k: nat, terms: OrderImportTerms)
    requires k <= |rows| && ImportOrders(st, rows[..k], terms).Err?
    ensures ImportOrders(st, rows, terms) == ImportOrders(st, rows[..k], terms)
    decreases |rows|
  {
    if k < |rows| {
      var init := rows[..|rows| - 1];
      assert init[..k] == rows[..k];
      ImportOrdersStopsAtError(st, init, k, terms);
    } else {
      assert rows[..k] == rows;
    }
  }

  /** The lookups point at clients of the company. */
  predicate IndexInto(terms: OrderImportTerms, clients: map<int, Client>)
  {
    (forall p :: p in terms.byPhone ==> terms.byPhone[p] in clients)
    && (forall n :: n in terms.byCode ==> terms.byCode[n] in clients)
  }

  /**
   * From `st` to `r` the import only adds: clients and orders stay, and
   * every order added is booked to `location` and `partyDate` and belongs to
   * a client of the company.
   */
  ghost predicate PlacedSince(st: OrderImport, r: OrderImport, location: int, partyDate: Date)
  {
    st.clients.Keys <= r.clients.Keys
    && (forall id :: id in st.orders ==> id in r.orders && r.orders[id] == st.orders[id])
    && (forall id :: id in r.orders && id !in st.orders ==>
          r.orders[id].locationId == Some(location) && r.orders[id].partyDate == partyDate
          && r.orders[id].clientId.Some? && r.orders[id].clientId.value in r.clients)
  }

  /** Adding one order booked to `location` and `partyDate` and to a known client. */
  lemma AddPlacedOrder(st: OrderImport, oid: int, o: Order, r: OrderImport, location: int, partyDate: Date)
    requires st.clients.Keys <= r.clients.Keys && oid !in st.orders && r.orders == st.orders[oid := o]
    requires o.locationId == Some(location) && o.partyDate == partyDate
    requires o.clientId.Some? && o.clientId.value in r.clients
    ensures PlacedSince(st, r, location, partyDate)
  {
  }

  lemma ImportOrderRowPlaced(st: OrderImport, row: OrderRow, terms: OrderImportTerms)
    requires IndexInto(terms, st.clients)
    ensures ImportOrderRow(st, row, terms).Ok? ==>
      PlacedSince(st, ImportOrderRow(st, row, terms).value, terms.locationId, terms.partyDate)
  {
    var r := ImportOrderRow(st, row, terms);
    var track := Strip(row.trackCode);
    if r.Ok? && track != [] && track !in st.tracks {
      var p := PlaceClient(st, row, track, terms);
      var found := FindClient(row, terms);
      if found.0.Some? {
        assert found.0.value in st.clients;
      }
      var oid := FreshId(st.orders.Keys);
      AddPlacedOrder(st, oid, ImportedOrder(row, track, p.value.clientId, terms), r.value, terms.locationId, terms.partyDate);
    }
  }

  /** Every order the import adds is booked to the import's branch and party date, to a client of the company. */
  lemma {:induction false} ImportOrdersPlaced(st: OrderImport, rows: seq<OrderRow>, terms: OrderImportTerms)
    requires IndexInto(terms, st.clients)
    ensures ImportOrders(st, rows, terms).Ok? ==>
      PlacedSince(st, ImportOrders(st, rows, terms).value, terms.locationId, terms.partyDate)
    decreases |rows|
  {
    if rows != [] {
      var prev := ImportOrders(st, rows[..|rows| - 1], terms);
      ImportOrdersPlaced(st, rows[..|rows| - 1], terms);
      if prev.Ok? {
        var mid := prev.value;
        assert IndexInto(terms, mid.clients);
        ImportOrderRowPlaced(mid, rows[|rows| - 1], terms);
      }
    }
  }

  /**
   * `bulk_import_orders` (main.py:1775-1904): the branch is settled first,
   * as for a single order; then the rows are matched against lookups built
   * once from the clients before the first row.
   */
  function BulkOrderImport(clients: map<int, Client>, orders: map<int, Order>, locations: seq<int>, actor: Actor,
                           companyId: int, rows: seq<OrderRow>, requested: Option<int>, partyDate: Date,
                           timestampMs: int): (r: Result<OrderImport, Refusal>)
    requires ClientsUnique(clients) && TracksDistinct(orders)
    ensures ResolveLocation(actor, requested, locations).Err? ==> r == Err(ResolveLocation(actor, requested, locations).error)
    ensures r.Ok? ==> ResolveLocation(actor, requested, locations).Ok? && OrderImportConsistent(r.value)
    ensures r.Ok? ==>
      PlacedSince(OrderImportStart(clients, orders), r.value, ResolveLocation(actor, requested, locations).value, partyDate)
  {
    match ResolveLocation(actor, requested, locations)
    case Err(e) => Err(e)
    case Ok(location) =>
      var terms := OrderImportTerms(companyId, location, partyDate, timestampMs, PhoneIndex(clients), CodeIndex(clients));
      var st := OrderImportStart(clients, orders);
      ImportOrdersKeeps(st, rows, terms);
      ImportOrdersPlaced(st, rows, terms);
      ImportOrders(st, rows, terms)
  }
}
