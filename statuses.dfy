/**
 * The eight order statuses of the cargo pipeline, in the order the backend lists
 * them (`ORDER_STATUSES`, main.py line 18), and the conversion between the status
 * names stored in the database and the enumeration used by the model.
 */
module Statuses {
  import opened Common

  datatype Status =
    | Processing        // "В обработке"
    | AwaitingBuyout    // "Ожидает выкупа"
    | BoughtOut         // "Выкуплен"
    | InChinaWarehouse  // "На складе в Китае"
    | InTransit         // "В пути"
    | InLocalWarehouse  // "На складе в КР"
    | ReadyForIssue     // "Готов к выдаче"
    | Issued            // "Выдан"

  /** `ORDER_STATUSES`: the only status strings the backend accepts. */
  const OrderStatuses: seq<string> :=
    ["В обработке", "Ожидает выкупа", "Выкуплен", "На складе в Китае",
     "В пути", "На складе в КР", "Готов к выдаче", "Выдан"]

  const IssuedName: string := "Выдан"

  function Position(s: Status): (i: nat)
    ensures i < |OrderStatuses|
  {
    match s
    case Processing => 0
    case AwaitingBuyout => 1
    case BoughtOut => 2
    case InChinaWarehouse => 3
    case InTransit => 4
    case InLocalWarehouse => 5
    case ReadyForIssue => 6
    case Issued => 7
  }

  /** The database spelling of a status: its entry in `ORDER_STATUSES`. */
  function Name(s: Status): (n: string)
    ensures n in OrderStatuses && n == OrderStatuses[Position(s)]
    ensures n == IssuedName <==> s == Issued
  {
    OrderStatuses[Position(s)]
  }

  /** The membership test `name in ORDER_STATUSES`, returning the status it names. */
  function Parse(name: string): (r: Option<Status>)
    ensures r.Some? <==> name in OrderStatuses
    ensures r.Some? ==> Name(r.value) == name
  {
    if name == OrderStatuses[0] then Some(Processing)
    else if name == OrderStatuses[1] then Some(AwaitingBuyout)
    else if name == OrderStatuses[2] then Some(BoughtOut)
    else if name == OrderStatuses[3] then Some(InChinaWarehouse)
    else if name == OrderStatuses[4] then Some(InTransit)
    else if name == OrderStatuses[5] then Some(InLocalWarehouse)
    else if name == OrderStatuses[6] then Some(ReadyForIssue)
    else if name == OrderStatuses[7] then Some(Issued)
    else None
  }

  /** Names are distinct, so a stored name determines the status and parsing inverts naming. */
  lemma ParseName(s: Status)
    ensures Parse(Name(s)) == Some(s)
  {
    assert Parse(Name(s)).Some?;
    match s
    case Processing =>
    case AwaitingBuyout =>
    case BoughtOut =>
    case InChinaWarehouse =>
    case InTransit =>
    case InLocalWarehouse =>
    case ReadyForIssue =>
    case Issued =>
  }

  /**
   * The status filter `get_orders` uses when the caller names none: every status
   * except "Выдан", in list order (main.py line 1445).
   */
  function DefaultStatusFilter(): (r: seq<string>)
    ensures forall n :: n in r <==> n in OrderStatuses && n != IssuedName
    ensures |r| == |OrderStatuses| - 1
  {
    OrderStatuses[..7]
  }
}
