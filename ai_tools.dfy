/**
 * The AI tool dispatcher `execute_ai_tool`: a command chosen by the language model
 * (`{"tool": ..., <arguments>}`) is answered with a text reply, or with a
 * confirmation descriptor that the bot shows to the owner before anything is
 * changed. The backend is an oracle: `api` maps each request to the JSON that
 * `api_request` hands back (the decoded body, `{"status": "ok"}` or an error dict).
 */
module AiTools {
  import opened Common
  import opened Text
  import opened PyJson

  /** One call of `api_request_func`; `params` is None when the call passes none. */
  datatype ApiCall = ApiCall(
    httpMethod: string,
    path: string,
    employeeId: int,
    params: Option<seq<(string, Json)>>)

  /** What the dispatcher returns: plain text, or the descriptor that `json.dumps` encodes. */
  datatype Reply =
    | Text(text: string)
    | Confirm(action: string, data: seq<(string, Json)>, message: string)

  /** The reply together with every backend call made on the way, in order. */
  datatype Outcome = Outcome(reply: Reply, calls: seq<ApiCall>)

  /** One tool branch before the surrounding `try`: its result or exception, and its calls. */
  datatype Step = Step(result: Py<Reply>, calls: seq<ApiCall>)

  const ErrorText: string := "❌ Ошибка выполнения команды."

  /** The tools the dispatcher knows, by their command name. */
  datatype Tool =
    | SearchOrderTool | UpdateOrderStatusTool | DeleteOrderTool | AssignClientTool
    | SearchClientTool | ChangeClientCodeTool | DeleteClientTool
    | AddExpenseTool | BroadcastTool | GetReportTool
    | GetActivePartiesTool | BulkUpdatePartyTool | GetSettingsTool

  function ToolName(t: Tool): string
  {
    match t
    case SearchOrderTool => "search_order"
    case UpdateOrderStatusTool => "update_order_status"
    case DeleteOrderTool => "delete_order"
    case AssignClientTool => "assign_client"
    case SearchClientTool => "search_client"
    case ChangeClientCodeTool => "change_client_code"
    case DeleteClientTool => "delete_client"
    case AddExpenseTool => "add_expense"
    case BroadcastTool => "broadcast"
    case GetReportTool => "get_report"
    case GetActivePartiesTool => "get_active_parties"
    case BulkUpdatePartyTool => "bulk_update_party"
    case GetSettingsTool => "get_settings"
  }

  /** The `tool == "..."` chain: which branch a command's `tool` value selects. */
  function ParseTool(tool: Json): (r: Option<Tool>)
    ensures r.Some? ==> tool == JStr(ToolName(r.value))
  {
    if !tool.JStr? then None
    else
      var name := tool.s;
      if name == "search_order" then Some(SearchOrderTool)
      else if name == "update_order_status" then Some(UpdateOrderStatusTool)
      else if name == "delete_order" then Some(DeleteOrderTool)
      else if name == "assign_client" then Some(AssignClientTool)
      else if name == "search_client" then Some(SearchClientTool)
      else if name == "change_client_code" then Some(ChangeClientCodeTool)
      else if name == "delete_client" then Some(DeleteClientTool)
      else if name == "add_expense" then Some(AddExpenseTool)
      else if name == "broadcast" then Some(BroadcastTool)
      else if name == "get_report" then Some(GetReportTool)
      else if name == "get_active_parties" then Some(GetActivePartiesTool)
      else if name == "bulk_update_party" then Some(BulkUpdatePartyTool)
      else if name == "get_settings" then Some(GetSettingsTool)
      else None
  }

  /** Tool names are distinct, so each tool's own name selects that tool's branch. */
  lemma ParseToolName(t: Tool)
    ensures ParseTool(JStr(ToolName(t))) == Some(t)
  {
    match t
    case SearchOrderTool =>
    case UpdateOrderStatusTool =>
    case DeleteOrderTool =>
    case AssignClientTool =>
    case SearchClientTool =>
    case ChangeClientCodeTool =>
    case DeleteClientTool =>
    case AddExpenseTool =>
    case BroadcastTool =>
    case GetReportTool =>
    case GetActivePartiesTool =>
    case BulkUpdatePartyTool =>
    case GetSettingsTool =>
  }

  /** The tools whose branch ends in a confirmation descriptor instead of a reply. */
  predicate Mutating(t: Tool)
  {
    t in {UpdateOrderStatusTool, DeleteOrderTool, AssignClientTool, ChangeClientCodeTool,
          DeleteClientTool, AddExpenseTool, BroadcastTool, BulkUpdatePartyTool}
  }

  /** The `confirm_action` a mutating tool proposes. */
  function ConfirmActionFor(t: Tool): string
  {
    match t
    case UpdateOrderStatusTool => "update_single"
    case BulkUpdatePartyTool => "bulk_status"
    case _ => ToolName(t)
  }

  /** The full descriptor object that is serialised: action first, message last. */
  function Descriptor(r: Reply): seq<(string, Json)>
    requires r.Confirm?
  {
    [("confirm_action", JStr(r.action))] + r.data + [("message", JStr(r.message))]
  }

  /** `tool_command.get(k)`. */
  function Arg(cmd: map<string, Json>, k: string): Json
  {
    if k in cmd then cmd[k] else JNull
  }

  /** The search `GET /api/orders?q=...&company_id=...&limit=1` used to find one order. */
  function OrderLookup(track: Json, companyId: int, employeeId: int): ApiCall
  {
    ApiCall("GET", "/api/orders", employeeId,
      Some([("q", track), ("company_id", JInt(companyId)), ("limit", JInt(1))]))
  }

  /** The search `GET /api/clients/search?q=...&company_id=...`. */
  function ClientLookup(query: Json, companyId: int, employeeId: int): ApiCall
  {
    ApiCall("GET", "/api/clients/search", employeeId,
      Some([("q", query), ("company_id", JInt(companyId))]))
  }

  function OrderNotFound(track: Json): string
  {
    "❌ Заказ `" + Str(track) + "` не найден."
  }

  function ClientNotFound(query: Json): string
  {
    "❌ Клиент '" + Str(query) + "' не найден."
  }

  /** A call is scoped to the tenant when its query parameters carry the company id. */
  predicate TenantScoped(c: ApiCall, companyId: int)
  {
    c.params.Some? && ("company_id", JInt(companyId)) in c.params.value
  }

  /** The dispatcher only reads: every call is a GET, and all but the settings read are tenant scoped. */
  predicate ReadOnlyScoped(calls: seq<ApiCall>, companyId: int)
  {
    forall i :: 0 <= i < |calls| ==>
      calls[i].httpMethod == "GET"
      && (TenantScoped(calls[i], companyId) || (calls[i].path == "/api/settings" && calls[i].params.None?))
  }

  // ---------------------------------------------------------------- orders

  /** The client label of one search hit: name and code, or "unknown" when the order has none. */
  function OrderClientLabel(o: Json): Py<string>
  {
    var c :- Get(o, "client");
    if Truthy(c) then
      // the key is present, so the default `{}` is not used
      var name :- Get(c, "full_name");
      var prefix := Get(c, "client_code_prefix").v;
      var num := Get(c, "client_code_num").v;
      Value(Str(name) + " (" + Str(prefix) + Str(num) + ")")
    else
      Value("🔴 Неизвестный")
  }

  function OrderLine(o: Json): Py<string>
  {
    var client :- OrderClientLabel(o);
    var track :- Sub(o, "track_code");
    var status :- Sub(o, "status");
    var party :- Sub(o, "party_date");
    Value("- `" + Str(track) + "`: " + Str(status) + "\n  👤 " + client + "\n  📅 " + Str(party) + "\n")
  }

  /** The lines of a listing, in order; the first item whose line raises makes the whole listing raise. */
  function Lines(line: Json -> Py<string>, items: seq<Json>): Py<string>
  {
    if items == [] then Value("")
    else
      var first :- line(items[0]);
      var rest :- Lines(line, items[1..]);
      Value(first + rest)
  }

  function SearchOrder(cmd: map<string, Json>, api: ApiCall -> Json, companyId: int, employeeId: int): (s: Step)
    ensures s.result.Value? ==> s.result.v.Text?
    ensures |s.calls| == 1 && ReadOnlyScoped(s.calls, companyId)
  {
    var query := Arg(cmd, "query");
    var call := ApiCall("GET", "/api/orders", employeeId,
      Some([("q", query), ("company_id", JInt(companyId)), ("limit", JInt(5))]));
    var response := api(call);
    var result :=
      if !Truthy(response) then Value(Text("❌ Заказы не найдены."))
      else
        var items :- Iterate(response);
        var lines :- Lines(OrderLine, items);
        Value(Text("🔍 **Поиск заказа '" + Str(query) + "':**\n" + lines));
    Step(result, [call])
  }

  function UpdateOrderStatus(cmd: map<string, Json>, api: ApiCall -> Json, companyId: int, employeeId: int): (s: Step)
    ensures s.result.Value? && s.result.v.Confirm? ==> s.result.v.action == "update_single"
    ensures |s.calls| == 1 && ReadOnlyScoped(s.calls, companyId)
  {
    var track := Arg(cmd, "track_code");
    var status := Arg(cmd, "new_status");
    var call := OrderLookup(track, companyId, employeeId);
    var orders := api(call);
    var result :=
      if !Truthy(orders) then Value(Text(OrderNotFound(track)))
      else
        var first :- Index0(orders);
        var id :- Sub(first, "id");
        Value(Confirm("update_single", [("order_id", id), ("track", track), ("new_status", status)],
          "❓ Изменить статус заказа `" + Str(track) + "` на **" + Str(status) + "**?"));
    Step(result, [call])
  }

  function DeleteOrder(cmd: map<string, Json>, api: ApiCall -> Json, companyId: int, employeeId: int): (s: Step)
    ensures s.result.Value? && s.result.v.Confirm? ==> s.result.v.action == "delete_order"
    ensures |s.calls| == 1 && ReadOnlyScoped(s.calls, companyId)
  {
    var track := Arg(cmd, "track_code");
    var call := OrderLookup(track, companyId, employeeId);
    var orders := api(call);
    var result :=
      if !Truthy(orders) then Value(Text(OrderNotFound(track)))
      else
        var first :- Index0(orders);
        var id :- Sub(first, "id");
        Value(Confirm("delete_order", [("order_id", id), ("track", track)],
          "🗑 **УДАЛЕНИЕ ЗАКАЗА**\nВы уверены, что хотите удалить заказ `" + Str(track) + "`? Это необратимо."));
    Step(result, [call])
  }

  function AssignClient(cmd: map<string, Json>, api: ApiCall -> Json, companyId: int, employeeId: int): (s: Step)
    ensures s.result.Value? && s.result.v.Confirm? ==> s.result.v.action == "assign_client"
    ensures 1 <= |s.calls| <= 2 && ReadOnlyScoped(s.calls, companyId)
  {
    var track := Arg(cmd, "track_code");
    var query := Arg(cmd, "client_search");
    var clientCall := ClientLookup(query, companyId, employeeId);
    var clients := api(clientCall);
    if !Truthy(clients) then Step(Value(Text(ClientNotFound(query))), [clientCall])
    else
      var orderCall := OrderLookup(track, companyId, employeeId);
      var orders := api(orderCall);
      var result :=
        if !Truthy(orders) then Value(Text(OrderNotFound(track)))
        else
          var order := Index0(orders);
          var orderId :- if order.Value? then Sub(order.v, "id") else Raised;
          var client :- Index0(clients);
          var clientId :- Sub(client, "id");
          var name :- Sub(client, "full_name");
          Value(Confirm("assign_client",
            [("order_id", orderId), ("track", track), ("client_id", clientId), ("client_name", name)],
            "❓ Присвоить заказ `" + Str(track) + "` клиенту **" + Str(name) + "**?"));
      Step(result, [clientCall, orderCall])
  }

  // ---------------------------------------------------------------- clients

  function ClientLine(c: Json): Py<string>
  {
    if !c.JObj? then Raised
    else
    var prefix := Get(c, "client_code_prefix").v;
    var num := Get(c, "client_code_num").v;
    var name :- Sub(c, "full_name");
    var phone :- Sub(c, "phone");
    Value("- **" + Str(name) + "** (Код: " + Str(prefix) + Str(num) + ")\n  📞 " + Str(phone) + "\n")
  }


  function SearchClient(cmd: map<string, Json>, api: ApiCall -> Json, companyId: int, employeeId: int): (s: Step)
    ensures s.result.Value? ==> s.result.v.Text?
    ensures |s.calls| == 1 && ReadOnlyScoped(s.calls, companyId)
  {
    var query := Arg(cmd, "query");
    var call := ClientLookup(query, companyId, employeeId);
    var clients := api(call);
    var result :=
      if !Truthy(clients) then Value(Text("❌ Клиенты не найдены."))
      else
        var items :- Iterate(clients);
        var lines :- Lines(ClientLine, items);
        Value(Text("🔍 **Поиск клиента '" + Str(query) + "':**\n" + lines));
    Step(result, [call])
  }

  function ChangeClientCode(cmd: map<string, Json>, api: ApiCall -> Json, companyId: int, employeeId: int): (s: Step)
    ensures s.result.Value? && s.result.v.Confirm? ==> s.result.v.action == "change_client_code"
    ensures |s.calls| == 1 && ReadOnlyScoped(s.calls, companyId)
  {
    var query := Arg(cmd, "client_search");
    var newCode := Arg(cmd, "new_code_num");
    var call := ClientLookup(query, companyId, employeeId);
    var clients := api(call);
    var result :=
      if !Truthy(clients) then Value(Text(ClientNotFound(query)))
      else
        var client :- Index0(clients);
        var clientId :- Sub(client, "id");
        var name :- Sub(client, "full_name");
        Value(Confirm("change_client_code",
          [("client_id", clientId), ("client_name", name), ("new_code", newCode)],
          "❓ Сменить код клиента **" + Str(name) + "** на номер **" + Str(newCode) + "**?"));
    Step(result, [call])
  }

  function DeleteClient(cmd: map<string, Json>, api: ApiCall -> Json, companyId: int, employeeId: int): (s: Step)
    ensures s.result.Value? && s.result.v.Confirm? ==> s.result.v.action == "delete_client"
    ensures |s.calls| == 1 && ReadOnlyScoped(s.calls, companyId)
  {
    var query := Arg(cmd, "client_search");
    var call := ClientLookup(query, companyId, employeeId);
    var clients := api(call);
    var result :=
      if !Truthy(clients) then Value(Text(ClientNotFound(query)))
      else
        var client :- Index0(clients);
        var clientId :- Sub(client, "id");
        var name :- Sub(client, "full_name");
        Value(Confirm("delete_client", [("client_id", clientId), ("client_name", name)],
          "🗑 **УДАЛЕНИЕ КЛИЕНТА**\nВы точно хотите удалить **" + Str(name) + "**? Его заказы могут потеряться."));
    Step(result, [call])
  }

  // ---------------------------------------------------------------- finance and broadcast

  function AddExpense(cmd: map<string, Json>): (r: Reply)
    ensures r.Confirm? && r.action == "add_expense"
  {
    var amount := Arg(cmd, "amount");
    var reason := Arg(cmd, "reason");
    Confirm("add_expense", [("amount", amount), ("reason", reason)],
      "💸 Записать расход **" + Str(amount) + " сом**?\nПричина: *" + Str(reason) + "*")
  }

  function Broadcast(cmd: map<string, Json>): (r: Reply)
    ensures r.Confirm? && r.action == "broadcast"
  {
    var text := Arg(cmd, "text");
    Confirm("broadcast", [("text", text)],
      "📢 **ОТПРАВИТЬ РАССЫЛКУ ВСЕМ?**\n\nТекст:\n" + Str(text))
  }

  function GetReport(cmd: map<string, Json>, api: ApiCall -> Json, companyId: int, employeeId: int): (s: Step)
    ensures s.result.Value? ==> s.result.v.Text?
    ensures |s.calls| == 1 && ReadOnlyScoped(s.calls, companyId)
  {
    var start := Arg(cmd, "period_start");
    var end := Arg(cmd, "period_end");
    var call := ApiCall("GET", "/api/reports/summary", employeeId,
      Some([("start_date", start), ("end_date", end), ("company_id", JInt(companyId))]));
    var report := api(call);
    var result :=
      if !Truthy(report) then Value(Text("❌ Ошибка отчета."))
      else
        var hasSummary :- Contains(report, "summary");
        if !hasSummary then Value(Text("❌ Ошибка отчета."))
        else
          var summary :- Sub(report, "summary");
          var income :- Sub(summary, "total_income");
          var expenses :- Sub(summary, "total_expenses");
          var net :- Sub(summary, "net_profit");
          Value(Text("📊 **Отчет (" + Str(start) + " - " + Str(end) + "):**\n💰 Выручка: " + Str(income)
            + "\n📉 Расходы: " + Str(expenses) + "\n💵 Чистая: " + Str(net)));
    Step(result, [call])
  }

  // ---------------------------------------------------------------- parties

  /** `"\n".join([f"- {d}" for d in parties])`. */
  function PartyList(items: seq<Json>): string
  {
    if items == [] then ""
    else "- " + Str(items[0]) + (if |items| == 1 then "" else "\n" + PartyList(items[1..]))
  }

  function GetActiveParties(api: ApiCall -> Json, companyId: int, employeeId: int): (s: Step)
    ensures s.result.Value? ==> s.result.v.Text?
    ensures |s.calls| == 1 && ReadOnlyScoped(s.calls, companyId)
  {
    var call := ApiCall("GET", "/api/orders/parties", employeeId, Some([("company_id", JInt(companyId))]));
    var parties := api(call);
    var result :=
      if !Truthy(parties) then Value(Text("Нет партий."))
      else
        var items :- Iterate(parties);
        Value(Text("📅 **Партии:**\n" + PartyList(items)));
    Step(result, [call])
  }

  /** The party listing `GET /api/orders?party_dates=...&company_id=...`. */
  function PartyOrdersLookup(date: Json, companyId: int, employeeId: int): ApiCall
  {
    ApiCall("GET", "/api/orders", employeeId, Some([("party_dates", date), ("company_id", JInt(companyId))]))
  }

  function BulkUpdateParty(cmd: map<string, Json>, api: ApiCall -> Json, companyId: int, employeeId: int): (s: Step)
    ensures s.result.Value? && s.result.v.Confirm? ==> s.result.v.action == "bulk_status"
    ensures |s.calls| == 1 && ReadOnlyScoped(s.calls, companyId)
  {
    var date := Arg(cmd, "party_date");
    var status := Arg(cmd, "new_status");
    var call := PartyOrdersLookup(date, companyId, employeeId);
    var orders := api(call);
    var result :=
      var count :- if Truthy(orders) then Len(orders) else Value(0);
      if count == 0 then Value(Text("❌ Нет заказов за " + Str(date) + "."))
      else
        Value(Confirm("bulk_status", [("party_date", date), ("new_status", status), ("count", JInt(count))],
          "❓ Перевести партию от **" + Str(date) + "** (" + NatToDecimal(count) + " шт) в статус **" + Str(status) + "**?"));
    Step(result, [call])
  }

  // ---------------------------------------------------------------- settings

  /** The settings shown, with their display names, in display order. */
  const KeyMap: seq<(string, string)> := [
    ("china_warehouse_address", "Адрес склада (Китай)"),
    ("instruction_pdf_link", "Ссылка на PDF-инструкцию"),
    ("client_code_start", "Начальный код клиента"),
    ("office_schedule", "График работы офиса"),
    ("password_revert_order", "Пароль на отмену выдачи"),
    ("password_delete_order", "Пароль на удаление заказа"),
    ("password_delete_client", "Пароль на удаление клиента")]

  const Masked: string := "*** (Установлен)"
  const NotConfigured: string := "⚠️ Не настроено"

  /** A dictionary keyed by arbitrary JSON values, kept as its insertion sequence. */
  type PyDictEntries = seq<(Json, Json)>

  /** `d.get(k)` with `k` a string: the last entry for that key wins. */
  function DictGet(d: PyDictEntries, k: string): (r: Option<Json>)
    ensures r.None? <==> forall i :: 0 <= i < |d| ==> d[i].0 != JStr(k)
    ensures r.Some? ==>
      exists i :: 0 <= i < |d| && d[i] == (JStr(k), r.value) && forall j :: i < j < |d| ==> d[j].0 != JStr(k)
  {
    if d == [] then None
    else if d[|d| - 1].0 == JStr(k) then Some(d[|d| - 1].1)
    else DictGet(d[..|d| - 1], k)
  }

  /** `{s.get('key'): s.get('value') for s in items}`: a list or dict as key is unhashable. */
  function SettingsDict(items: seq<Json>): (r: Py<PyDictEntries>)
    ensures r.Value? ==> |r.v| == |items|
    ensures r.Raised? <==>
      exists i :: 0 <= i < |items| && (!items[i].JObj? || Get(items[i], "key").v.JList? || Get(items[i], "key").v.JObj?)
    ensures r.Value? ==> forall i :: 0 <= i < |items| ==> r.v[i] == (Get(items[i], "key").v, Get(items[i], "value").v)
  {
    if items == [] then Value([])
    else
      var front :- SettingsDict(items[..|items| - 1]);
      var s := items[|items| - 1];
      if !s.JObj? then Raised
      else
        var k := Get(s, "key").v;
        var v := Get(s, "value").v;
        if k.JList? || k.JObj? then Raised else Value(front + [(k, v)])
  }

  predicate IsPasswordKey(key: string)
  {
    "password" <= key
  }

  /** The line shown for one setting: its value, a mask for passwords, a warning when unset. */
  function SettingLine(key: string, display: string, d: PyDictEntries): (line: string)
  {
    var value := DictGet(d, key);
    if value.Some? && Truthy(value.value) then
      "- **" + display + "**: " + (if IsPasswordKey(key) then Masked else Str(value.value)) + "\n"
    else if value.None? then
      "- **" + display + "**: " + NotConfigured + "\n"
    else
      ""
  }

  function SettingLines(keys: seq<(string, string)>, d: PyDictEntries): string
  {
    if keys == [] then ""
    else SettingLine(keys[0].0, keys[0].1, d) + SettingLines(keys[1..], d)
  }

  function AiSwitchText(d: PyDictEntries): string
  {
    if DictGet(d, "ai_enabled") == Some(JStr("True")) then "✅ ВКЛЮЧЕН" else "❌ ВЫКЛЮЧЕН"
  }

  function SettingsText(d: PyDictEntries): string
  {
    "⚙️ **Текущие Настройки Системы:**\n" + SettingLines(KeyMap, d)
      + "\n🤖 **AI Ассистент (Рубильник)**: " + AiSwitchText(d)
  }

  /** The one call that passes no `company_id`: the employee's own settings. */
  function SettingsCall(employeeId: int): ApiCall
  {
    ApiCall("GET", "/api/settings", employeeId, None)
  }

  function GetSettings(api: ApiCall -> Json, companyId: int, employeeId: int): (s: Step)
    ensures s.result.Value? ==> s.result.v.Text?
    ensures |s.calls| == 1 && ReadOnlyScoped(s.calls, companyId)
  {
    var call := SettingsCall(employeeId);
    var response := api(call);
    var result :=
      if !Truthy(response) then Value(Text("❌ Ошибка загрузки настроек."))
      else
        var items :- Iterate(response);
        var d :- SettingsDict(items);
        Value(Text(SettingsText(d)));
    Step(result, [call])
  }

  // ---------------------------------------------------------------- dispatch

  function Unsupported(tool: Json): string
  {
    "⚠️ Инструмент '" + Str(tool) + "' не поддерживается."
  }

  /** The branch of one tool. */
  function RunTool(t: Tool, cmd: map<string, Json>, api: ApiCall -> Json, companyId: int, employeeId: int): (s: Step)
    ensures ReadOnlyScoped(s.calls, companyId) && |s.calls| <= 2
    ensures s.result.Value? && s.result.v.Confirm? ==> Mutating(t) && s.result.v.action == ConfirmActionFor(t)
    ensures !Mutating(t) && s.result.Value? ==> s.result.v.Text?
  {
    match t
    case SearchOrderTool => SearchOrder(cmd, api, companyId, employeeId)
    case UpdateOrderStatusTool => UpdateOrderStatus(cmd, api, companyId, employeeId)
    case DeleteOrderTool => DeleteOrder(cmd, api, companyId, employeeId)
    case AssignClientTool => AssignClient(cmd, api, companyId, employeeId)
    case SearchClientTool => SearchClient(cmd, api, companyId, employeeId)
    case ChangeClientCodeTool => ChangeClientCode(cmd, api, companyId, employeeId)
    case DeleteClientTool => DeleteClient(cmd, api, companyId, employeeId)
    case AddExpenseTool => Step(Value(AddExpense(cmd)), [])
    case BroadcastTool => Step(Value(Broadcast(cmd)), [])
    case GetReportTool => GetReport(cmd, api, companyId, employeeId)
    case GetActivePartiesTool => GetActiveParties(api, companyId, employeeId)
    case BulkUpdatePartyTool => BulkUpdateParty(cmd, api, companyId, employeeId)
    case GetSettingsTool => GetSettings(api, companyId, employeeId)
  }

  /** The `tool == "..."` chain: the branch of the tool named, or the "not supported" text. */
  function Dispatch(cmd: map<string, Json>, api: ApiCall -> Json, companyId: int, employeeId: int): (s: Step)
    ensures ReadOnlyScoped(s.calls, companyId) && |s.calls| <= 2
    ensures s.result.Value? && s.result.v.Confirm? ==>
      ParseTool(Arg(cmd, "tool")).Some? && Mutating(ParseTool(Arg(cmd, "tool")).value)
      && s.result.v.action == ConfirmActionFor(ParseTool(Arg(cmd, "tool")).value)
    ensures ParseTool(Arg(cmd, "tool")).Some? && !Mutating(ParseTool(Arg(cmd, "tool")).value) && s.result.Value? ==>
      s.result.v.Text?
  {
    var tool := Arg(cmd, "tool");
    match ParseTool(tool)
    case Some(t) => RunTool(t, cmd, api, companyId, employeeId)
    case None => Step(Value(Text(Unsupported(tool))), [])
  }

  /** The reply of a finished branch: its value, or the generic error text when it raised. */
  function Finish(s: Step): (r: Outcome)
    ensures r.calls == s.calls
    ensures s.result.Value? ==> r.reply == s.result.v
    ensures s.result.Raised? ==> r.reply == Text(ErrorText)
  {
    Outcome(if s.result.Raised? then Text(ErrorText) else s.result.v, s.calls)
  }

  /**
   * `execute_ai_tool`. Whatever the command and the backend's answers, the
   * dispatcher only reads, every read but the settings read is scoped to the
   * company, and a descriptor is proposed only by a mutating tool, under that
   * tool's action name. An exception anywhere in a branch becomes the generic
   * error text.
   */
  function ExecuteAiTool(cmd: map<string, Json>, api: ApiCall -> Json, companyId: int, employeeId: int): (r: Outcome)
    ensures ReadOnlyScoped(r.calls, companyId) && |r.calls| <= 2
    ensures r.reply.Confirm? ==>
      ParseTool(Arg(cmd, "tool")).Some? && Mutating(ParseTool(Arg(cmd, "tool")).value)
      && r.reply.action == ConfirmActionFor(ParseTool(Arg(cmd, "tool")).value)
    ensures ParseTool(Arg(cmd, "tool")).Some? && !Mutating(ParseTool(Arg(cmd, "tool")).value) ==> r.reply.Text?
  {
    Finish(Dispatch(cmd, api, companyId, employeeId))
  }

  /** A command naming a tool gets that tool's branch. */
  lemma ExecuteNamedTool(cmd: map<string, Json>, api: ApiCall -> Json, companyId: int, employeeId: int, t: Tool)
    requires Arg(cmd, "tool") == JStr(ToolName(t))
    ensures ExecuteAiTool(cmd, api, companyId, employeeId) == Finish(RunTool(t, cmd, api, companyId, employeeId))
  {
    ParseToolName(t);
  }
}
