/**
 * Properties of the AI tool dispatcher: what each tool proposes, when it answers
 * "not found", that only the first search hit is used, how the party count is
 * obtained, how settings are shown, and what happens on an exception.
 */
module AiToolsProps {
  import opened Common
  import opened Text
  import opened PyJson
  import opened AiTools

  /** The shape of `api_request`'s answer when the backend refuses a request. */
  predicate IsErrorDict(j: Json)
  {
    j.JObj? && |j.fields| == 2
    && j.fields[0].0 == "error" && j.fields[0].1.JStr?
    && j.fields[1].0 == "status_code" && j.fields[1].1.JInt?
  }

  /** A first search hit whose field `k` is `val`. */
  predicate FirstHitHas(hits: Json, k: string, val: Json)
  {
    hits.JList? && hits.items != [] && hits.items[0].JObj? && Lookup(hits.items[0].fields, k) == Some(val)
  }

  /** A command naming no known tool is answered "not supported", without touching the backend. */
  lemma UnsupportedToolIsRefused(cmd: map<string, Json>, api: ApiCall -> Json, companyId: int, employeeId: int)
    requires ParseTool(Arg(cmd, "tool")).None?
    ensures ExecuteAiTool(cmd, api, companyId, employeeId)
      == Outcome(Text("⚠️ Инструмент '" + Str(Arg(cmd, "tool")) + "' не поддерживается."), [])
  {
  }

  /**
   * `update_order_status` proposes "update_single" for the first order the search
   * finds, carrying the command's track code and status unchanged; later hits are ignored.
   */
  lemma UpdateOrderStatusProposal(cmd: map<string, Json>, api: ApiCall -> Json, companyId: int, employeeId: int, id: Json)
    requires FirstHitHas(api(OrderLookup(Arg(cmd, "track_code"), companyId, employeeId)), "id", id)
    ensures UpdateOrderStatus(cmd, api, companyId, employeeId) == Step(
      Value(Confirm("update_single",
        [("order_id", id), ("track", Arg(cmd, "track_code")), ("new_status", Arg(cmd, "new_status"))],
        "❓ Изменить статус заказа `" + Str(Arg(cmd, "track_code")) + "` на **" + Str(Arg(cmd, "new_status")) + "**?")),
      [OrderLookup(Arg(cmd, "track_code"), companyId, employeeId)])
  {
  }

  /** `delete_order` proposes deleting the first order the search finds. */
  lemma DeleteOrderProposal(cmd: map<string, Json>, api: ApiCall -> Json, companyId: int, employeeId: int, id: Json)
    requires FirstHitHas(api(OrderLookup(Arg(cmd, "track_code"), companyId, employeeId)), "id", id)
    ensures DeleteOrder(cmd, api, companyId, employeeId).result == Value(Confirm("delete_order",
      [("order_id", id), ("track", Arg(cmd, "track_code"))],
      "🗑 **УДАЛЕНИЕ ЗАКАЗА**\nВы уверены, что хотите удалить заказ `" + Str(Arg(cmd, "track_code")) + "`? Это необратимо."))
  {
  }

  /** An empty order search answers "order not found" and proposes nothing. */
  lemma OrderNotFoundAnswer(cmd: map<string, Json>, api: ApiCall -> Json, companyId: int, employeeId: int)
    requires !Truthy(api(OrderLookup(Arg(cmd, "track_code"), companyId, employeeId)))
    ensures UpdateOrderStatus(cmd, api, companyId, employeeId)
      == Step(Value(Text(OrderNotFound(Arg(cmd, "track_code")))), [OrderLookup(Arg(cmd, "track_code"), companyId, employeeId)])
    ensures DeleteOrder(cmd, api, companyId, employeeId)
      == Step(Value(Text(OrderNotFound(Arg(cmd, "track_code")))), [OrderLookup(Arg(cmd, "track_code"), companyId, employeeId)])
  {
  }

  /** An empty client search answers "client not found"; `assign_client` then skips the order search. */
  lemma ClientNotFoundAnswer(cmd: map<string, Json>, api: ApiCall -> Json, companyId: int, employeeId: int)
    requires !Truthy(api(ClientLookup(Arg(cmd, "client_search"), companyId, employeeId)))
    ensures AssignClient(cmd, api, companyId, employeeId)
      == Step(Value(Text(ClientNotFound(Arg(cmd, "client_search")))), [ClientLookup(Arg(cmd, "client_search"), companyId, employeeId)])
    ensures ChangeClientCode(cmd, api, companyId, employeeId)
      == Step(Value(Text(ClientNotFound(Arg(cmd, "client_search")))), [ClientLookup(Arg(cmd, "client_search"), companyId, employeeId)])
    ensures DeleteClient(cmd, api, companyId, employeeId)
      == Step(Value(Text(ClientNotFound(Arg(cmd, "client_search")))), [ClientLookup(Arg(cmd, "client_search"), companyId, employeeId)])
  {
  }

  /** `assign_client` pairs the first client found with the first order found. */
  lemma AssignClientProposal(cmd: map<string, Json>, api: ApiCall -> Json, companyId: int, employeeId: int,
                             orderId: Json, clientId: Json, name: Json)
    requires FirstHitHas(api(ClientLookup(Arg(cmd, "client_search"), companyId, employeeId)), "id", clientId)
    requires FirstHitHas(api(ClientLookup(Arg(cmd, "client_search"), companyId, employeeId)), "full_name", name)
    requires FirstHitHas(api(OrderLookup(Arg(cmd, "track_code"), companyId, employeeId)), "id", orderId)
    ensures AssignClient(cmd, api, companyId, employeeId) == Step(
      Value(Confirm("assign_client",
        [("order_id", orderId), ("track", Arg(cmd, "track_code")), ("client_id", clientId), ("client_name", name)],
        "❓ Присвоить заказ `" + Str(Arg(cmd, "track_code")) + "` клиенту **" + Str(name) + "**?")),
      [ClientLookup(Arg(cmd, "client_search"), companyId, employeeId), OrderLookup(Arg(cmd, "track_code"), companyId, employeeId)])
  {
  }

  /** `change_client_code` proposes the command's new number for the first client found. */
  lemma ChangeClientCodeProposal(cmd: map<string, Json>, api: ApiCall -> Json, companyId: int, employeeId: int,
                                 clientId: Json, name: Json)
    requires FirstHitHas(api(ClientLookup(Arg(cmd, "client_search"), companyId, employeeId)), "id", clientId)
    requires FirstHitHas(api(ClientLookup(Arg(cmd, "client_search"), companyId, employeeId)), "full_name", name)
    ensures ChangeClientCode(cmd, api, companyId, employeeId).result == Value(Confirm("change_client_code",
      [("client_id", clientId), ("client_name", name), ("new_code", Arg(cmd, "new_code_num"))],
      "❓ Сменить код клиента **" + Str(name) + "** на номер **" + Str(Arg(cmd, "new_code_num")) + "**?"))
  {
  }

  /** `delete_client` proposes deleting the first client found. */
  lemma DeleteClientProposal(cmd: map<string, Json>, api: ApiCall -> Json, companyId: int, employeeId: int,
                             clientId: Json, name: Json)
    requires FirstHitHas(api(ClientLookup(Arg(cmd, "client_search"), companyId, employeeId)), "id", clientId)
    requires FirstHitHas(api(ClientLookup(Arg(cmd, "client_search"), companyId, employeeId)), "full_name", name)
    ensures DeleteClient(cmd, api, companyId, employeeId).result == Value(Confirm("delete_client",
      [("client_id", clientId), ("client_name", name)],
      "🗑 **УДАЛЕНИЕ КЛИЕНТА**\nВы точно хотите удалить **" + Str(name) + "**? Его заказы могут потеряться."))
  {
  }

  /** `add_expense` and `broadcast` propose the command's own values and call nothing. */
  lemma ExpenseAndBroadcastProposals(cmd: map<string, Json>, api: ApiCall -> Json, companyId: int, employeeId: int)
    ensures AddExpense(cmd) ==
      Confirm("add_expense", [("amount", Arg(cmd, "amount")), ("reason", Arg(cmd, "reason"))],
        "💸 Записать расход **" + Str(Arg(cmd, "amount")) + " сом**?\nПричина: *" + Str(Arg(cmd, "reason")) + "*")
    ensures Broadcast(cmd) ==
      Confirm("broadcast", [("text", Arg(cmd, "text"))],
        "📢 **ОТПРАВИТЬ РАССЫЛКУ ВСЕМ?**\n\nТекст:\n" + Str(Arg(cmd, "text")))
  {
  }

  /**
   * `bulk_update_party` reports as `count` the number of orders listed for the
   * party date, and answers "no orders" instead of a descriptor when there are none.
   */
  lemma BulkUpdatePartyCount(cmd: map<string, Json>, api: ApiCall -> Json, companyId: int, employeeId: int, orders: seq<Json>)
    requires api(PartyOrdersLookup(Arg(cmd, "party_date"), companyId, employeeId)) == JList(orders)
    ensures orders == [] ==>
      BulkUpdateParty(cmd, api, companyId, employeeId).result == Value(Text("❌ Нет заказов за " + Str(Arg(cmd, "party_date")) + "."))
    ensures orders != [] ==>
      BulkUpdateParty(cmd, api, companyId, employeeId).result.Value?
      && BulkUpdateParty(cmd, api, companyId, employeeId).result.v.Confirm?
      && BulkUpdateParty(cmd, api, companyId, employeeId).result.v.data
         == [("party_date", Arg(cmd, "party_date")), ("new_status", Arg(cmd, "new_status")), ("count", JInt(|orders|))]
  {
  }

  /**
   * The count is `len()` of whatever came back: when the backend refuses the
   * listing, its two-key error dict is proposed as a party of two orders.
   */
  lemma BulkUpdatePartyCountsErrorDict(cmd: map<string, Json>, api: ApiCall -> Json, companyId: int, employeeId: int)
    requires IsErrorDict(api(PartyOrdersLookup(Arg(cmd, "party_date"), companyId, employeeId)))
    ensures BulkUpdateParty(cmd, api, companyId, employeeId).result.Value?
    ensures BulkUpdateParty(cmd, api, companyId, employeeId).result.v.Confirm?
    ensures ("count", JInt(2)) in BulkUpdateParty(cmd, api, companyId, employeeId).result.v.data
  {
  }

  /**
   * An exception inside a branch is caught: an error dict where a list of orders
   * was expected makes `orders[0]` raise, and the reply is the generic error text.
   */
  lemma ErrorDictIsCaught(cmd: map<string, Json>, api: ApiCall -> Json, companyId: int, employeeId: int)
    requires IsErrorDict(api(OrderLookup(Arg(cmd, "track_code"), companyId, employeeId)))
    ensures UpdateOrderStatus(cmd, api, companyId, employeeId).result.Raised?
    ensures DeleteOrder(cmd, api, companyId, employeeId).result.Raised?
    ensures Finish(UpdateOrderStatus(cmd, api, companyId, employeeId)).reply == Text(ErrorText)
  {
  }

  /** `get_settings` reads `/api/settings` without a company id and renders the decoded settings. */
  lemma GetSettingsReply(api: ApiCall -> Json, companyId: int, employeeId: int,
                         items: seq<Json>, d: PyDictEntries)
    requires api(SettingsCall(employeeId)) == JList(items) && items != []
    requires SettingsDict(items) == Value(d)
    ensures GetSettings(api, companyId, employeeId) == Step(Value(Text(SettingsText(d))), [SettingsCall(employeeId)])
    ensures !TenantScoped(SettingsCall(employeeId), companyId)
  {
    assert Iterate(JList(items)) == Value(items);
  }

  /**
   * One setting's line: a truthy password value is masked, a truthy other value
   * is shown, a missing key is flagged as not configured, and a present but empty
   * value is left out.
   */
  lemma SettingLineCases(key: string, display: string, d: PyDictEntries)
    ensures DictGet(d, key).None? ==> SettingLine(key, display, d) == "- **" + display + "**: ⚠️ Не настроено\n"
    ensures DictGet(d, key).Some? && !Truthy(DictGet(d, key).value) ==> SettingLine(key, display, d) == ""
    ensures DictGet(d, key).Some? && Truthy(DictGet(d, key).value) && "password" <= key ==>
      SettingLine(key, display, d) == "- **" + display + "**: *** (Установлен)\n"
    ensures DictGet(d, key).Some? && Truthy(DictGet(d, key).value) && !("password" <= key) ==>
      SettingLine(key, display, d) == "- **" + display + "**: " + Str(DictGet(d, key).value) + "\n"
  {
    var g := DictGet(d, key);
    if g.None? {
      assert SettingLine(key, display, d) == "- **" + display + "**: " + NotConfigured + "\n";
    } else if Truthy(g.value) {
      assert SettingLine(key, display, d) ==
        "- **" + display + "**: " + (if IsPasswordKey(key) then Masked else Str(g.value)) + "\n";
    }
  }

  /** The AI switch reads as enabled only for the exact string 'True' (not `true`, not a JSON boolean). */
  lemma AiSwitchExactlyTrue(d: PyDictEntries)
    ensures AiSwitchText(d) == "✅ ВКЛЮЧЕН" <==> DictGet(d, "ai_enabled") == Some(JStr("True"))
    ensures DictGet(d, "ai_enabled") == Some(JBool(true)) ==> AiSwitchText(d) == "❌ ВЫКЛЮЧЕН"
  {
  }

  /** Two settings dicts that differ only in the (set) values of password keys. */
  predicate AgreeOffPasswords(d1: PyDictEntries, d2: PyDictEntries)
  {
    |d1| == |d2|
    && forall i :: 0 <= i < |d1| ==>
      d1[i].0 == d2[i].0
      && (d1[i].1 == d2[i].1
          || (d1[i].0.JStr? && IsPasswordKey(d1[i].0.s) && Truthy(d1[i].1) && Truthy(d2[i].1)))
  }

  lemma {:induction false} LookupOffPasswords(d1: PyDictEntries, d2: PyDictEntries, key: string)
    requires AgreeOffPasswords(d1, d2)
    ensures DictGet(d1, key).None? == DictGet(d2, key).None?
    ensures DictGet(d1, key).Some? ==>
      DictGet(d1, key) == DictGet(d2, key)
      || (IsPasswordKey(key) && Truthy(DictGet(d1, key).value) && Truthy(DictGet(d2, key).value))
  {
    if d1 != [] {
      var n := |d1| - 1;
      assert AgreeOffPasswords(d1[..n], d2[..n]);
      LookupOffPasswords(d1[..n], d2[..n], key);
    }
  }

  lemma {:induction false} SettingLinesOffPasswords(keys: seq<(string, string)>, d1: PyDictEntries, d2: PyDictEntries)
    requires AgreeOffPasswords(d1, d2)
    ensures SettingLines(keys, d1) == SettingLines(keys, d2)
  {
    if keys != [] {
      LookupOffPasswords(d1, d2, keys[0].0);
      SettingLinesOffPasswords(keys[1..], d1, d2);
    }
  }

  /** Password values never reach the text: changing a set password changes nothing shown. */
  lemma SettingsHidePasswords(d1: PyDictEntries, d2: PyDictEntries)
    requires AgreeOffPasswords(d1, d2)
    ensures SettingsText(d1) == SettingsText(d2)
  {
    SettingLinesOffPasswords(KeyMap, d1, d2);
    LookupOffPasswords(d1, d2, "ai_enabled");
    assert !IsPasswordKey("ai_enabled") by {
      assert "ai_enabled"[1] != "password"[1];
    }
    assert AiSwitchText(d1) == AiSwitchText(d2);
  }

  /** An empty search answers with the search's own "nothing found" text. */
  lemma EmptySearchAnswers(cmd: map<string, Json>, api: ApiCall -> Json, companyId: int, employeeId: int)
    requires !Truthy(api(ClientLookup(Arg(cmd, "query"), companyId, employeeId)))
    ensures SearchClient(cmd, api, companyId, employeeId).result == Value(Text("❌ Клиенты не найдены."))
  {
  }
}
