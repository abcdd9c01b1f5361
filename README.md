# Cargo CRM core in Dafny

This project models the core of a multi-tenant cargo/logistics CRM and proves properties of that model. The CRM has three parts:

- **Backend business rules** (`main.py`). One company's data is a store of clients, orders, shifts, employees, roles and expense types: the class `Store.CompanyStore`. Every endpoint of the core is a method of that class. It returns either `Ok` or a `Refusal`, which stands for the `HTTPException` the endpoint raises. Each method's decision (who may act, which row is missing, which constraint is broken) is a pure function in `Endpoints`, `Imports`, `OrderRules` and `ClientCodes`. The properties are proved about those functions. The `setattr` loops, the issue loop and the two import loops are `while` loops, each proved equal to its specification function. Under the methods, `Tables` and `Patches` hold the row-level operations (insert with column defaults, detach, close a shift, issue, revert, apply a partial update), and `Rows` holds the row records.
- **AI tool executor** (`ai_tools.py`). `execute_ai_tool` turns a command `{tool, ...params}` into a reply. The backend is an oracle `api: ApiCall -> Json`. The result is an `Outcome`: the reply, which is a text or a confirmation descriptor, plus the list of backend calls made. Python's exceptions inside a branch become `Raised`, and the outer `except` turns that into the error text. The model proves that mutating tools only read and propose. They issue GET calls only, every one scoped to the company except the settings lookup, and each answers with the descriptor of its own action. `AiToolsLoops` writes the loops that build the search and settings texts as `while` loops. Each is proved to build the text the executor defines.
- **Telegram bot helpers** (`bot_template.py`). These are the Kyrgyz phone normaliser (`Phone`), `api_request` with its `company_id` injection and its answer mapping (`BotApi`), and the registration and add-order dialogs over the per-user `user_data` dict (`BotDialogs.BotSession`).

`Text`, `PyJson` and `Statuses` give the Python built-ins that these files rely on. They cover digit filtering, `strip`, `upper`, decimal conversion, JSON values with Python truthiness, `dict.get`, `str()`, and the fixed status list at main.py:18.

Where the design description and the code disagree, the model follows the code:

- The design says an ambiguous client or order search is refused. The code takes element `[0]` of the search answer.
- The design says every backend call carries the company id. `get_settings` sends only `employee_id`.
- The design describes a command normaliser and a confirm executor. Neither exists in these files, so neither is modelled.

## Model

| member | source | states |
|---|---|---|
| Phone.NormalizePhoneNumber | bot_template.py:64-78 | The result is "" or 12 digits starting "996". It is non-empty exactly when the digits typed have one of the three recognised shapes. Its last nine digits are the last nine digits typed. |
| Phone.NormalizeIdempotent | bot_template.py:70-71 | Normalising a result again returns it unchanged. |
| Phone.SameSubscriberSameNumber | bot_template.py:68-75 | A subscriber number typed bare, with a leading 0, with 996, or after any non-digit noise normalises to "996" followed by that number. |
| Text.Digits | bot_template.py:68 | The result is all digits, no longer than the input, and a string of digits is unchanged. What is kept, and in what order, is stated by DigitsCount and DigitsAppend. |
| Text.DigitsCount | bot_template.py:68 | Each digit occurs in the result as often as in the input, and no other character occurs. With DigitsAppend this means the digits are kept in order. |
| Text.DigitsAppend | main.py:1183 | Filtering digits distributes over concatenation. |
| Text.Strip | bot_template.py:495 | The result is the middle slice of the input after removing only `str.isspace()` characters at the two ends. It begins and ends with a non-space, and an already trimmed string is unchanged. |
| Text.StripTrailingSpace | bot_template.py:495 | Any trailing whitespace character after a trimmed text, a no-break space included, is stripped away. |
| Text.Upper | main.py:1213 | ASCII upper-casing, character by character, length preserved. |
| Text.LeadingLetters | main.py:1208 | The longest prefix of ASCII letters, i.e. `^([a-zA-Z]+)`. |
| Text.TrailingDigits | main.py:1209 | The longest suffix of digits, i.e. `(\d+)$`. |
| Text.DecimalRoundTrip | main.py:1217 | `int()` of the decimal text of n is n. |
| Statuses.Name | main.py:18 | Each status has its name in `ORDER_STATUSES`. Only `Issued` is named "Выдан". |
| Statuses.Parse | main.py:1613 | A name parses exactly when it is in `ORDER_STATUSES`, and to the status of that name. |
| Statuses.ParseName | main.py:18 | Parsing a status's name gives back that status. |
| Statuses.DefaultStatusFilter | main.py:1445 | Exactly the statuses other than "Выдан", one fewer than the list. |
| PyJson.Lookup | ai_tools.py:206 | `dict.get` on an entry list: None exactly when no entry has the key, otherwise the value of an entry with that key. |
| PyJson.Iterate | ai_tools.py:190 | Iterating a list yields its items; an iterable is empty exactly when it is falsy. |
| PyJson.Len | ai_tools.py:174 | `len` is defined on lists, dicts and strings, and is 0 exactly when the value is falsy. |
| PyJson.Str | ai_tools.py:80-83 | `str()` of a string is that string, and of None is "None". |
| AiTools.ParseTool | ai_tools.py:65-223 | A tool name is recognised only when it is one of the branch names. |
| AiTools.ParseToolName | ai_tools.py:65-223 | Every branch's name is recognised as that branch. |
| AiTools.SearchOrder | ai_tools.py:65-73 | One company-scoped GET; the answer is a text. |
| AiTools.UpdateOrderStatus | ai_tools.py:75-83 | One company-scoped GET; any descriptor proposes "update_single". |
| AiTools.DeleteOrder | ai_tools.py:85-92 | One company-scoped GET; any descriptor proposes "delete_order". |
| AiTools.AssignClient | ai_tools.py:94-106 | One or two company-scoped GETs; any descriptor proposes "assign_client". |
| AiTools.SearchClient | ai_tools.py:108-116 | One company-scoped GET; the answer is a text. |
| AiTools.ChangeClientCode | ai_tools.py:118-127 | One company-scoped GET; any descriptor proposes "change_client_code". |
| AiTools.DeleteClient | ai_tools.py:129-139 | One company-scoped GET; any descriptor proposes "delete_client". |
| AiTools.AddExpense | ai_tools.py:141-147 | No backend call; always the "add_expense" descriptor. |
| AiTools.Broadcast | ai_tools.py:149-154 | No backend call; always the "broadcast" descriptor. |
| AiTools.GetReport | ai_tools.py:156-164 | One company-scoped GET; the answer is a text. |
| AiTools.GetActiveParties | ai_tools.py:166-168 | One company-scoped GET; the answer is a text. |
| AiTools.BulkUpdateParty | ai_tools.py:170-180 | One company-scoped GET; any descriptor proposes "bulk_status". |
| AiTools.DictGet | ai_tools.py:206-211 | Lookup in the settings dict is None exactly when no entry has the key. Otherwise it is the value of the last entry with that key, as for a dict built by a comprehension. |
| AiTools.SettingsDict | ai_tools.py:190 | The comprehension raises exactly when some item is not a dict or has a list or dict as its `key`. Otherwise it has one entry per item, `(s.get('key'), s.get('value'))`, in order. |
| AiTools.GetSettings | ai_tools.py:182-220 | One GET, read-only; the answer is a text. |
| AiTools.RunTool | ai_tools.py:65-223 | Every branch makes at most two GETs, never writes, and proposes only the action of its own mutating tool. Read-only tools answer with text. |
| AiTools.Finish | ai_tools.py:225-227 | A branch's value is the reply. An exception inside a branch becomes "❌ Ошибка выполнения команды.", with the calls already made kept. |
| AiTools.ExecuteAiTool | ai_tools.py:55-227 | For every command and backend: at most two GETs, none writing. A descriptor comes only from a mutating tool and names that tool's action. A read-only tool always answers with text. |
| AiTools.ExecuteNamedTool | ai_tools.py:59-65 | A command naming a tool runs exactly that tool's branch, wrapped by the exception handler. |
| AiToolsProps.UnsupportedToolIsRefused | ai_tools.py:222-223 | An unknown tool gets "⚠️ Инструмент '…' не поддерживается." and no backend call. |
| AiToolsProps.UpdateOrderStatusProposal | ai_tools.py:75-83 | With a hit, the reply is the "update_single" descriptor. It carries the first hit's id and the command's track and status unchanged, after exactly one order lookup. |
| AiToolsProps.DeleteOrderProposal | ai_tools.py:85-92 | With a hit, the reply is the "delete_order" descriptor with the first hit's id and the command's track. |
| AiToolsProps.OrderNotFoundAnswer | ai_tools.py:79-88 | An empty order lookup gives "❌ Заказ `…` не найден." and no descriptor. |
| AiToolsProps.ClientNotFoundAnswer | ai_tools.py:98 | An empty client lookup gives "❌ Клиент '…' не найден." and no descriptor, after that one lookup only. See also ai_tools.py:122, ai_tools.py:132. |
| AiToolsProps.AssignClientProposal | ai_tools.py:94-106 | With hits, the reply is the "assign_client" descriptor. It is built from the first client and the first order, after a client lookup and then an order lookup. |
| AiToolsProps.ChangeClientCodeProposal | ai_tools.py:118-127 | With a hit, the reply is the "change_client_code" descriptor, with the first client and the command's new number. |
| AiToolsProps.DeleteClientProposal | ai_tools.py:129-139 | With a hit, the reply is the "delete_client" descriptor for the first client. |
| AiToolsProps.ExpenseAndBroadcastProposals | ai_tools.py:141-154 | The expense and broadcast descriptors carry the command's values unchanged. |
| AiToolsProps.BulkUpdatePartyCount | ai_tools.py:170-180 | The descriptor's count is the length of the order list returned for that date. A count of 0 gives "❌ Нет заказов за …" instead. |
| AiToolsProps.BulkUpdatePartyCountsErrorDict | ai_tools.py:173-177 | A backend error dict is counted by its keys and proposed as a bulk change of two orders. |
| AiToolsProps.ErrorDictIsCaught | ai_tools.py:78-81 | A backend error dict makes the order tools raise, and the reply becomes the generic error text. See also ai_tools.py:225-227. |
| AiToolsProps.GetSettingsReply | ai_tools.py:182-220 | The settings reply is the formatted text of the returned settings. Its single call is not company-scoped. |
| AiToolsProps.SettingLineCases | ai_tools.py:205-213 | A missing key shows "⚠️ Не настроено", and a falsy value is omitted. A "password…" key is masked, and any other value is shown. |
| AiToolsProps.AiSwitchExactlyTrue | ai_tools.py:216-217 | AI shows as enabled exactly when `ai_enabled` is the string "True"; a JSON `true` shows as disabled. |
| AiToolsProps.SettingsHidePasswords | ai_tools.py:205-218 | Two settings dicts that differ only in the non-empty values of password keys give the same text. |
| AiToolsProps.LookupOffPasswords | ai_tools.py:205-211 | Dicts that agree off the password values give the same lookups, up to truthy password values. |
| AiToolsProps.SettingLinesOffPasswords | ai_tools.py:205-213 | Such dicts give the same setting lines. |
| AiToolsLoops.LinesSnoc | ai_tools.py:70-72 | The listing of `items + [o]` is the listing of `items` followed by the line of `o`; it raises when either raises. |
| AiToolsLoops.LinesRaisedPrefix | ai_tools.py:70-72 | Once a prefix of the listing raises, every longer listing raises. |
| AiToolsLoops.LinesStop | ai_tools.py:70-72 | An item whose line raises makes the whole listing raise. |
| AiToolsLoops.LinesStep | ai_tools.py:70-72 | An item whose line is readable extends the text by exactly that line. |
| AiToolsLoops.ListingText | ai_tools.py:69-73 | The loop over the hits raises exactly when the listing raises; otherwise its text is the header followed by every item's line, in order. |
| AiToolsLoops.SearchOrderText | ai_tools.py:69-73 | The `search_order` text is its header followed by one line per order, and it raises exactly when some order cannot be read. |
| AiToolsLoops.SearchClientText | ai_tools.py:112-116 | The `search_client` text is its header followed by one line per client, and it raises exactly when some client cannot be read. |
| AiToolsLoops.SettingLinesJoined | ai_tools.py:205-213 | The setting lines are those of each key of the key map, joined in order. |
| AiToolsLoops.JoinedSnoc | ai_tools.py:205-213 | The text for `keys + [k]` is the text for `keys` followed by the line of `k`. |
| AiToolsLoops.JoinedStep | ai_tools.py:205-213 | One pass of the settings loop extends the text by the next key's line. |
| AiToolsLoops.SettingsTextLoop | ai_tools.py:192-218 | The settings loop followed by the switch line yields exactly the reply text that `get_settings` defines. |
| AiToolsProps.EmptySearchAnswers | ai_tools.py:111 | An empty client search answers "❌ Клиенты не найдены.". |
| BotApi.ErrorDict | bot_template.py:95 | An error dict has the message under "error" and the code under "status_code". |
| BotApi.CompanyInjection | bot_template.py:101-113 | After injection `company_id` is present. A supplied value is kept and never overwritten. Every other key is unchanged. |
| BotApi.MapResponse | bot_template.py:133-167 | A network failure maps to status 503, and any other failure to 500. An HTTP error maps to `{error, status_code}` with its own code. |
| BotApi.SuccessfulAnswers | bot_template.py:133-145 | A 204 or an empty body maps to `{"status": "ok"}`, and a JSON body to itself. An undecodable body maps to the read error with 500. |
| BotApi.ApiRequest | bot_template.py:81-167 | Without a URL: the 500 error dict, no request, no dict changed. Otherwise the request goes to URL+endpoint and the answer is the mapped response. A GET sends params with `company_id` added when missing, and a caller's params dict is updated in place to the same entries. A POST/PATCH/PUT body gets it only when present. DELETE changes nothing. |
| BotDialogs.ReadCreateAnswer | bot_template.py:372 | An answer counts as created exactly when it is a dict with "id" and without "error". See also bot_template.py:572. |
| BotDialogs.SecondField | bot_template.py:459 | `split('_')[1]`: absent exactly when there is no underscore. Otherwise it is the text after the first underscore, up to the next underscore or the end. |
| BotDialogs.ParseInt | bot_template.py:462 | `int()` of a digit string is its value. |
| BotDialogs.NoBreakSpaceTrackTooShort | bot_template.py:495-498 | A track code "ab" followed by a no-break space strips to "ab", which is too short, so the dialog asks again. |
| BotDialogs.BranchButtonRoundTrip | bot_template.py:439 | The branch button "loc_<id>" reads back as that id. See also bot_template.py:459-462. |
| BotDialogs.BotSession.RegisterViaName | bot_template.py:332-408 | Without a pending phone: END, nothing sent. A name under 2 characters stays in GET_NAME. Otherwise it registers. On success it sets `client_id`, `is_owner` False and `full_name`, drops the phone and ends. An unreadable answer crashes with `user_data` unchanged. |
| BotDialogs.BotSession.LocationChosen | bot_template.py:453-491 | A branch outside `available_locations` ends the dialog. A listed branch is stored and the dialog moves to TRACK_CODE. The raising cases crash. |
| BotDialogs.BotSession.ReceivedTrackCode | bot_template.py:493-516 | A stripped code shorter than 3 keeps TRACK_CODE. Otherwise it is stored and the dialog moves to COMMENT. |
| BotDialogs.BotSession.SaveOrder | bot_template.py:535-592 | Missing client, branch or track: nothing is sent. Otherwise one order POST is sent. Unless the handler crashes, the dialog keys are removed and the result is END. |
| BotDialogs.BotSession.SkipComment | bot_template.py:518-524 | Stores a None comment, then saves. |
| BotDialogs.BotSession.ReceivedComment | bot_template.py:526-533 | Stores the comment, then saves. |
| BotDialogs.BotSession.CancelDialog | bot_template.py:979-1011 | Always END, with every dialog key and the pending phone removed. |
| BotDialogs.DialogStateBeforeSave | bot_template.py:547-592 | After branch, track and comment, the save sends exactly the order POST with purchase type "Доставка" and `company_id`, and leaves only `client_id`. |
| BotDialogs.AddOrderConversation | bot_template.py:453-592 | A whole add-order dialog with a listed branch, a valid track and a skipped comment goes TRACK_CODE → COMMENT → END, sends one POST and leaves only `client_id`. |
| ClientCodes.MaxOf | main.py:973-978 | The maximum of the company's codes is one of them and bounds all of them. |
| ClientCodes.NextClientCode | main.py:971-981 | The generated code is above every existing code. It is 1001, or one past an existing non-zero code. |
| ClientCodes.NextClientCodeIsFree | main.py:971-981 | The generated code is not taken. |
| ClientCodes.NextClientCodeStartsAt1001 | main.py:981 | With no codes, or a maximum of 0, the code is 1001. |
| ClientCodes.NextClientCodeFollowsMax | main.py:981 | With a non-zero maximum m, the code is m + 1. |
| ClientCodes.ParseImportCode | main.py:1204-1217 | No cell or an empty cell gives no code, and a blank cell a warning. A text not ending in digits has no number. Otherwise the prefix is the upper-cased leading letters, or "KB". |
| ClientCodes.CodeTextLettersDigits | main.py:1208-1217 | Letters followed by digits parse to the upper-cased letters and the digits' value. |
| ClientCodes.ParseDigitsOnly | main.py:1208-1217 | Digits alone parse to prefix "KB" and their value. |
| ClientCodes.ParseExample | main.py:1204-1217 | "ab-12" parses to prefix "AB" and number 12. |
| ClientCodes.ExampleKb123 | main.py:1209-1217 | "KB123" parses to prefix "KB" and number 123. |
| ClientCodes.NoBreakSpaceCodeCell | main.py:1204-1217 | A cell "KB123" followed by a no-break space is stripped first and still parses to prefix "KB" and number 123. |
| ClientCodes.CompanyCreationRefusal | main.py:534-539 | A company is created exactly when its code is 3-15 characters of A-Z, 0-9 and _, and both its name and code are new. Otherwise the answer is 400. |
| ClientCodes.CompanyCreationRefusalAsWritten | main.py:534-539 | The same, with the regex as written, which also accepts one trailing newline. A code reaches this test only when the `pattern` of `company_code` at main.py:128 is not enforced, as under Pydantic v1. |
| ClientCodes.AsWrittenAcceptsNewline | main.py:534 | The written regex accepts every valid code, and also that code plus "\n", which is not valid. |
| ClientCodes.TrailingNewlineCompanyCode | main.py:534 | "ABC\n" is accepted as written and refused by the intended rule. It reaches line 534 only when the Field pattern at main.py:128 is not enforced (Pydantic v1). |
| Tables.FreshId | models.py:68 | A new row id is positive, unused, and above every existing id. |
| Tables.CodeNumbers | main.py:973-978 | Exactly the code numbers held by the company's clients. |
| Tables.InsertedClient | models.py:71-75 | An inserted client without prefix or status gets the column defaults "KB" and "Розница", and no Telegram id. |
| Tables.PutClientKeepsUnique | models.py:86-87 | Storing a client that clashes with no other keeps phones and codes unique in the company. |
| Tables.FreshClientFits | main.py:963-968 | A new client whose phone and code are free clashes with nobody. |
| Tables.DetachClient | main.py:1093-1097 | Orders of a deleted client lose only their client link; all other orders are untouched. |
| Tables.OpenShiftIdAt | main.py:2076-2080 | Finds the open shift of a branch exactly when one exists. |
| Tables.AddShiftKeepsOneOpen | main.py:2010-2019 | Opening a shift at a branch with no open shift keeps at most one open shift per branch. |
| Tables.ClosedShift | main.py:2087-2088 | Closing sets `end_time` and `closing_cash` and nothing else. See also main.py:305-306. |
| Tables.CloseShiftKeepsOneOpen | main.py:2076-2088 | Closing keeps at most one open shift per branch, and leaves that branch with none. |
| Tables.ActiveOwners | main.py:744-748 | Exactly the active employees whose role is "Владелец". |
| Tables.PutEmployeeKeepsOwner | main.py:741-750 | Replacing an employee keeps an active owner unless it deactivates the last one. |
| Tables.RemoveRoleKeepsOwners | main.py:838-846 | Removing a role no employee holds leaves the active owners unchanged. |
| Tables.AssignablePermissions | main.py:876-887 | Exactly the requested permission ids that exist, excluding "manage_companies" and "impersonate_company". |
| Tables.IssuedOrder | main.py:2562-2581 | An issued order is "Выдан" and tied to the shift and time. It records the weight, the cost and an equal share of each payment. The card type is recorded only when the card was used. Identity fields are kept. |
| Tables.RevertedOrder | main.py:2699-2708 | A reverted order is "Готов к выдаче". Issue time, shift, weight and all payment fields are cleared, and identity and rates are kept. |
| Tables.IssueThenRevert | main.py:2562-2581 | Issuing then reverting an order that awaits issue gives back that order, except for the revert time and the recorded rates. It awaits issue again. See also main.py:2699-2708. |
| OrderRules.InitialStatus | main.py:1516 | A new order is "Ожидает выкупа" exactly for purchase type "Выкуп", and "В обработке" otherwise. |
| OrderRules.NewOrder | main.py:1516-1534 | A new order carries the request's fields, the resolved branch and the initial status, and has no issue data. |
| OrderRules.PutOrderKeepsTracksDistinct | main.py:1476-1485 | Storing an order whose track is free or "PENDING-" keeps track codes distinct. |
| OrderRules.ResolveLocation | main.py:1487-1513 | Staff always get their own branch, or 400 without one. An owner gets the requested branch (404 if it is not the company's), else their own (main.py:1497-1498), else the first one (see OwnerFallsBackToFirstLocation). |
| OrderRules.StaffLocationIgnoresRequest | main.py:1509-1513 | A non-owner's requested branch has no effect. |
| OrderRules.OwnerFallsBackToFirstLocation | main.py:1501-1506 | An owner with no branch given or held gets the company's first branch, or 400 when there is none. |
| OrderRules.ResolvedLocationExists | main.py:1487-1513 | The resolved branch is one of the company's. |
| OrderRules.StatusFilter | main.py:1443-1447 | Requested statuses are used as given. None requested means every status but "Выдан". |
| OrderRules.BranchFilter | main.py:1415-1435 | Staff see their own branch. An owner sees the requested branch, or 404 for a foreign one. |
| OrderRules.VisibleOrders | main.py:1394-1458 | Every listed order matches the date, status and client filters. A non-owner sees only orders of their own branch. An owner who names a branch sees only that branch. The answer is 404 exactly when an owner names a foreign branch or the named client is not the company's, the latter only when the caller has a branch in view. |
| OrderRules.VisibleOrdersComplete | main.py:1394-1458 | Every order that matches the filters and the branch rule is listed. |
| OrderRules.DefaultHidesIssued | main.py:1443-1447 | Without a status filter no issued order is listed. |
| Patches.ClientSetattrLoop | main.py:1063-1064 | Applying the sent fields one by one in order gives the patched client. |
| Patches.OrderSetattrLoop | main.py:1618-1619 | Applying the sent fields one by one in order gives the patched order. |
| Patches.EmployeeSetattrLoop | main.py:768-769 | Applying the sent fields one by one in order gives the patched employee. |
| Patches.StatusNamed | main.py:1613-1619 | A stored status name is the status of that name. |
| Endpoints.CreateClientDecision | main.py:957-993 | Only owners may create (403). A taken phone, or a truthy taken code, gives 400. An explicit code 0 that is taken fails the unique constraint. On success the phone and code are free, and the code is the given one or the generated one. |
| Endpoints.CreateClientKeepsUnique | main.py:963-993 | A created client keeps phones and codes unique in the company. |
| Endpoints.UpdateClientGuard | main.py:1037-1061 | Forbidden for non-owners, 404 for a missing client, and 400 exactly when a changed phone or truthy code is held by another client. |
| Endpoints.UpdateClientOutcome | main.py:1037-1068 | The guard's refusal, or a NOT NULL violation, or the patched client. A success clashes with no other client, and every storable clash-free patch succeeds. |
| Endpoints.UpdateClientKeepsUnique | main.py:1053-1064 | An accepted update keeps phones and codes unique in the company. |
| Endpoints.DeleteClientDecision | main.py:1071-1099 | 403, 404, or 400 exactly while the client has an order that is not "Выдан". A deletion leaves none of its orders open. |
| Endpoints.CreateOrderDecision | main.py:1461-1551 | A missing client gives 404, and a taken non-"PENDING-" track 400. A success has a free track and the resolved branch, and every such request succeeds. |
| Endpoints.CreateOrderKeepsTracks | main.py:1476-1551 | A created order keeps track codes distinct. |
| Endpoints.EffectivePatch | main.py:1574-1579 | An owner's patch is used as sent. A non-owner's `location_id` is dropped and nothing else changes. |
| Endpoints.UpdateOrderGuard | main.py:1554-1636 | An update is accepted exactly when the order exists, a new branch or client is the company's, and the status is in the list. A changed non-"PENDING-" track must be free, and no NOT NULL column is nulled. |
| Endpoints.StaffCannotMoveOrder | main.py:1574-1579 | For a non-owner the sent `location_id` changes neither the decision nor the order's branch. |
| Endpoints.UpdateOrderKeepsTracks | main.py:1602-1619 | An accepted update keeps track codes distinct. |
| Endpoints.BulkActionDecision | main.py:1686-1769 | All-or-nothing. Success needs an owner, a non-empty list and every id in the company, otherwise 404. "update_status" succeeds exactly with a listed status. "delete" and "update_party_date" need the owner's password. "buyout" needs a positive rate and every order "Ожидает выкупа". |
| Endpoints.ApplyBulk | main.py:1711-1766 | Exactly the selected orders are changed or deleted; every other order is untouched. |
| Endpoints.BuyoutMovesExactlySelected | main.py:1734-1749 | An accepted buyout moves exactly the selected orders from "Ожидает выкупа" to "Выкуплен" with the rate, and leaves the rest. |
| Endpoints.BulkKeepsTracks | main.py:1711-1766 | A bulk action keeps track codes distinct. |
| Endpoints.OpenShiftDecision | main.py:1968-2058 | Needs the "open_close_shift" permission (403). The employee and branch must be the company's (404). The branch must have no open shift (400). An accepted shift opens at a branch with no open shift. |
| Endpoints.CloseShiftDecision | main.py:2061-2093 | Needs the permission (403) and an open shift at the actor's branch (404). It closes that branch's open shift. |
| Endpoints.ForceCloseDecision | main.py:281-310 | Owner and correct password (403), a company shift (404), and still open (400). A closed shift cannot be force-closed. |
| Endpoints.IssueDecision | main.py:2490-2594 | A body with a weight or rate not positive, or a negative payment, is refused before anything else (the `IssuePayload` validators at main.py:1378-1386; 422 counts as 400). A valid body then needs "issue_orders" (403, exactly), an open shift at the actor's branch (400), every id of the company and given once (404, exactly), each "Готов к выдаче" (400) and full payment (400). A request meeting all of these is accepted, on that branch's open shift. |
| Endpoints.IssueAll | main.py:2562-2581 | The issue loop changes no key of the order table. |
| Endpoints.IssueAllEffect | main.py:2562-2581 | After the loop every listed order is issued from its prior state and every other order is untouched. |
| Endpoints.IssueAllListed | main.py:2562-2581 | A listed order ends as issued from its prior state. |
| Endpoints.IssueAllOutside | main.py:2562-2581 | An order not listed is untouched. |
| Endpoints.IssueKeepsTracks | main.py:2562-2581 | Issuing keeps track codes distinct. |
| Endpoints.RevertDecision | main.py:2657-2725 | Accepted exactly for an issued company order, by an owner or by the employee whose shift issued it while that shift is open. Any other status gives 400. |
| Endpoints.RevertKeepsTracks | main.py:2699-2708 | Reverting keeps track codes distinct. |
| Endpoints.UpdateEmployeeDecision | main.py:724-777 | Owner only (403), and the employee must exist (404). Deactivating the last active owner gives 400. On success the new branch and role exist and no NOT NULL field is nulled. An owner's role stays an owner role. |
| Endpoints.UpdateEmployeeKeepsOwner | main.py:741-769 | An accepted update leaves the company at least one active owner. |
| Endpoints.DeleteRoleDecision | main.py:825-848 | 403, 404, or 400 exactly for "Владелец" or a role some employee holds. |
| Endpoints.DeleteRoleKeepsOwners | main.py:838-846 | An accepted deletion leaves the active owners unchanged. |
| Endpoints.RolePermissionsDecision | main.py:868-898 | 403, 404, or 400 exactly for the "Владелец" role. |
| Endpoints.RolePermissionsKeepOwners | main.py:876-893 | Changing a role's permissions leaves the active owners unchanged. |
| Endpoints.DeleteExpenseTypeDecision | main.py:2161-2188 | Needs an owner with "manage_expense_types" (403) and a company type (404). A type some expense uses gives 400. |
| Imports.ClientImportStart | main.py:1167-1173 | The import starts with the company's clients and exactly their phones and codes as seen. |
| Imports.CodeFromCell | main.py:1202-1233 | A parsed number that is free is taken with its prefix. A taken number leaves both prefix and number unset. At most one warning is added. |
| Imports.ImportClientRow | main.py:1176-1245 | A row without name or phone is skipped with the missing-field error, and one with no digit in its phone with the bad-phone error. A known phone is skipped with a warning. Otherwise one client is added with the digits of its phone, the code warnings are appended, and the count goes up by one. A skipped row changes nothing else. |
| Imports.ImportClientRowKeeps | main.py:1176-1245 | A row keeps the seen sets equal to the stored phones and codes, and keeps them unique. The count equals the clients added. |
| Imports.ImportClientsKeeps | main.py:1176-1252 | Over all rows the same holds, and existing clients are untouched. |
| Imports.BulkClientImport | main.py:1161-1262 | Owner only. The result keeps phones and codes unique, adds exactly `created` clients, and leaves existing clients untouched. |
| Imports.ImportClientsExample | main.py:1202-1245 | The row "Asel", "996555", "ab-12" creates one client with prefix "AB", number 12 and the default status. |
| Imports.PhoneIndex | main.py:1824 | The phone index maps exactly the stored phones to their client. |
| Imports.CodeIndex | main.py:1825 | The code index maps exactly the stored codes to their client. |
| Imports.OrderImportStart | main.py:1823-1827 | The import starts with the company's rows and exactly their track codes as seen. |
| Imports.FindClient | main.py:1843-1855 | A row's client is found through the code index or the phone index. |
| Imports.PlaceClient | main.py:1843-1868 | A found client is used. Otherwise a new client is added with a fresh "unknown_" phone and no code. A clash of that phone fails the request. |
| Imports.PlaceClientKeepsUnique | main.py:1856-1868 | Adding a placeholder client keeps phones and codes unique. |
| Imports.ImportedOrder | main.py:1870-1886 | An imported order has the row's track, client, comment and purchase type, the import's branch and date, and the buyout status exactly for "Выкуп". |
| Imports.ImportOrderRow | main.py:1831-1892 | An empty track is an error and a known track a warning. Otherwise the row's order is added with its client, and the track is marked seen. |
| Imports.ImportOrderRowKeeps | main.py:1831-1892 | A row keeps the seen tracks equal to the stored ones and the clients unique. The count equals the orders added. |
| Imports.ImportOrdersKeeps | main.py:1831-1898 | Over all rows the same holds, and existing orders are untouched. |
| Imports.ImportOrdersStopsAtError | main.py:1831-1904 | A failing row ends the import: later rows change nothing. |
| Imports.ImportOrdersPlaced | main.py:1831-1898 | Every imported order is at the import's branch and date, and its client exists. |
| Imports.BulkOrderImport | main.py:1776-1904 | The branch is resolved as for a single order, and its refusal is the import's. A success keeps the tables consistent and places every new order at that branch and date. |
| Store.OwnerPermissions | main.py:555-558 | The owner role of a new company gets every permission except "manage_companies" and "impersonate_company". |
| Store.RunClientSetattr | main.py:1063-1064 | The loop applies the sent client fields in order. |
| Store.SetClientAttrs | main.py:1063-1064 | The client after the loop is the patched client. |
| Store.RunOrderSetattr | main.py:1618-1619 | The loop applies the sent order fields in order. |
| Store.SetOrderAttrs | main.py:1618-1619 | The order after the loop is the patched order. |
| Store.RunEmployeeSetattr | main.py:768-769 | The loop applies the sent employee fields in order. |
| Store.SetEmployeeAttrs | main.py:768-769 | The employee after the loop is the patched employee. |
| Store.RunIssue | main.py:2562-2581 | The issue loop computes the issue of every listed order. |
| Store.RunClientImport | main.py:1176-1247 | The client import loop computes the row-by-row import. |
| Store.RunOrderImport | main.py:1831-1892 | The order import loop computes the row-by-row import, stopping at the first failure. |
| Store.CompanyStore.constructor | main.py:550-570 | A new company has one branch, the owner role with its permissions, an active owner at that branch, the five default expense types, and no clients, orders or shifts. |
| Store.CompanyStore.CreateClient | main.py:957-993 | On refusal nothing changes. Otherwise exactly one client is added under a fresh id, with the decided code and column defaults. Uniqueness is kept. |
| Store.CompanyStore.UpdateClient | main.py:1037-1068 | The answer is the update's outcome. Only that client changes, to the patched value. Uniqueness is kept. |
| Store.CompanyStore.DeleteClient | main.py:1071-1099 | On acceptance the client is removed and its orders are detached; otherwise nothing changes. |
| Store.CompanyStore.BulkImportClients | main.py:1161-1262 | The client table becomes the import's result, or is unchanged when refused. |
| Store.CompanyStore.CreateOrder | main.py:1461-1551 | On refusal nothing changes. Otherwise exactly one new order is added under a fresh id. Track codes stay distinct. |
| Store.CompanyStore.UpdateOrder | main.py:1554-1636 | On refusal nothing changes. Otherwise only that order changes, to the patch with a non-owner's branch change dropped. |
| Store.CompanyStore.BulkOrderAction | main.py:1686-1769 | All-or-nothing: a refusal changes nothing. Otherwise exactly the selected orders are changed or deleted. |
| Store.CompanyStore.BulkImportOrders | main.py:1776-1904 | Clients and orders become the import's result, or are unchanged when refused. |
| Store.CompanyStore.OpenShift | main.py:1968-2058 | On refusal nothing changes. Otherwise one open shift is added, keeping at most one open shift per branch. |
| Store.CompanyStore.CloseShift | main.py:2061-2093 | Closes the actor's branch's open shift, setting its end time and closing cash, or changes nothing. |
| Store.CompanyStore.ForceCloseShift | main.py:281-310 | Closes exactly the named open shift, or changes nothing. |
| Store.CompanyStore.IssueOrders | main.py:2490-2594 | On refusal no order changes. Otherwise exactly the listed orders become issued on the actor's open shift and the answer is their number. |
| Store.CompanyStore.RevertOrderStatus | main.py:2657-2725 | Returns exactly that order to "Готов к выдаче" with its issue data cleared, or changes nothing. |
| Store.CompanyStore.UpdateEmployee | main.py:724-777 | On refusal nothing changes. Otherwise only that employee changes, to the patched value, and an active owner remains. |
| Store.CompanyStore.DeleteRole | main.py:825-848 | Removes exactly that role, or changes nothing. |
| Store.CompanyStore.UpdateRolePermissions | main.py:868-898 | Sets that role's permissions to the assignable requested ones, or changes nothing. |
| Store.CompanyStore.DeleteExpenseType | main.py:2161-2188 | Removes exactly that expense type, or changes nothing. |
| Findings.CloseShiftNeverCloses | main.py:2061-2093 | As written, every call of `close_shift` ends in an internal error, including the calls the intended rule accepts. |
| Findings.AsWrittenCreatesNothing | main.py:1225-1241 | As written, an import that answers at all has created no client. |
| Findings.AsWrittenRefusesExample | main.py:1225-1241 | The row "Asel", "996555", "ab-12" fails as written and creates one client as intended. |
| Findings.AsWrittenAgreesUnlessNull | main.py:741-750 | The written last-owner guard agrees with the intended one except on an explicit null `is_active`. |
| Findings.AsWrittenDropsLastOwner | main.py:741-750 | `{"is_active": null}` for a sole active owner passes the written guard and leaves no active owner. The intended guard refuses it. |

## Left out

- Text.Digits, Text.TrailingDigits, Phone.NormalizePhoneNumber, ClientCodes.ParseImportCode and Imports.ImportClientRow: only the ASCII digits 0-9 count as digits. Python's `str.isdigit` and `\d` also accept other Unicode digits (Arabic-Indic, full-width and so on), which the model treats as non-digits, because Unicode's digit tables are not modelled.
- A JSON object from the backend is a list of entries, and the model does not require its keys to be distinct. A decoded Python dict cannot repeat a key, so the model admits oracle answers the source never receives. For them `PyJson.Len` and the key iteration count a repeated key twice. Lookups take the last entry, as decoding does.
- The FastAPI and SQLAlchemy plumbing is left out: sessions, flush, commit and rollback, and their failures. A failed flush or commit is modelled only where it decides the answer: a broken unique or NOT NULL constraint is `DbConflict`.
- HTTP status codes are folded into the `Refusal` variants `Forbidden`, `NotFound`, `BadRequest` and `DbConflict`. Pydantic's 422 validation errors count as `BadRequest`.
- Authentication and login are left out. The caller is an `Actor` value: id, role name, permissions, branch and password. Super-admin actors, whose company id is None, are outside the per-company store, so the super-admin branches of the endpoints are not modelled.
- Database ids come from `Tables.FreshId`, which gives a fresh id above every existing one, in place of autoincrement.
- Clocks are left out: `datetime.now()` and `date.today()` are parameters.
- Money is floating point in the source; the model uses reals. The cost check with its 1-som tolerance in `issue_orders` is the boolean parameter `underpaid`. The shift and summary reports and the buyout cost fields are not modelled.
- Store.CompanyStore.BulkImportOrders: the placeholder phone is built from one timestamp for the whole request, rather than a fresh clock reading per row.
- Store.CompanyStore.BulkOrderAction: the answer does not carry the count of changed orders.
- Store.CompanyStore.constructor: it models only the rows that `create_company` inserts. The company record and its other fields are not modelled.
- `create_client` is defined twice (main.py:957 and main.py:998) with identical bodies. FastAPI serves the first, and the model has one `CreateClient`.
- The clients' global `telegram_chat_id` uniqueness is kept as a per-company invariant, because the store holds one company.
- Uniqueness of role names, expense-type names and setting keys (models.py:147, models.py:222, models.py:256) is not modelled.
- The `telegram_chat_id` that the bot sends at registration is not a `ClientCreate` field and is dropped by validation. The model sends it and does not store it.
- The `Order` class in models.py has no `location_id` or `shift` column, but main.py uses both throughout. The model follows main.py.
- `get_orders` ignores the `q` and `limit` parameters that ai_tools.py sends, and the model does the same. The ordering of the listed orders is not modelled: the model returns a set.
- The remaining endpoints of main.py are not part of this model: delete_order, the expense endpoints, the reports, and the lookups. `update_expense` and `delete_expense` read `is_super_admin` (main.py:2314, main.py:2390) the same way `close_shift` does, and that part is also not modelled.
- `json.dumps` of a descriptor is the `Confirm` datatype (action, data, message), not its JSON text. Python's `str()` of a JSON value is `PyJson.Str`, and f-string formatting of numbers is approximated by decimal text.
- AiTools.SearchOrder, AiTools.SearchClient, AiTools.GetReport, AiTools.GetActiveParties and AiTools.GetSettings: their contracts state that the reply is text and the call set. The exact text of each listing is defined by the model's functions but is not restated as a property.
- The text-building loops of `execute_ai_tool` (ai_tools.py:70-72, ai_tools.py:113-115, ai_tools.py:205-213) appear twice. Inside the executor they are recursive functions, because the executor is a pure function and Dafny functions cannot call methods. Beside it they are `while` loops in AiToolsLoops, each proved to build the same text.
- The language model, `TOOLS_SYSTEM_PROMPT`, the command normaliser and the confirm-button executor are not part of this model.
- The Telegram I/O is left out: replies, keyboards, message deletion, the display handlers (`profile`, `my_orders`, `china_addresses`, `bishkek_contacts`, the owner menus) and `main`.
- `start`, `handle_contact` and `add_order_start_conv` are not modelled. They fetch data and fill `user_data`. `AddOrderConversation` starts from the `user_data` that `add_order_start_conv` leaves.
- The httpx transport is the parameter `transport`. Logging is left out.
- The DELETE and other-method branches of `api_request` send `params` unchanged, as written.

## Findings

| source | as written | input that shows it | evidently intended | confidence | as-written member | corrected member |
|---|---|---|---|---|---|---|
| main.py:2067 | `close_shift` first reads `closer_employee.is_super_admin`, which `Employee` (models.py:164-184) does not have, so every call raises | any call, e.g. an employee with "open_close_shift" whose branch has an open shift | close that branch's open shift | not executed | Findings.CloseShiftNeverCloses | Endpoints.CloseShiftDecision |
| main.py:1225-1241 | the seen codes and phones are dicts; `.add` on them raises for every row that passes the checks | one row "Asel", "996555", "ab-12" on an empty company | add to seen sets and create the client | not executed | Findings.AsWrittenRefusesExample | Imports.BulkClientImport |
| main.py:534 | `re.match(r'^[A-Z0-9_]{3,15}$', code)`: `$` also matches before a final newline. The same pattern on the request model (main.py:128) is ignored by Pydantic v1, which the `orm_mode` configs suggest; Pydantic v2 would refuse the code with 422 first, and no version is pinned | company code "ABC\n" | refuse codes with any character outside A-Z, 0-9, _ | not executed; holds only when the main.py:128 pattern is not enforced | ClientCodes.TrailingNewlineCompanyCode | ClientCodes.CompanyCreationRefusal |
| main.py:741 | the last-owner guard tests `is_active is False`; an explicit null passes and is stored as NULL | `{"is_active": null}` for the sole active owner | refuse any change that leaves no active owner | not executed | Findings.AsWrittenDropsLastOwner | Endpoints.UpdateEmployeeDecision |
