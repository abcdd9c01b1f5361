/**
 * The bot's two conversations over the per-user `user_data` dict: registration by
 * name (after the phone number has been shared) and adding an order (branch,
 * track code, comment, save), plus cancelling any dialog. Each handler returns
 * the next conversation state, or `Crashed` when an exception escapes it.
 */
module BotDialogs {
  import opened Common
  import opened Text
  import opened PyJson

  // Conversation states.
  const AskPhone: int := 0
  const GetName: int := 1
  const ChooseLocation: int := 2
  const TrackCode: int := 3
  const Comment: int := 4
  /** `ConversationHandler.END`. */
  const End: int := -1

  datatype HandlerResult = Next(state: int) | Crashed

  /**
   * A `user_data` value: a JSON value, or the `available_locations` dict, which maps
   * branch ids (ints) to branch names.
   */
  datatype UVal = UJson(j: Json) | ULocations(names: map<int, Json>)

  /** A write request the dialogs send through `api_request`. */
  datatype BotCall = BotCall(httpMethod: string, path: string, json: seq<(string, UVal)>)

  /** The keys of the add-order dialog, removed whenever that dialog ends. */
  const OrderDialogKeys: set<string> := {"chosen_location_id", "track_code", "comment", "available_locations"}

  /** The keys `cancel_dialog` removes: the add-order keys and the pending phone. */
  const CancelKeys: set<string> := OrderDialogKeys + {"phone_to_register"}

  /** `user_data.get(k)`. */
  function UGet(ud: map<string, UVal>, k: string): UVal
  {
    if k in ud then ud[k] else UJson(JNull)
  }

  predicate UTruthy(v: UVal)
  {
    match v
    case UJson(j) => Truthy(j)
    case ULocations(m) => |m| > 0
  }

  /** How a handler reads the backend's answer to a create request. */
  datatype CreateAnswer =
    | Created(record: seq<(string, Json)>)  // a dict with "id" and without "error"
    | Refused                               // falsy, or a dict that is an error or lacks "id"
    | Unreadable                            // an answer on which the handler's own code raises

  /**
   * `api_response and "error" not in api_response and "id" in api_response`,
   * followed by the `.get` both branches call on a truthy answer.
   */
  function ReadCreateAnswer(resp: Json): (a: CreateAnswer)
    ensures a.Created? <==> resp.JObj? && !HasKey(resp.fields, "error") && HasKey(resp.fields, "id")
    ensures a.Created? ==> a.record == resp.fields
    ensures a.Refused? <==> !Truthy(resp) || (resp.JObj? && (HasKey(resp.fields, "error") || !HasKey(resp.fields, "id")))
  {
    if !Truthy(resp) then Refused
    else if !resp.JObj? then Unreadable
    else if HasKey(resp.fields, "error") || !HasKey(resp.fields, "id") then Refused
    else Created(resp.fields)
  }

  /** The text between the first and the second '_': `data.split('_')[1]`, or None when there is no '_'. */
  function SecondField(data: string): (r: Option<string>)
    ensures r.Some? ==> forall i :: 0 <= i < |r.value| ==> r.value[i] != '_'
    ensures r.None? <==> forall i :: 0 <= i < |data| ==> data[i] != '_'
    ensures r.Some? ==>
      exists i :: 0 <= i < |data| && data[i] == '_' && (forall j :: 0 <= j < i ==> data[j] != '_')
        && r.value == UpToUnderscore(data[i + 1..])
  {
    if data == [] then None
    else if data[0] == '_' then Some(UpToUnderscore(data[1..]))
    else SecondField(data[1..])
  }

  function UpToUnderscore(s: string): (r: string)
    ensures r <= s
    ensures forall i :: 0 <= i < |r| ==> r[i] != '_'
    ensures |r| == |s| || s[|r|] == '_'
  {
    if s == [] || s[0] == '_' then [] else [s[0]] + UpToUnderscore(s[1..])
  }

  /** `int(s)` for a text without '_': optional surrounding whitespace and sign, then decimal digits. */
  function ParseInt(s: string): (r: Option<int>)
    ensures AllDigits(s) && s != "" ==> r == Some(DecimalValue(s))
  {
    var t := Strip(s);
    if t == "" then None
    else if t[0] == '-' || t[0] == '+' then
      var digits := t[1..];
      if digits != "" && AllDigits(digits) then
        var v: int := DecimalValue(digits);
        Some(if t[0] == '-' then -v else v)
      else None
    else if AllDigits(t) then Some(DecimalValue(t))
    else None
  }

  /** `location_id in available_locations`; membership on something that is not a container raises. */
  function Holds(avail: UVal, id: int): Py<bool>
  {
    match avail
    case ULocations(m) => Value(id in m)
    case UJson(JObj(_)) => Value(false)  // JSON object keys are strings, never equal to an int
    case UJson(JList(xs)) => Value(JInt(id) in xs)
    case UJson(_) => Raised
  }

  /** The client record posted by `register_via_name`. */
  function RegisterCall(name: string, phone: UVal, companyId: int, chatId: string): BotCall
  {
    BotCall("POST", "/api/clients",
      [("full_name", UJson(JStr(name))), ("phone", phone), ("company_id", UJson(JInt(companyId))),
       ("telegram_chat_id", UJson(JStr(chatId)))])
  }

  /** The order posted by `save_order_from_bot`: always a delivery, for the bot's company. */
  function OrderCall(ud: map<string, UVal>, companyId: int): BotCall
  {
    BotCall("POST", "/api/orders",
      [("client_id", UGet(ud, "client_id")), ("location_id", UGet(ud, "chosen_location_id")),
       ("track_code", UGet(ud, "track_code")), ("comment", UGet(ud, "comment")),
       ("purchase_type", UJson(JStr("Доставка"))), ("company_id", UJson(JInt(companyId)))])
  }

  /** The data an order needs: `all([client_id, location_id, track_code])`. */
  predicate HasOrderData(ud: map<string, UVal>)
  {
    UTruthy(UGet(ud, "client_id")) && UTruthy(UGet(ud, "chosen_location_id")) && UTruthy(UGet(ud, "track_code"))
  }

  /** One chat's `context.user_data`, which the handlers change in place. */
  class BotSession {
    var userData: map<string, UVal>

    constructor(initial: map<string, UVal>)
      ensures userData == initial
    {
      userData := initial;
    }

    /**
     * `register_via_name`: without a pending phone the dialog ends; a name shorter
     * than two characters is asked for again; otherwise the client is created, and
     * on success the chat becomes that (non-owner) client and the pending phone is dropped.
     */
    method RegisterViaName(name: Option<string>, chatId: string, companyId: int, api: BotCall -> Json)
      returns (r: HandlerResult, call: Option<BotCall>)
      modifies this`userData
      ensures !UTruthy(UGet(old(userData), "phone_to_register")) ==>
        r == Next(End) && call.None? && userData == old(userData)
      ensures UTruthy(UGet(old(userData), "phone_to_register")) && (name.None? || |name.value| < 2) ==>
        r == Next(GetName) && call.None? && userData == old(userData)
      ensures UTruthy(UGet(old(userData), "phone_to_register")) && name.Some? && |name.value| >= 2 ==>
        call == Some(RegisterCall(name.value, UGet(old(userData), "phone_to_register"), companyId, chatId))
      ensures call.Some? ==>
        var answer := ReadCreateAnswer(api(call.value));
        if answer.Unreadable? then r == Crashed && userData == old(userData)
        else if answer.Created? && Truthy(Lookup(answer.record, "id").value) then
          r == Next(End)
          && userData == (old(userData)[
               "client_id" := UJson(Lookup(answer.record, "id").value)][
               "is_owner" := UJson(JBool(false))][
               "full_name" := UJson(GetOr(JObj(answer.record), "full_name", JNull).v)]) - {"phone_to_register"}
        else r == Next(End) && userData == old(userData)
    {
      var phone := UGet(userData, "phone_to_register");
      if !UTruthy(phone) {
        return Next(End), None;
      }
      if name.None? || |name.value| < 2 {
        return Next(GetName), None;
      }
      var request := RegisterCall(name.value, phone, companyId, chatId);
      call := Some(request);
      var answer := ReadCreateAnswer(api(request));
      match answer
      case Unreadable =>
        r := Crashed;
      case Refused =>
        r := Next(End);
      case Created(record) =>
        var id := Lookup(record, "id").value;
        if !Truthy(id) {
          r := Next(End);
        } else {
          userData := userData["client_id" := UJson(id)];
          userData := userData["is_owner" := UJson(JBool(false))];
          userData := userData["full_name" := UJson(GetOr(JObj(record), "full_name", JNull).v)];
          userData := userData - {"phone_to_register"};
          r := Next(End);
        }
    }

    /**
     * `location_chosen`: the callback data "loc_<id>" selects a branch. Data without
     * '_' raises; an id that is not a number, or not among the branches offered,
     * ends the dialog; a valid choice is stored and the track code is asked for.
     */
    method LocationChosen(data: string) returns (r: HandlerResult)
      modifies this`userData
      ensures SecondField(data).None? ==> r == Crashed && userData == old(userData)
      ensures SecondField(data).Some? && ParseInt(SecondField(data).value).None? ==>
        r == Next(End) && userData == old(userData)
      ensures SecondField(data).Some? && ParseInt(SecondField(data).value).Some? ==>
        var id := ParseInt(SecondField(data).value).value;
        var avail := if "available_locations" in old(userData) then old(userData)["available_locations"] else ULocations(map[]);
        match Holds(avail, id)
        case Raised => r == Crashed && userData == old(userData)
        case Value(found) =>
          if !found then r == Next(End) && userData == old(userData)
          else
            userData == old(userData)["chosen_location_id" := UJson(JInt(id))]
            && r == (if avail.ULocations? then Next(TrackCode) else Crashed)
    {
      var field := SecondField(data);
      if field.None? {
        return Crashed;
      }
      var parsed := ParseInt(field.value);
      if parsed.None? {
        return Next(End);
      }
      var id := parsed.value;
      var avail := if "available_locations" in userData then userData["available_locations"] else ULocations(map[]);
      var held := Holds(avail, id);
      if held.Raised? {
        return Crashed;
      }
      if !held.v {
        return Next(End);
      }
      userData := userData["chosen_location_id" := UJson(JInt(id))];
      // looking up the branch name with `.get` works on the dict of branches only
      r := if avail.ULocations? then Next(TrackCode) else Crashed;
    }

    /** `received_track_code`: a stripped code of at least three characters is stored. */
    method ReceivedTrackCode(text: string) returns (r: HandlerResult)
      modifies this`userData
      ensures |Strip(text)| < 3 ==> r == Next(TrackCode) && userData == old(userData)
      ensures |Strip(text)| >= 3 ==> r == Next(Comment) && userData == old(userData)["track_code" := UJson(JStr(Strip(text)))]
    {
      var trackCode := Strip(text);
      if trackCode == "" || |trackCode| < 3 {
        return Next(TrackCode);
      }
      userData := userData["track_code" := UJson(JStr(trackCode))];
      r := Next(Comment);
    }

    /**
     * `save_order_from_bot`: with client, branch and track code present the order is
     * posted; unless the answer makes the handler raise, the add-order keys are
     * removed and the dialog ends, whether or not the order was created.
     */
    method SaveOrder(companyId: int, api: BotCall -> Json) returns (r: HandlerResult, call: Option<BotCall>)
      modifies this`userData
      ensures !HasOrderData(old(userData)) ==> call.None? && r == Next(End) && userData == old(userData) - OrderDialogKeys
      ensures HasOrderData(old(userData)) ==> call == Some(OrderCall(old(userData), companyId))
      ensures call.Some? && ReadCreateAnswer(api(call.value)).Unreadable? ==> r == Crashed && userData == old(userData)
      ensures call.Some? && !ReadCreateAnswer(api(call.value)).Unreadable? ==>
        r == Next(End) && userData == old(userData) - OrderDialogKeys
    {
      if !HasOrderData(userData) {
        userData := userData - OrderDialogKeys;
        return Next(End), None;
      }
      var request := OrderCall(userData, companyId);
      call := Some(request);
      if ReadCreateAnswer(api(request)).Unreadable? {
        return Crashed, call;
      }
      userData := userData - OrderDialogKeys;
      r := Next(End);
    }

    /** `skip_comment`: the comment is None, then the order is saved. */
    method SkipComment(companyId: int, api: BotCall -> Json) returns (r: HandlerResult, call: Option<BotCall>)
      modifies this`userData
      ensures HasOrderData(old(userData)) ==> call == Some(OrderCall(old(userData)["comment" := UJson(JNull)], companyId))
      ensures !HasOrderData(old(userData)) ==> call.None? && r == Next(End) && userData == old(userData) - OrderDialogKeys
      ensures call.Some? && ReadCreateAnswer(api(call.value)).Unreadable? ==>
        r == Crashed && userData == old(userData)["comment" := UJson(JNull)]
      ensures call.Some? && !ReadCreateAnswer(api(call.value)).Unreadable? ==>
        r == Next(End) && userData == old(userData) - OrderDialogKeys
    {
      userData := userData["comment" := UJson(JNull)];
      r, call := SaveOrder(companyId, api);
    }

    /** `received_comment`: the text is the comment, then the order is saved. */
    method ReceivedComment(text: string, companyId: int, api: BotCall -> Json) returns (r: HandlerResult, call: Option<BotCall>)
      modifies this`userData
      ensures HasOrderData(old(userData)) ==> call == Some(OrderCall(old(userData)["comment" := UJson(JStr(text))], companyId))
      ensures !HasOrderData(old(userData)) ==> call.None? && r == Next(End) && userData == old(userData) - OrderDialogKeys
      ensures call.Some? && ReadCreateAnswer(api(call.value)).Unreadable? ==>
        r == Crashed && userData == old(userData)["comment" := UJson(JStr(text))]
      ensures call.Some? && !ReadCreateAnswer(api(call.value)).Unreadable? ==>
        r == Next(End) && userData == old(userData) - OrderDialogKeys
    {
      userData := userData["comment" := UJson(JStr(text))];
      r, call := SaveOrder(companyId, api);
    }

    /** `cancel_dialog`: every temporary dialog key is removed and the dialog ends. */
    method CancelDialog() returns (r: HandlerResult)
      modifies this`userData
      ensures r == Next(End)
      ensures userData == old(userData) - CancelKeys
    {
      userData := userData - CancelKeys;
      r := Next(End);
    }
  }

  /**
   * A track code typed as "ab" followed by a no-break space strips to "ab",
   * too short, so `received_track_code` asks for the code again.
   */
  lemma NoBreakSpaceTrackTooShort()
    ensures Strip("ab" + ['\U{A0}']) == "ab" && |Strip("ab" + ['\U{A0}'])| < 3
  {
    StripTrailingSpace("ab", '\U{A0}');
  }

  lemma {:induction false} NoUnderscoreInDigits(s: string)
    requires AllDigits(s)
    ensures UpToUnderscore(s) == s
  {
    if s != [] {
      NoUnderscoreInDigits(s[1..]);
    }
  }

  /** The callback data of a branch button carries the branch id back unchanged. */
  lemma BranchButtonRoundTrip(id: nat)
    ensures SecondField("loc_" + NatToDecimal(id)) == Some(NatToDecimal(id))
    ensures ParseInt(NatToDecimal(id)) == Some(id)
  {
    var digits := NatToDecimal(id);
    var data := "loc_" + digits;
    NoUnderscoreInDigits(digits);
    assert data[1..][1..] == data[2..] && data[2..][1..] == data[3..] && data[3..][1..] == digits;
    assert data[0] == 'l' && data[1..][0] == 'o' && data[2..][0] == 'c' && data[3..][0] == '_';
    calc {
      SecondField(data);
      SecondField(data[1..]);
      SecondField(data[2..]);
      SecondField(data[3..]);
      Some(UpToUnderscore(digits));
    }
    DecimalRoundTrip(id);
  }

  /**
   * The `user_data` of the add-order dialog once the track code is in: it
   * holds the order's data, skipping the comment posts exactly those values,
   * and ending the dialog leaves only the client's identity.
   */
  lemma DialogStateBeforeSave(client: UVal, branch: UVal, code: UVal, locations: map<int, Json>, companyId: int)
    requires UTruthy(client) && UTruthy(branch) && UTruthy(code)
    ensures var ud := map["client_id" := client, "available_locations" := ULocations(locations)]
      ["chosen_location_id" := branch]["track_code" := code];
      HasOrderData(ud)
      && OrderCall(ud["comment" := UJson(JNull)], companyId) == BotCall("POST", "/api/orders",
           [("client_id", client), ("location_id", branch), ("track_code", code), ("comment", UJson(JNull)),
            ("purchase_type", UJson(JStr("Доставка"))), ("company_id", UJson(JInt(companyId)))])
      && ud - OrderDialogKeys == map["client_id" := client]
  {
    var ud := map["client_id" := client, "available_locations" := ULocations(locations)]
      ["chosen_location_id" := branch]["track_code" := code];
    var saved := ud["comment" := UJson(JNull)];
    assert UGet(ud, "client_id") == client;
    assert UGet(ud, "chosen_location_id") == branch;
    assert UGet(ud, "track_code") == code;
    assert UGet(saved, "client_id") == client;
    assert UGet(saved, "chosen_location_id") == branch;
    assert UGet(saved, "track_code") == code;
    assert UGet(saved, "comment") == UJson(JNull);
    assert ud.Keys == {"client_id", "available_locations", "chosen_location_id", "track_code"};
    assert (ud - OrderDialogKeys).Keys == {"client_id"};
  }

  /**
   * A whole add-order conversation of a registered client: choosing an offered
   * branch, typing a track code and skipping the comment posts one delivery order
   * with exactly those values, visits TRACK_CODE, COMMENT and END, and leaves only
   * the client's identity in `user_data`.
   */
  method AddOrderConversation(clientId: int, locations: map<int, Json>, locationId: nat, track: string,
                              companyId: int, api: BotCall -> Json)
    returns (states: seq<HandlerResult>, call: Option<BotCall>, finalData: map<string, UVal>)
    requires clientId != 0 && locationId != 0 && locationId in locations
    requires |Strip(track)| >= 3
    requires !ReadCreateAnswer(api(OrderCall(map[
      "client_id" := UJson(JInt(clientId)), "chosen_location_id" := UJson(JInt(locationId)),
      "track_code" := UJson(JStr(Strip(track))), "comment" := UJson(JNull)], companyId))).Unreadable?
    ensures states == [Next(TrackCode), Next(Comment), Next(End)]
    ensures call == Some(BotCall("POST", "/api/orders",
      [("client_id", UJson(JInt(clientId))), ("location_id", UJson(JInt(locationId))),
       ("track_code", UJson(JStr(Strip(track)))), ("comment", UJson(JNull)),
       ("purchase_type", UJson(JStr("Доставка"))), ("company_id", UJson(JInt(companyId)))]))
    ensures finalData == map["client_id" := UJson(JInt(clientId))]
  {
    var client := UJson(JInt(clientId));
    var branch := UJson(JInt(locationId));
    var code := UJson(JStr(Strip(track)));
    var start := map["client_id" := client, "available_locations" := ULocations(locations)];
    var session := new BotSession(start);

    BranchButtonRoundTrip(locationId);
    assert Holds(start["available_locations"], locationId) == Value(true);
    var first := session.LocationChosen("loc_" + NatToDecimal(locationId));
    assert first == Next(TrackCode);
    assert session.userData == start["chosen_location_id" := branch];

    var second := session.ReceivedTrackCode(track);
    assert second == Next(Comment);
    assert session.userData == start["chosen_location_id" := branch]["track_code" := code];
    assert Truthy(JInt(clientId)) && Truthy(JInt(locationId)) && Truthy(JStr(Strip(track)));
    DialogStateBeforeSave(client, branch, code, locations, companyId);

    var third;
    third, call := session.SkipComment(companyId, api);
    states := [first, second, third];
    finalData := session.userData;
  }
}
