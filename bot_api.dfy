/**
 * The bot's `api_request`: every request to the backend is tagged with the bot's
 * company (`company_id` is added to GET query parameters and to a JSON body of
 * POST/PATCH/PUT when it is not there already), and every answer, including
 * transport and HTTP failures, is turned into a JSON value the handlers inspect.
 */
module BotApi {
  import opened Common
  import opened Text
  import opened PyJson

  /** A Python dict the caller passes in and `api_request` may change in place. */
  class PyDict {
    var entries: seq<(string, Json)>

    constructor(initial: seq<(string, Json)>)
      ensures entries == initial
    {
      entries := initial;
    }
  }

  /** The request handed to the HTTP client; `None` marks an argument that was not passed. */
  datatype Request = Request(
    httpMethod: string,
    url: string,
    params: Option<seq<(string, Json)>>,
    json: Option<seq<(string, Json)>>)

  /**
   * What the HTTP client produced: a response (status, body text, the body decoded
   * as JSON when it parses, and the text of the status error), or a failure.
   */
  datatype HttpOutcome =
    | Responded(status: int, text: string, decoded: Option<Json>, statusErrorText: string)
    | NetworkFailure      // httpx.RequestError
    | UnexpectedFailure   // any other exception

  const OkStatus: Json := JObj([("status", JStr("ok"))])

  /** The error shape every failure is reported in. */
  function ErrorDict(error: Json, statusCode: int): (r: Json)
    ensures r.JObj? && HasKey(r.fields, "error") && Lookup(r.fields, "error") == Some(error)
    ensures Lookup(r.fields, "status_code") == Some(JInt(statusCode))
  {
    var r := JObj([("error", error), ("status_code", JInt(statusCode))]);
    assert r.fields[0].0 == "error";
    r
  }

  /** `raise_for_status()` lets only 2xx responses through. */
  predicate IsSuccess(status: int)
  {
    200 <= status < 300
  }

  /** A dict whose `company_id` is the bot's own unless the caller supplied one. */
  function WithCompany(d: seq<(string, Json)>, companyId: int): (r: seq<(string, Json)>)
  {
    if HasKey(d, "company_id") then d else d + [("company_id", JInt(companyId))]
  }

  lemma {:induction false} LookupAppend(d: seq<(string, Json)>, k: string, v: Json, key: string)
    ensures Lookup(d + [(k, v)], key) == if key == k then Some(v) else Lookup(d, key)
  {
    assert (d + [(k, v)])[..|d|] == d;
  }

  /**
   * Injection never overwrites: a supplied `company_id` is kept, a missing one
   * becomes the bot's company, and every other key keeps its value.
   */
  lemma CompanyInjection(d: seq<(string, Json)>, companyId: int, key: string)
    ensures HasKey(WithCompany(d, companyId), "company_id")
    ensures Lookup(WithCompany(d, companyId), "company_id")
      == if HasKey(d, "company_id") then Lookup(d, "company_id") else Some(JInt(companyId))
    ensures key != "company_id" ==> Lookup(WithCompany(d, companyId), key) == Lookup(d, key)
  {
    if !HasKey(d, "company_id") {
      LookupAppend(d, "company_id", JInt(companyId), key);
      LookupAppend(d, "company_id", JInt(companyId), "company_id");
      var r := WithCompany(d, companyId);
      assert r[|d|].0 == "company_id";
    }
  }

  /** The `detail` of a refused request: the decoded body's `detail`, else its text, else the error's text. */
  function ErrorDetail(text: string, decoded: Option<Json>, statusErrorText: string): Json
  {
    if decoded.Some? && decoded.value.JObj? then
      var detail := Lookup(decoded.value.fields, "detail");
      if detail.Some? then detail.value else JStr(Str(decoded.value))
    else
      JStr(if text != "" then text else statusErrorText)
  }

  /** The answer `api_request` returns for what the HTTP client produced. */
  function MapResponse(o: HttpOutcome): (r: Json)
    ensures !o.Responded? ==> r.JObj? && Lookup(r.fields, "status_code") == Some(JInt(if o.NetworkFailure? then 503 else 500))
    ensures o.Responded? && !IsSuccess(o.status) ==>
      r.JObj? && Lookup(r.fields, "status_code") == Some(JInt(o.status)) && HasKey(r.fields, "error")
  {
    match o
    case NetworkFailure =>
      ErrorDict(JStr("Ошибка сети при обращении к серверу. Попробуйте позже."), 503)
    case UnexpectedFailure =>
      ErrorDict(JStr("Внутренняя ошибка бота при запросе к серверу."), 500)
    case Responded(status, text, decoded, statusErrorText) =>
      if !IsSuccess(status) then ErrorDict(ErrorDetail(text, decoded, statusErrorText), status)
      else if status == 204 then OkStatus
      else if text != "" then
        (if decoded.Some? then decoded.value else ErrorDict(JStr("Ошибка чтения ответа от сервера."), 500))
      else OkStatus
  }

  /**
   * Successful answers: "204 No Content" and empty bodies read as `{"status": "ok"}`,
   * a decodable body is passed through as it is, an undecodable one is a 500 error.
   */
  lemma SuccessfulAnswers(status: int, text: string, decoded: Option<Json>, statusErrorText: string)
    requires IsSuccess(status)
    ensures status == 204 || text == "" ==> MapResponse(Responded(status, text, decoded, statusErrorText)) == OkStatus
    ensures status != 204 && text != "" && decoded.Some? ==>
      MapResponse(Responded(status, text, decoded, statusErrorText)) == decoded.value
    ensures status != 204 && text != "" && decoded.None? ==>
      MapResponse(Responded(status, text, decoded, statusErrorText))
        == ErrorDict(JStr("Ошибка чтения ответа от сервера."), 500)
  {
  }

  /**
   * `api_request(method, endpoint, params=..., json=...)`. Without a configured
   * backend URL nothing is sent and nothing is changed. Otherwise a GET carries
   * the company in its query (a fresh dict when none was passed), a POST, PATCH or
   * PUT carries it in a JSON body that was passed, any other method is sent as
   * it is, and the answer is `MapResponse` of what the transport produced.
   */
  method ApiRequest(adminApiUrl: string, companyId: int, httpMethod: string, endpoint: string,
                    params: PyDict?, json: PyDict?, transport: Request -> HttpOutcome)
    returns (r: Json, sent: Option<Request>)
    modifies params, json
    ensures adminApiUrl == "" ==>
      r == ErrorDict(JStr("URL API не настроен."), 500) && sent.None?
      && (params != null ==> params.entries == old(params.entries))
      && (json != null ==> json.entries == old(json.entries))
    ensures adminApiUrl != "" ==>
      sent.Some? && sent.value.httpMethod == httpMethod && sent.value.url == adminApiUrl + endpoint
      && r == MapResponse(transport(sent.value))
      && sent.value.json == (if json == null then None else Some(json.entries))
    ensures adminApiUrl != "" && Upper(httpMethod) == "GET" ==>
      sent.value.params == Some(WithCompany(if params == null then [] else old(params.entries), companyId))
      && (params != null ==> params.entries == WithCompany(old(params.entries), companyId))
      && (json != null && json != params ==> json.entries == old(json.entries))
    ensures adminApiUrl != "" && Upper(httpMethod) in {"POST", "PATCH", "PUT"} ==>
      (json != null ==> json.entries == WithCompany(old(json.entries), companyId))
      && (params != null && params != json ==> params.entries == old(params.entries))
      && sent.value.params == (if params == null then None else Some(params.entries))
    ensures adminApiUrl != "" && Upper(httpMethod) != "GET" && !(Upper(httpMethod) in {"POST", "PATCH", "PUT"}) ==>
      (params != null ==> params.entries == old(params.entries))
      && (json != null ==> json.entries == old(json.entries))
      && sent.value.params == (if params == null then None else Some(params.entries))
  {
    if adminApiUrl == "" {
      return ErrorDict(JStr("URL API не настроен."), 500), None;
    }
    var url := adminApiUrl + endpoint;
    var verb := Upper(httpMethod);
    var sentParams: Option<seq<(string, Json)>>;
    if verb == "GET" {
      var query := params;
      if query == null {
        query := new PyDict([]);
      }
      if !HasKey(query.entries, "company_id") {
        query.entries := query.entries + [("company_id", JInt(companyId))];
      }
      sentParams := Some(query.entries);
    } else {
      if verb in {"POST", "PATCH", "PUT"} && json != null {
        if !HasKey(json.entries, "company_id") {
          json.entries := json.entries + [("company_id", JInt(companyId))];
        }
      }
      sentParams := if params == null then None else Some(params.entries);
    }
    var request := Request(httpMethod, url, sentParams, if json == null then None else Some(json.entries));
    r := MapResponse(transport(request));
    sent := Some(request);
  }
}
