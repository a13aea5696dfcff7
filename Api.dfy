/**
 * The API service: how a request to the wallet backend is assembled (URL, method, headers,
 * body), how its response is classified, and the query strings and bodies of the
 * endpoints the send flow and the dashboard use. `fetch` is an abstract response handed
 * in by the caller; the stored token lives in the shared browser storage.
 */
module Api {
  import opened Common
  import opened Json
  import opened BrowserStorage
  import AmountText

  type Headers = map<string, string>

  /** The `options` a caller passes: only the members the service reads. */
  datatype RequestOptions = RequestOptions(verb: Option<string>, headers: Headers, body: Option<Json>)

  /** What is handed to `fetch`. */
  datatype Request = Request(url: string, verb: string, headers: Headers, body: Option<Json>)

  /** A fetch response; `body` is None when `response.json()` rejects. */
  datatype Response = Response(status: int, ok: bool, body: Option<Json>)

  /**
   * Why a call throws: the 401 handler, an unreadable body (the JSON parse rejects, or a
   * member is read off a null body), or a failed request with the Error's message.
   */
  datatype ApiError = SessionExpired | UnreadableBody | Failed(message: Json)

  datatype ApiResult = Ok(data: Json) | Err(error: ApiError)

  const SessionExpiredMessage := "Authentication failed. Please log in again."
  const DefaultErrorMessage := "An error occurred"
  const LoginErrorMessage := "Login failed"
  const RegisterErrorMessage := "Registration failed"

  // ---------------------------------------------------------------- headers

  /** A token counts only when it is stored and non-empty (an empty string is falsy). */
  predicate HasToken(token: Option<string>) {
    token.Some? && token.value != ""
  }

  /**
   * The headers of an authenticated request: a JSON Content-Type the caller may override,
   * then the bearer token, written last so that it wins over the caller's.
   */
  function AuthHeaders(caller: Headers, token: Option<string>): (h: Headers)
    ensures HasToken(token) ==> h.Keys == caller.Keys + {"Content-Type", "Authorization"}
    ensures !HasToken(token) ==> h.Keys == caller.Keys + {"Content-Type"}
    ensures h["Content-Type"] == (if "Content-Type" in caller then caller["Content-Type"] else "application/json")
    ensures HasToken(token) ==> h["Authorization"] == "Bearer " + token.value
    ensures forall k :: k in caller && (k != "Authorization" || !HasToken(token)) ==> h[k] == caller[k]
  {
    var merged := map["Content-Type" := "application/json"] + caller;
    if HasToken(token) then merged["Authorization" := "Bearer " + token.value] else merged
  }

  /** Without caller headers, Authorization is present exactly when a token is stored. */
  lemma AuthorizationIffToken(token: Option<string>)
    ensures "Authorization" in AuthHeaders(map[], token) <==> HasToken(token)
    ensures HasToken(token) ==> AuthHeaders(map[], token)["Authorization"] == "Bearer " + token.value
  {
  }

  // ---------------------------------------------------------------- responses

  /** `new Error(data.message || fallback)`; reading `message` off a null body throws instead. */
  function ErrorFrom(data: Json, fallback: string): (e: ApiError)
    ensures e == UnreadableBody <==> data == JNull
    ensures e.Failed? ==> e.message == JStr(fallback) || (Get(data, "message") == Some(e.message) && Truthy(e.message))
    ensures e.Failed? && Get(data, "message").Some? && Truthy(Get(data, "message").value) ==> Some(e.message) == Get(data, "message")
    ensures fallback != "" && e.Failed? ==> Truthy(e.message)
    ensures data != JNull ==> e.Failed?
  {
    if data == JNull then UnreadableBody
    else
      var m := Get(data, "message");
      if m.Some? && Truthy(m.value) then Failed(m.value) else Failed(JStr(fallback))
  }

  /** A response that is not a 401: an ok one yields its body unchanged, any other throws. */
  function Classify(response: Response, fallback: string): (r: ApiResult)
    ensures r.Ok? <==> response.ok && response.body.Some?
    ensures r.Ok? ==> r.data == response.body.value
    ensures response.body.None? ==> r == Err(UnreadableBody)
    ensures !response.ok && response.body.Some? ==> r == Err(ErrorFrom(response.body.value, fallback))
  {
    if response.body.None? then Err(UnreadableBody)
    else if !response.ok then Err(ErrorFrom(response.body.value, fallback))
    else Ok(response.body.value)
  }

  /** The token `login` stores: a non-empty string `token` member of an ok response. */
  function StoredToken(response: Response): (t: Option<string>)
    ensures t.Some? ==> (response.ok && response.body.Some? && t.value != "" &&
      Get(response.body.value, "token") == Some(JStr(t.value)))
    ensures t.None? ==> (!response.ok || response.body.None? ||
      !(Get(response.body.value, "token").Some? && Get(response.body.value, "token").value.JStr? &&
        Get(response.body.value, "token").value.s != ""))
  {
    if !response.ok || response.body.None? then None
    else
      match Get(response.body.value, "token")
      case Some(JStr(s)) => if s != "" then Some(s) else None
      case _ => None
  }

  // ---------------------------------------------------------------- query strings

  type Param = (string, string)

  /** `URLSearchParams.toString()` over already-rendered names and values. */
  function QueryString(params: seq<Param>): (q: string)
    ensures q == [] <==> params == []
  {
    if params == [] then []
    else if |params| == 1 then params[0].0 + "=" + params[0].1
    else params[0].0 + "=" + params[0].1 + "&" + QueryString(params[1..])
  }

  /** The name and value of one `name=value` pair; a pair without `=` has an empty value. */
  function PairOf(text: string): Param {
    match AmountText.FirstIndex(text, '=')
    case None => (text, [])
    case Some(i) => (text[..i], text[i + 1..])
  }

  /** Reading a query string back into its pairs, as `URLSearchParams` does (without decoding). */
  function ParseQuery(q: string): (params: seq<Param>)
    ensures q != [] ==> |params| == |AmountText.Split(q, '&')|
  {
    if q == [] then []
    else
      var parts := AmountText.Split(q, '&');
      seq(|parts|, i requires 0 <= i < |parts| => PairOf(parts[i]))
  }

  /** A pair that survives the query string unescaped. */
  predicate PlainParam(p: Param) {
    '&' !in p.0 && '=' !in p.0 && '&' !in p.1
  }

  lemma {:induction false} FirstIndexAfter(a: string, b: string, c: char)
    requires c !in a
    ensures AmountText.FirstIndex(a + [c] + b, c) == Some(|a|)
  {
    var s := a + [c] + b;
    if a != [] {
      assert s[0] == a[0];
      assert s[1..] == a[1..] + [c] + b;
      assert c !in a[1..];
      FirstIndexAfter(a[1..], b, c);
    }
  }

  lemma PairOfRendered(k: string, v: string)
    requires '=' !in k
    ensures PairOf(k + "=" + v) == (k, v)
  {
    var s := k + "=" + v;
    FirstIndexAfter(k, v, '=');
    assert s[..|k|] == k;
    assert s[|k| + 1..] == v;
  }

  lemma {:induction false} SplitQuery(params: seq<Param>)
    requires params != []
    requires forall i :: 0 <= i < |params| ==> PlainParam(params[i])
    ensures AmountText.Split(QueryString(params), '&') ==
      seq(|params|, i requires 0 <= i < |params| => params[i].0 + "=" + params[i].1)
  {
    var first := params[0].0 + "=" + params[0].1;
    assert '&' !in first;
    if |params| == 1 {
      AmountText.SplitAbsent(first, '&');
    } else {
      var rest := params[1..];
      SplitQuery(rest);
      assert QueryString(params) == first + ['&'] + QueryString(rest);
      AmountText.SplitAtFirst(first, QueryString(rest), '&');
    }
  }

  /** A query string of plain pairs reads back as exactly those pairs, in order. */
  lemma QueryRoundTrip(params: seq<Param>)
    requires forall i :: 0 <= i < |params| ==> PlainParam(params[i])
    ensures ParseQuery(QueryString(params)) == params
  {
    if params != [] {
      SplitQuery(params);
      var parsed := ParseQuery(QueryString(params));
      assert |parsed| == |params|;
      forall i | 0 <= i < |params| ensures parsed[i] == params[i] {
        PairOfRendered(params[i].0, params[i].1);
      }
    }
  }

  // ---------------------------------------------------------------- transaction history

  /** `String(n)` for an integer. */
  function IntText(n: int): (s: string)
    ensures |s| >= 1
    ensures '&' !in s && '=' !in s
  {
    var ds := AmountText.NatDigits(if n < 0 then -n else n);
    assert forall k :: 0 <= k < |ds| ==> AmountText.IsDigit(ds[k]);
    if n < 0 then "-" + ds else ds
  }

  /** The history options; absent members are None, and 0 or "" count as absent (falsy). */
  datatype HistoryOptions = HistoryOptions(limit: Option<int>, offset: Option<int>, txType: Option<string>, status: Option<string>)

  predicate NumberGiven(x: Option<int>) { x.Some? && x.value != 0 }
  predicate TextGiven(x: Option<string>) { x.Some? && x.value != "" }

  /** The position of each history parameter in the query. */
  function HistoryRank(name: string): int {
    if name == "limit" then 0 else if name == "offset" then 1 else if name == "type" then 2 else 3
  }

  /** The parameter p stands for a given option, with that option's rendered value. */
  predicate FromOption(o: HistoryOptions, p: Param) {
    (p.0 == "limit" && NumberGiven(o.limit) && p.1 == IntText(o.limit.value)) ||
    (p.0 == "offset" && NumberGiven(o.offset) && p.1 == IntText(o.offset.value)) ||
    (p.0 == "type" && TextGiven(o.txType) && p.1 == o.txType.value) ||
    (p.0 == "status" && TextGiven(o.status) && p.1 == o.status.value)
  }

  predicate RankSorted(params: seq<Param>) {
    forall i, j :: 0 <= i < j < |params| ==> HistoryRank(params[i].0) < HistoryRank(params[j].0)
  }

  /** getTransactionHistory's query parameters, each option appended only when truthy. */
  function HistoryParams(o: HistoryOptions): seq<Param> {
    (if NumberGiven(o.limit) then [("limit", IntText(o.limit.value))] else []) +
    (if NumberGiven(o.offset) then [("offset", IntText(o.offset.value))] else []) +
    (if TextGiven(o.txType) then [("type", o.txType.value)] else []) +
    (if TextGiven(o.status) then [("status", o.status.value)] else [])
  }

  lemma {:induction false} RankSortedAppend(x: seq<Param>, y: seq<Param>)
    requires RankSorted(x) && RankSorted(y)
    requires forall p, q :: p in x && q in y ==> HistoryRank(p.0) < HistoryRank(q.0)
    ensures RankSorted(x + y)
  {
    var xy := x + y;
    forall i, j | 0 <= i < j < |xy| ensures HistoryRank(xy[i].0) < HistoryRank(xy[j].0) {
      if j < |x| {
        assert xy[i] == x[i] && xy[j] == x[j];
      } else if i >= |x| {
        assert xy[i] == y[i - |x|] && xy[j] == y[j - |x|];
      } else {
        assert xy[i] == x[i] && xy[j] == y[j - |x|];
        assert x[i] in x && y[j - |x|] in y;
      }
    }
  }

  /** The four optional segments of the history query, in order. */
  lemma HistorySegments(o: HistoryOptions) returns (a: seq<Param>, b: seq<Param>, c: seq<Param>, d: seq<Param>)
    ensures HistoryParams(o) == a + b + c + d
    ensures a == (if NumberGiven(o.limit) then [("limit", IntText(o.limit.value))] else [])
    ensures b == (if NumberGiven(o.offset) then [("offset", IntText(o.offset.value))] else [])
    ensures c == (if TextGiven(o.txType) then [("type", o.txType.value)] else [])
    ensures d == (if TextGiven(o.status) then [("status", o.status.value)] else [])
  {
    a := if NumberGiven(o.limit) then [("limit", IntText(o.limit.value))] else [];
    b := if NumberGiven(o.offset) then [("offset", IntText(o.offset.value))] else [];
    c := if TextGiven(o.txType) then [("type", o.txType.value)] else [];
    d := if TextGiven(o.status) then [("status", o.status.value)] else [];
  }

  /** Every parameter of the history query stands for a truthy option and carries its value. */
  lemma HistoryParamsFromOptions(o: HistoryOptions)
    ensures forall p :: p in HistoryParams(o) ==> FromOption(o, p)
  {
    var a, b, c, d := HistorySegments(o);
    forall p | p in HistoryParams(o) ensures FromOption(o, p) {
      assert p in a || p in b || p in c || p in d;
    }
  }

  /** Every truthy option is in the history query; a zero or empty one is not (above). */
  lemma HistoryParamsComplete(o: HistoryOptions)
    ensures NumberGiven(o.limit) ==> ("limit", IntText(o.limit.value)) in HistoryParams(o)
    ensures NumberGiven(o.offset) ==> ("offset", IntText(o.offset.value)) in HistoryParams(o)
    ensures TextGiven(o.txType) ==> ("type", o.txType.value) in HistoryParams(o)
    ensures TextGiven(o.status) ==> ("status", o.status.value) in HistoryParams(o)
  {
    var a, b, c, d := HistorySegments(o);
  }

  /** The history query lists its parameters in the order limit, offset, type, status. */
  lemma HistoryParamsOrdered(o: HistoryOptions)
    ensures RankSorted(HistoryParams(o))
  {
    var a, b, c, d := HistorySegments(o);
    assert HistoryRank("limit") == 0 && HistoryRank("offset") == 1;
    assert HistoryRank("type") == 2 && HistoryRank("status") == 3;
    RankSortedAppend(a, b);
    RankSortedAppend(a + b, c);
    RankSortedAppend(a + b + c, d);
  }

  /** The history path: `?` and the query only when at least one option is given. */
  function HistoryEndpoint(walletId: string, o: HistoryOptions): (endpoint: string)
    ensures var q := QueryString(HistoryParams(o));
      endpoint == "/transactions/history/" + walletId + (if q == [] then [] else "?" + q)
    ensures endpoint == "/transactions/history/" + walletId <==>
      !NumberGiven(o.limit) && !NumberGiven(o.offset) && !TextGiven(o.txType) && !TextGiven(o.status)
  {
    var q := QueryString(HistoryParams(o));
    var suffix := if q != [] then "?" + q else [];
    assert suffix == [] <==> q == [];
    assert ("/transactions/history/" + walletId + suffix == "/transactions/history/" + walletId) <==> |suffix| == 0;
    "/transactions/history/" + walletId + suffix
  }

  /** The query of the history endpoint reads back as the given options, in their fixed order. */
  lemma HistoryQueryReadsBack(o: HistoryOptions)
    requires o.txType.Some? ==> '&' !in o.txType.value
    requires o.status.Some? ==> '&' !in o.status.value
    ensures ParseQuery(QueryString(HistoryParams(o))) == HistoryParams(o)
  {
    var params := HistoryParams(o);
    HistoryParamsFromOptions(o);
    forall i | 0 <= i < |params| ensures PlainParam(params[i]) {
      assert params[i] in params;
      assert FromOption(o, params[i]);
    }
    QueryRoundTrip(params);
  }

  // ---------------------------------------------------------------- send-flow endpoints

  /** The body of createTransaction: exactly these four members, in this order. */
  function CreateTransactionBody(walletId: string, toAddress: string, amount: real, feeRate: int): (body: Json)
    ensures body.JObj? && Names(body.fields) == ["walletId", "toAddress", "amount", "feeRate"]
    ensures Get(body, "walletId") == Some(JStr(walletId))
    ensures Get(body, "toAddress") == Some(JStr(toAddress))
    ensures Get(body, "amount") == Some(JNum(amount))
    ensures Get(body, "feeRate") == Some(JNum(feeRate as real))
  {
    var b := JObj([("walletId", JStr(walletId)), ("toAddress", JStr(toAddress)),
                   ("amount", JNum(amount)), ("feeRate", JNum(feeRate as real))]);
    var f := b.fields;
    assert f[1..][1..][1..][1..] == [];
    assert f[..3][2] == f[2] && f[..3][..2][1] == f[1] && f[..3][..2][..1][0] == f[0];
    b
  }

  /** The body of validateAddress. */
  function ValidateAddressBody(address: string): (body: Json)
    ensures body.JObj? && Names(body.fields) == ["address"]
    ensures Get(body, "address") == Some(JStr(address))
  {
    JObj([("address", JStr(address))])
  }

  /** The fee-estimate path, glued from already-rendered values. */
  function EstimateFeeEndpoint(walletId: string, toAddress: string, amount: string): string {
    "/transactions/estimate?walletId=" + walletId + "&toAddress=" + toAddress + "&amount=" + amount
  }

  function EstimateParams(walletId: string, toAddress: string, amount: string): seq<Param> {
    [("walletId", walletId), ("toAddress", toAddress), ("amount", amount)]
  }

  /** The estimate path is the estimate route with a query of its three parameters, in order. */
  lemma EstimateFeeEndpointQuery(walletId: string, toAddress: string, amount: string)
    ensures EstimateFeeEndpoint(walletId, toAddress, amount) ==
      "/transactions/estimate" + "?" + QueryString(EstimateParams(walletId, toAddress, amount))
  {
    var params := EstimateParams(walletId, toAddress, amount);
    var q3 := "amount" + "=" + amount;
    var q2 := "toAddress" + "=" + toAddress + "&" + q3;
    var q1 := "walletId" + "=" + walletId + "&" + q2;
    assert QueryString(params[1..][1..]) == q3;
    assert QueryString(params[1..]) == q2;
    assert QueryString(params) == q1;
    assert "/transactions/estimate?walletId=" == "/transactions/estimate" + "?" + "walletId" + "=";
    assert "&toAddress=" == "&" + "toAddress" + "=";
    assert "&amount=" == "&" + "amount" + "=";
  }

  /** The estimate query reads back as its three parameters when the values hold no `&`. */
  lemma EstimateQueryReadsBack(walletId: string, toAddress: string, amount: string)
    requires '&' !in walletId && '&' !in toAddress && '&' !in amount
    ensures ParseQuery(QueryString(EstimateParams(walletId, toAddress, amount))) == EstimateParams(walletId, toAddress, amount)
  {
    QueryRoundTrip(EstimateParams(walletId, toAddress, amount));
  }

  const CreateTransactionEndpoint := "/transactions/create"
  const ValidateAddressEndpoint := "/address/validate"
  const FeeEstimatesEndpoint := "/transactions/fees"

  // ---------------------------------------------------------------- the service

  class ApiService {
    const baseUrl: string
    const storage: Storage

    constructor (storage: Storage)
      ensures baseUrl == "/api" && this.storage == storage
    {
      baseUrl := "/api";
      this.storage := storage;
    }

    /** The authenticated request: URL under baseUrl, the caller's method (GET by default) and body. */
    function AuthRequest(endpoint: string, options: RequestOptions): (request: Request)
      reads storage
      ensures request.url == baseUrl + endpoint
      ensures request.verb == (if options.verb.Some? then options.verb.value else "GET")
      ensures request.headers == AuthHeaders(options.headers, storage.GetItem("token"))
      ensures request.body == options.body
    {
      Request(baseUrl + endpoint, options.verb.GetOr("GET"), AuthHeaders(options.headers, storage.GetItem("token")), options.body)
    }

    /**
     * fetchWithAuth: a 401 drops the stored token and throws whatever the body says; any
     * other response is classified, leaving storage alone.
     */
    method FetchWithAuth(endpoint: string, options: RequestOptions, response: Response) returns (request: Request, result: ApiResult)
      modifies storage
      ensures request == old(AuthRequest(endpoint, options))
      ensures response.status == 401 ==> result == Err(SessionExpired) && storage.items == old(storage.items) - {"token"}
      ensures response.status != 401 ==> result == Classify(response, DefaultErrorMessage) && storage.items == old(storage.items)
    {
      request := AuthRequest(endpoint, options);
      if response.status == 401 {
        storage.RemoveItem("token");
        result := Err(SessionExpired);
        return;
      }
      if response.body.None? {
        result := Err(UnreadableBody);
        return;
      }
      var data := response.body.value;
      if !response.ok {
        result := Err(ErrorFrom(data, DefaultErrorMessage));
        return;
      }
      result := Ok(data);
    }

    /** login: a plain POST; the token of an ok response is stored when it is a non-empty string. */
    method Login(username: string, password: string, response: Response) returns (request: Request, result: ApiResult)
      modifies storage
      ensures request == Request(baseUrl + "/auth/login", "POST", map["Content-Type" := "application/json"],
        Some(JObj([("username", JStr(username)), ("password", JStr(password))])))
      ensures response.ok && response.body == Some(JNull) ==> result == Err(UnreadableBody)
      ensures !(response.ok && response.body == Some(JNull)) ==> result == Classify(response, LoginErrorMessage)
      ensures StoredToken(response).Some? ==> storage.items == old(storage.items)["token" := StoredToken(response).value]
      ensures StoredToken(response).None? ==> storage.items == old(storage.items)
    {
      request := Request(baseUrl + "/auth/login", "POST", map["Content-Type" := "application/json"],
        Some(JObj([("username", JStr(username)), ("password", JStr(password))])));
      if response.body.None? {
        result := Err(UnreadableBody);
        return;
      }
      var data := response.body.value;
      if !response.ok {
        result := Err(ErrorFrom(data, LoginErrorMessage));
        return;
      }
      if data == JNull {
        result := Err(UnreadableBody);
        return;
      }
      var token := Get(data, "token");
      if token.Some? && token.value.JStr? && token.value.s != "" {
        storage.SetItem("token", token.value.s);
      }
      result := Ok(data);
    }

    /**
     * register: a plain POST with no bearer token and no 401 rule; an ok reply yields its
     * body (even a null one), any other throws with "Registration failed" as fallback.
     */
    method Register(username: string, email: string, password: string, response: Response)
      returns (request: Request, result: ApiResult)
      ensures request == Request(baseUrl + "/auth/register", "POST", map["Content-Type" := "application/json"],
        Some(JObj([("username", JStr(username)), ("email", JStr(email)), ("password", JStr(password))])))
      ensures "Authorization" !in request.headers
      ensures result.Ok? <==> response.ok && response.body.Some?
      ensures result.Ok? ==> result.data == response.body.value
      ensures response.body.None? ==> result == Err(UnreadableBody)
      ensures !response.ok && response.body.Some? ==> result == Err(ErrorFrom(response.body.value, RegisterErrorMessage))
    {
      request := Request(baseUrl + "/auth/register", "POST", map["Content-Type" := "application/json"],
        Some(JObj([("username", JStr(username)), ("email", JStr(email)), ("password", JStr(password))])));
      if response.body.None? {
        result := Err(UnreadableBody);
        return;
      }
      var data := response.body.value;
      if !response.ok {
        result := Err(ErrorFrom(data, RegisterErrorMessage));
        return;
      }
      result := Ok(data);
    }

    /** The URLSearchParams of getTransactionHistory, appended one option at a time. */
    method BuildHistoryQuery(o: HistoryOptions) returns (params: seq<Param>)
      ensures params == HistoryParams(o)
    {
      params := [];
      if NumberGiven(o.limit) { params := params + [("limit", IntText(o.limit.value))]; }
      if NumberGiven(o.offset) { params := params + [("offset", IntText(o.offset.value))]; }
      if TextGiven(o.txType) { params := params + [("type", o.txType.value)]; }
      if TextGiven(o.status) { params := params + [("status", o.status.value)]; }
    }

    method GetTransactionHistory(walletId: string, o: HistoryOptions, response: Response) returns (request: Request, result: ApiResult)
      modifies storage
      ensures request == old(AuthRequest(HistoryEndpoint(walletId, o), RequestOptions(None, map[], None)))
      ensures response.status == 401 ==> result == Err(SessionExpired) && storage.items == old(storage.items) - {"token"}
      ensures response.status != 401 ==> result == Classify(response, DefaultErrorMessage) && storage.items == old(storage.items)
    {
      var params := BuildHistoryQuery(o);
      var q := QueryString(params);
      var queryString := if q != [] then "?" + q else [];
      request, result := FetchWithAuth("/transactions/history/" + walletId + queryString, RequestOptions(None, map[], None), response);
    }

    method CreateTransaction(walletId: string, toAddress: string, amount: real, feeRate: int, response: Response)
      returns (request: Request, result: ApiResult)
      modifies storage
      ensures request == old(AuthRequest(CreateTransactionEndpoint,
        RequestOptions(Some("POST"), map[], Some(CreateTransactionBody(walletId, toAddress, amount, feeRate)))))
      ensures response.status == 401 ==> result == Err(SessionExpired) && storage.items == old(storage.items) - {"token"}
      ensures response.status != 401 ==> result == Classify(response, DefaultErrorMessage) && storage.items == old(storage.items)
    {
      request, result := FetchWithAuth(CreateTransactionEndpoint,
        RequestOptions(Some("POST"), map[], Some(CreateTransactionBody(walletId, toAddress, amount, feeRate))), response);
    }

    method EstimateTransactionFee(walletId: string, toAddress: string, amount: string, response: Response)
      returns (request: Request, result: ApiResult)
      modifies storage
      ensures request == old(AuthRequest(EstimateFeeEndpoint(walletId, toAddress, amount), RequestOptions(None, map[], None)))
      ensures response.status == 401 ==> result == Err(SessionExpired) && storage.items == old(storage.items) - {"token"}
      ensures response.status != 401 ==> result == Classify(response, DefaultErrorMessage) && storage.items == old(storage.items)
    {
      request, result := FetchWithAuth(EstimateFeeEndpoint(walletId, toAddress, amount), RequestOptions(None, map[], None), response);
    }

    method ValidateAddress(address: string, response: Response) returns (request: Request, result: ApiResult)
      modifies storage
      ensures request == old(AuthRequest(ValidateAddressEndpoint, RequestOptions(Some("POST"), map[], Some(ValidateAddressBody(address)))))
      ensures response.status == 401 ==> result == Err(SessionExpired) && storage.items == old(storage.items) - {"token"}
      ensures response.status != 401 ==> result == Classify(response, DefaultErrorMessage) && storage.items == old(storage.items)
    {
      request, result := FetchWithAuth(ValidateAddressEndpoint, RequestOptions(Some("POST"), map[], Some(ValidateAddressBody(address))), response);
    }
  }
}
