/**
 * The older quote client (`JDQuoteApiClient`): a single request with one
 * nested resend after a 401, `{}` for an empty body, header failures
 * re-wrapped, every failure inside the refresh branch reported as
 * `JD_AUTH_REFRESH_FAILED`, and the shape normalisation of `list_quotes`.
 *
 * None of its error records names a category, so they all carry
 * `DefaultCategory`. `str(e)` of one of the client's own exceptions is taken
 * to be its message.
 */
module LegacyQuoteClient {
  import opened Options
  import opened Text
  import opened JsonValues
  import opened Errors
  import opened Http

  const FallbackBaseUrl: string := "https://api.deere.com"

  /** What `get_access_token` does when asked: returns a token (possibly `None` or ""), or raises. */
  datatype TokenCall = Returned(token: Option<string>) | Raised(text: string)

  /** What `refresh_access_token` does: returns, or raises. */
  datatype RefreshCall = Refreshed | RefreshRaised(text: string)

  /** The credential provider during one request: first token, the refresh, the token after it. */
  datatype LegacyAuth = LegacyAuth(firstToken: TokenCall, refresh: RefreshCall, refreshedToken: TokenCall)

  /** A call of `_request`: its result, the requests sent, and how often a refresh was attempted. */
  datatype LegacyOutcome = LegacyOutcome(result: Result<Json>, sent: seq<HttpRequest>, refreshes: nat)

  /** Python's truthiness of an optional string. */
  predicate Given(s: Option<string>)
  {
    s.Some? && s.value != ""
  }

  const TokenMissing: ErrorContext :=
    ErrorContext("JD_AUTH_TOKEN_MISSING", "No valid authentication token available", High, DefaultCategory, map[])

  function HeaderError(text: string): ErrorContext
  {
    ErrorContext("JD_AUTH_HEADER_ERROR", "Failed to prepare authentication headers: " + text, High, DefaultCategory, map[])
  }

  /**
   * `_get_headers`: every failure, its own missing-token error included,
   * comes out as `JD_AUTH_HEADER_ERROR`.
   */
  function Headers(call: TokenCall): (r: Result<map<string, string>>)
    ensures r.Success? <==> call.Returned? && Given(call.token)
    ensures r.Failure? ==> r.error.code == "JD_AUTH_HEADER_ERROR" && r.error.severity == High
    ensures call.Returned? && !Given(call.token) ==> r == Failure(HeaderError(TokenMissing.message))
    ensures r.Success? ==> r.value.Keys == {"Authorization", "Content-Type", "Accept"}
                           && r.value["Authorization"] == "Bearer " + call.token.value
  {
    match call
    case Raised(text) => Failure(HeaderError(text))
    case Returned(token) =>
      if !Given(token) then Failure(HeaderError(TokenMissing.message))
      else Success(map["Authorization" := "Bearer " + token.value, "Content-Type" := "application/json",
                       "Accept" := "application/json"])
  }

  function UnexpectedError(text: string, endpoint: string, verb: string): ErrorContext
  {
    ErrorContext("JD_UNEXPECTED_ERROR", "Unexpected error during API request: " + text, High, DefaultCategory,
                 map["endpoint" := JStr(endpoint), "method" := JStr(verb)])
  }

  function HttpError(text: string, endpoint: string, verb: string): ErrorContext
  {
    ErrorContext("JD_HTTP_ERROR", "HTTP request failed: " + text, Medium, DefaultCategory,
                 map["endpoint" := JStr(endpoint), "method" := JStr(verb)])
  }

  function ApiError(prefix: string, status: nat, body: string): ErrorContext
  {
    ErrorContext("JD_API_ERROR", prefix + NatToString(status), Medium, DefaultCategory,
                 map["response" := JStr(body), "status" := JNum(status)])
  }

  function ParseError(body: string, text: string): ErrorContext
  {
    ErrorContext("JD_RESPONSE_PARSE_ERROR", "Failed to parse API response as JSON", Medium, DefaultCategory,
                 map["response" := JStr(body), "error" := JStr(text)])
  }

  function RefreshFailed(text: string): ErrorContext
  {
    ErrorContext("JD_AUTH_REFRESH_FAILED", "Authentication token refresh failed", High, DefaultCategory,
                 map["error" := JStr(text)])
  }

  /** `f"{base_url}/{endpoint.lstrip('/')}"` */
  function RequestUrl(baseUrl: string, endpoint: string): (r: string)
    ensures |r| > |baseUrl| && r[..|baseUrl| + 1] == baseUrl + "/"
    ensures |r| > |baseUrl| + 1 ==> r[|baseUrl| + 1] != '/'
    ensures var rest := r[|baseUrl| + 1..];
            |rest| <= |endpoint| && rest == endpoint[|endpoint| - |rest|..]
            && forall i :: 0 <= i < |endpoint| - |rest| ==> endpoint[i] == '/'
  {
    LStripCharSuffix(endpoint, '/');
    var r := baseUrl + "/" + LStripChar(endpoint, '/');
    assert r[|baseUrl| + 1..] == LStripChar(endpoint, '/');
    r
  }

  /** The JSON body is attached only when `data` is truthy. */
  function PayloadFor(data: Option<Json>): (r: Payload)
    ensures r.JsonPayload? <==> data.Some? && Truthy(data.value)
    ensures r.JsonPayload? ==> r.data == data
  {
    if data.Some? && Truthy(data.value) then JsonPayload(data) else NoPayload
  }

  /** The refresh branch, entered after a first 401; `first` is the request already sent. */
  function RetrySpec(auth: LegacyAuth, first: HttpRequest, second: Exchange): (r: LegacyOutcome)
    ensures r.refreshes == 1 && 1 <= |r.sent| <= 2 && r.sent[0] == first
    ensures |r.sent| == 2 <==> auth.refresh.Refreshed? && Headers(auth.refreshedToken).Success?
    ensures |r.sent| == 2 ==> r.sent[1] == first.(headers := Headers(auth.refreshedToken).value)
    ensures r.result.Failure? ==> r.result.error.code in {"JD_AUTH_REFRESH_FAILED", "JD_API_ERROR"}
  {
    match auth.refresh
    case RefreshRaised(text) => LegacyOutcome(Failure(RefreshFailed(text)), [first], 1)
    case Refreshed =>
      match Headers(auth.refreshedToken)
      case Failure(e) => LegacyOutcome(Failure(RefreshFailed(e.message)), [first], 1)
      case Success(h) =>
        var resent := first.(headers := h);
        match second
        case ClientFailure(_, text) => LegacyOutcome(Failure(RefreshFailed(text)), [first, resent], 1)
        case OtherFailure(_, text) => LegacyOutcome(Failure(RefreshFailed(text)), [first, resent], 1)
        case Response(status, body, decoded) => LegacyOutcome(ResentResult(status, body, decoded), [first, resent], 1)
  }

  /** How the resend's answer is read inside the refresh branch. */
  function ResentResult(status: nat, body: string, decoded: Decoded): Result<Json>
  {
    if status >= 400 then Failure(ApiError("API request failed after token refresh: ", status, body))
    else if body == "" then Success(JObj(map[]))
    else match decoded
      case Decoded(v) => Success(v)
      case DecodeError(text) => Failure(RefreshFailed(text))
  }

  /** How an answer other than 401 to the first send is read. */
  function FirstResult(status: nat, body: string, decoded: Decoded): (r: Result<Json>)
    ensures r.Success? <==> status < 400 && (body == "" || decoded.Decoded?)
    ensures status >= 400 ==> r.error.code == "JD_API_ERROR"
                              && r.error.details == map["response" := JStr(body), "status" := JNum(status)]
    ensures status < 400 && r.Failure? ==> r.error.code == "JD_RESPONSE_PARSE_ERROR"
    ensures status < 400 && body == "" ==> r == Success(JObj(map[]))
  {
    if status >= 400 then Failure(ApiError("API request failed: ", status, body))
    else if body == "" then Success(JObj(map[]))
    else match decoded
      case Decoded(v) => Success(v)
      case DecodeError(text) => Failure(ParseError(body, text))
  }

  /** `_request` as a function of the provider's and the server's answers. */
  function RequestSpec(baseUrl: string, verb: string, endpoint: string, data: Option<Json>,
                       params: Option<map<string, Json>>, auth: LegacyAuth,
                       first: Exchange, second: Exchange): (r: LegacyOutcome)
    ensures r.sent == [] <==> Headers(auth.firstToken).Failure?
    ensures r.refreshes <= 1 && |r.sent| <= r.refreshes + 1
  {
    match Headers(auth.firstToken)
    case Failure(e) => LegacyOutcome(Failure(UnexpectedError(e.message, endpoint, verb)), [], 0)
    case Success(h) =>
      AnswerSpec(verb, endpoint, auth, HttpRequest(verb, RequestUrl(baseUrl, endpoint), h, params, PayloadFor(data)),
                 first, second)
  }

  /** What the first answer to `request` leads to: an error, a result, or the refresh branch after a 401. */
  function AnswerSpec(verb: string, endpoint: string, auth: LegacyAuth, request: HttpRequest,
                      first: Exchange, second: Exchange): (r: LegacyOutcome)
    ensures 1 <= |r.sent| <= 2 && r.sent[0] == request
    ensures r.refreshes == 1 <==> first.Response? && first.status == 401
    ensures r.refreshes == 0 ==> |r.sent| == 1
  {
    match first
    case ClientFailure(_, text) => LegacyOutcome(Failure(HttpError(text, endpoint, verb)), [request], 0)
    case OtherFailure(_, text) => LegacyOutcome(Failure(UnexpectedError(text, endpoint, verb)), [request], 0)
    case Response(status, body, decoded) =>
      if status == 401 then RetrySpec(auth, request, second)
      else LegacyOutcome(FirstResult(status, body, decoded), [request], 0)
  }

  /** A header failure surfaces as `JD_UNEXPECTED_ERROR` wrapping `JD_AUTH_HEADER_ERROR`, and nothing is sent. */
  lemma HeaderFailureIsUnexpected(baseUrl: string, verb: string, endpoint: string, data: Option<Json>,
                                  params: Option<map<string, Json>>, auth: LegacyAuth,
                                  first: Exchange, second: Exchange)
    requires !(auth.firstToken.Returned? && Given(auth.firstToken.token))
    ensures var o := RequestSpec(baseUrl, verb, endpoint, data, params, auth, first, second);
            var text := if auth.firstToken.Raised? then auth.firstToken.text else TokenMissing.message;
            o.sent == [] && o.refreshes == 0
            && o.result == Failure(UnexpectedError(HeaderError(text).message, endpoint, verb))
            && o.result.error.code == "JD_UNEXPECTED_ERROR" && HeaderError(text).code == "JD_AUTH_HEADER_ERROR"
  {
  }

  /**
   * Every request goes to `base_url/endpoint-without-leading-slash` with the
   * params as given and a body only for truthy data; the resend differs from
   * the first request only in its headers; a refresh happens exactly after a
   * first 401.
   */
  lemma RequestShape(baseUrl: string, verb: string, endpoint: string, data: Option<Json>,
                     params: Option<map<string, Json>>, auth: LegacyAuth,
                     first: Exchange, second: Exchange)
    ensures var o := RequestSpec(baseUrl, verb, endpoint, data, params, auth, first, second);
            |o.sent| <= 2
            && (forall q :: q in o.sent ==>
                  q.url == RequestUrl(baseUrl, endpoint) && q.verb == verb && q.params == params
                  && q.payload == PayloadFor(data))
            && (|o.sent| == 2 ==> o.sent[1] == o.sent[0].(headers := o.sent[1].headers))
            && (o.refreshes == 1 <==> Headers(auth.firstToken).Success? && first.Response? && first.status == 401)
            && (|o.sent| == 2 <==> o.refreshes == 1 && auth.refresh.Refreshed? && Headers(auth.refreshedToken).Success?)
  {
  }

  /** After a first 401: the resend's error status is `JD_API_ERROR` with that status; an empty resend body is `{}`. */
  lemma RetryResponse(baseUrl: string, verb: string, endpoint: string, data: Option<Json>,
                      params: Option<map<string, Json>>, auth: LegacyAuth,
                      first: Exchange, second: Exchange)
    requires Headers(auth.firstToken).Success? && auth.refresh.Refreshed? && Headers(auth.refreshedToken).Success?
    requires first.Response? && first.status == 401 && second.Response?
    ensures var r := RequestSpec(baseUrl, verb, endpoint, data, params, auth, first, second).result;
            (second.status >= 400 ==>
               r.Failure? && r.error.code == "JD_API_ERROR"
               && r.error.details == map["response" := JStr(second.body), "status" := JNum(second.status)])
            && (second.status < 400 && second.body == "" ==> r == Success(JObj(map[])))
  {
  }

  /**
   * Inside the refresh branch every exception, including an undecodable
   * resend body, becomes `JD_AUTH_REFRESH_FAILED`.
   */
  lemma RefreshBranchFailures(baseUrl: string, verb: string, endpoint: string, data: Option<Json>,
                              params: Option<map<string, Json>>, auth: LegacyAuth,
                              first: Exchange, second: Exchange)
    requires Headers(auth.firstToken).Success? && first.Response? && first.status == 401
    requires || auth.refresh.RefreshRaised?
             || Headers(auth.refreshedToken).Failure?
             || second.ClientFailure? || second.OtherFailure?
             || (second.Response? && second.status < 400 && second.body != "" && second.decoded.DecodeError?)
    ensures var r := RequestSpec(baseUrl, verb, endpoint, data, params, auth, first, second).result;
            r.Failure? && r.error.code == "JD_AUTH_REFRESH_FAILED" && r.error.severity == High
  {
  }

  /**
   * Without a 401: an error status is `JD_API_ERROR` with the whole body; an
   * empty body is `{}`, never `None`; an undecodable body is
   * `JD_RESPONSE_PARSE_ERROR`.
   */
  lemma FirstResponse(baseUrl: string, verb: string, endpoint: string, data: Option<Json>,
                      params: Option<map<string, Json>>, auth: LegacyAuth,
                      first: Exchange, second: Exchange)
    requires Headers(auth.firstToken).Success? && first.Response? && first.status != 401
    ensures var r := RequestSpec(baseUrl, verb, endpoint, data, params, auth, first, second).result;
            (first.status >= 400 ==>
               r == Failure(ApiError("API request failed: ", first.status, first.body))
               && r.error.details["response"] == JStr(first.body))
            && (first.status < 400 && first.body == "" ==> r == Success(JObj(map[])))
            && (first.status < 400 && first.body != "" ==>
                  (first.decoded.Decoded? ==> r == Success(first.decoded.value))
                  && (first.decoded.DecodeError? ==> r.Failure? && r.error.code == "JD_RESPONSE_PARSE_ERROR"))
  {
  }

  /** `get_quote_details`'s params: each only when truthy, and `None` rather than `{}` when neither is. */
  function DetailsParams(dealerAccountNo: Option<string>, poNumber: Option<string>): (r: Option<map<string, Json>>)
    ensures r.None? <==> !Given(dealerAccountNo) && !Given(poNumber)
    ensures r.Some? ==> r.value.Keys <= {"dealerAccountNo", "poNumber"}
                        && ("dealerAccountNo" in r.value <==> Given(dealerAccountNo))
                        && ("poNumber" in r.value <==> Given(poNumber))
                        && (Given(dealerAccountNo) ==> r.value["dealerAccountNo"] == JStr(dealerAccountNo.value))
                        && (Given(poNumber) ==> r.value["poNumber"] == JStr(poNumber.value))
  {
    var q0: map<string, Json> := map[];
    var q1 := if Given(dealerAccountNo) then q0["dealerAccountNo" := JStr(dealerAccountNo.value)] else q0;
    var q2 := if Given(poNumber) then q1["poNumber" := JStr(poNumber.value)] else q1;
    if |q2| > 0 then Some(q2) else None
  }

  function DetailsEndpoint(quoteId: string): string
  {
    "quotes/" + quoteId + "/maintain-quote-details"
  }

  function QueryPair(filter: (string, string)): string
  {
    filter.0 + "=" + filter.1
  }

  function QueryPairs(filters: seq<(string, string)>): (r: seq<string>)
    ensures |r| == |filters|
    ensures forall i :: 0 <= i < |r| ==> r[i] == QueryPair(filters[i])
  {
    if |filters| == 0 then [] else [QueryPair(filters[0])] + QueryPairs(filters[1..])
  }

  /** `list_quotes`'s endpoint: "quotes", plus "?k=v&..." when there are filters (in the dictionary's order). */
  function ListEndpoint(filters: seq<(string, string)>): (r: string)
    ensures |filters| == 0 <==> r == "quotes"
    ensures |filters| > 0 ==> |r| > 7 && r[..7] == "quotes?"
  {
    if |filters| == 0 then "quotes" else "quotes?" + Join(QueryPairs(filters), '&')
  }

  /**
   * The query string holds exactly the `k=v` pairs, in order, when no key or
   * value contains '&'.
   */
  lemma ListEndpointQuery(filters: seq<(string, string)>)
    requires |filters| > 0
    requires forall i :: 0 <= i < |filters| ==> '&' !in filters[i].0 && '&' !in filters[i].1
    ensures ListEndpoint(filters)[..7] == "quotes?"
    ensures Split(ListEndpoint(filters)[7..], '&') == QueryPairs(filters)
  {
    var pairs := QueryPairs(filters);
    forall k | 0 <= k < |pairs| ensures '&' !in pairs[k] {
      assert pairs[k] == filters[k].0 + "=" + filters[k].1;
    }
    assert ListEndpoint(filters)[7..] == Join(pairs, '&');
    SplitJoin(pairs, '&');
  }

  /**
   * `list_quotes`'s reading of a result: failures pass through; a dict with
   * 'quotes' gives that value; a list is kept; any other truthy value is
   * wrapped in a list; a falsy one gives [].
   */
  function NormaliseQuotes(r: Result<Json>): (n: Result<Json>)
    ensures r.Failure? ==> n == r
    ensures r.Success? && r.value.JObj? && "quotes" in r.value.fields ==> n == Success(r.value.fields["quotes"])
    ensures r.Success? && r.value.JArr? ==> n == r
    ensures r.Success? && !r.value.JArr? && !(r.value.JObj? && "quotes" in r.value.fields) ==>
              n == Success(JArr(if Truthy(r.value) then [r.value] else []))
  {
    match r
    case Failure(_) => r
    case Success(data) =>
      if data.JObj? && "quotes" in data.fields then Success(data.fields["quotes"])
      else if data.JArr? then r
      else Success(JArr(if Truthy(data) then [data] else []))
  }

  /** Unless the value is a dict with 'quotes', a success always comes out as a list. */
  lemma NormalisedIsList(r: Result<Json>)
    requires r.Success? && !(r.value.JObj? && "quotes" in r.value.fields)
    ensures NormaliseQuotes(r).Success? && NormaliseQuotes(r).value.JArr?
    ensures NormaliseQuotes(NormaliseQuotes(r)) == NormaliseQuotes(r)
  {
  }

  /** `get_quote_status`: returns, or raises `AttributeError` when the value has no `.get`. */
  datatype StatusOutcome = Returns(result: Result<Json>) | RaisesAttributeError

  function StatusOf(r: Result<Json>): (s: StatusOutcome)
    ensures r.Failure? ==> s == Returns(Failure(r.error))
    ensures r.Success? && r.value.JObj? ==>
              s == Returns(Success(if "status" in r.value.fields then r.value.fields["status"] else JStr("unknown")))
    ensures s == RaisesAttributeError <==> r.Success? && !r.value.JObj?
  {
    match r
    case Failure(e) => Returns(Failure(e))
    case Success(JObj(fields)) => Returns(Success(Get(fields, "status", JStr("unknown"))))
    case Success(_) => RaisesAttributeError
  }

  /** A body the client reads as empty yields status "unknown", never a raise. */
  lemma EmptyDetailsStatusUnknown(baseUrl: string, quoteId: string, auth: LegacyAuth, first: Exchange, second: Exchange)
    requires Headers(auth.firstToken).Success?
    requires first.Response? && first.status < 400 && first.body == ""
    ensures StatusOf(RequestSpec(baseUrl, "GET", DetailsEndpoint(quoteId), None, None, auth, first, second).result)
            == Returns(Success(JStr("unknown")))
  {
    var o := RequestSpec(baseUrl, "GET", DetailsEndpoint(quoteId), None, None, auth, first, second);
    assert o.result == FirstResult(first.status, first.body, first.decoded) == Success(JObj(map[]));
  }

  /**
   * The body of `_request` after the session check, proved to follow
   * `RequestSpec`; the resend reuses the request with new headers.
   */
  method RunRequest(baseUrl: string, verb: string, endpoint: string, data: Option<Json>,
                    params: Option<map<string, Json>>, auth: LegacyAuth, first: Exchange, second: Exchange)
    returns (r: Result<Json>, sent: seq<HttpRequest>, refreshes: nat)
    ensures LegacyOutcome(r, sent, refreshes) == RequestSpec(baseUrl, verb, endpoint, data, params, auth, first, second)
  {
    var headers := Headers(auth.firstToken);
    if headers.Failure? {
      return Failure(UnexpectedError(headers.error.message, endpoint, verb)), [], 0;
    }
    var url := baseUrl + "/" + LStripChar(endpoint, '/');
    var request := HttpRequest(verb, url, headers.value, params, NoPayload);
    if data.Some? && Truthy(data.value) {
      request := request.(payload := JsonPayload(data));
    }
    assert request == HttpRequest(verb, RequestUrl(baseUrl, endpoint), headers.value, params, PayloadFor(data));
    r, sent, refreshes := Answer(verb, endpoint, auth, request, first, second);
  }

  /** The `try` around the first send: reads its answer, or enters the refresh branch after a 401. */
  method Answer(verb: string, endpoint: string, auth: LegacyAuth, request: HttpRequest,
                first: Exchange, second: Exchange)
    returns (r: Result<Json>, sent: seq<HttpRequest>, refreshes: nat)
    ensures LegacyOutcome(r, sent, refreshes) == AnswerSpec(verb, endpoint, auth, request, first, second)
  {
    sent, refreshes := [request], 0;
    match first {
      case ClientFailure(_, text) =>
        r := Failure(HttpError(text, endpoint, verb));
      case OtherFailure(_, text) =>
        r := Failure(UnexpectedError(text, endpoint, verb));
      case Response(status, body, decoded) =>
        if status == 401 {
          r, sent, refreshes := Resend(auth, request, second);
          return;
        }
        r := FirstResult(status, body, decoded);
    }
  }

  class LegacyQuoteApiClient {
    const baseUrl: string
    var session: SessionState

    /** `base_url`: the first truthy of the two configured URLs, else the hard-coded default. */
    constructor (quote2BaseUrl: Option<string>, apiBaseUrl: Option<string>)
      ensures baseUrl == if Given(quote2BaseUrl) then quote2BaseUrl.value
                         else if Given(apiBaseUrl) then apiBaseUrl.value
                         else FallbackBaseUrl
      ensures baseUrl != ""
      ensures session == NoSession
    {
      if Given(quote2BaseUrl) {
        baseUrl := quote2BaseUrl.value;
      } else if Given(apiBaseUrl) {
        baseUrl := apiBaseUrl.value;
      } else {
        baseUrl := FallbackBaseUrl;
      }
      session := NoSession;
    }

    /** `_ensure_session`: a missing or closed session is replaced by an open one. */
    method EnsureSession()
      modifies this
      ensures session == Open
    {
      if session == NoSession || session == Closed {
        session := Open;
      }
    }

    /** `_close_session`: closes an open session but keeps holding it. */
    method CloseSession()
      modifies this
      ensures old(session) == Open ==> session == Closed
      ensures old(session) != Open ==> session == old(session)
    {
      if session == Open {
        session := Closed;
      }
    }

    /** `_request`: opens the session if needed, then sends the request. */
    method Request(verb: string, endpoint: string, data: Option<Json>, params: Option<map<string, Json>>,
                   auth: LegacyAuth, first: Exchange, second: Exchange)
      returns (r: Result<Json>, sent: seq<HttpRequest>, refreshes: nat)
      modifies this
      ensures session == Open
      ensures LegacyOutcome(r, sent, refreshes) == RequestSpec(baseUrl, verb, endpoint, data, params, auth, first, second)
    {
      EnsureSession();
      r, sent, refreshes := RunRequest(baseUrl, verb, endpoint, data, params, auth, first, second);
    }

    /** `get_quote_details` */
    method GetQuoteDetails(quoteId: string, dealerAccountNo: Option<string>, poNumber: Option<string>,
                           auth: LegacyAuth, first: Exchange, second: Exchange)
      returns (r: Result<Json>, sent: seq<HttpRequest>)
      modifies this
      ensures session == Open
      ensures var o := RequestSpec(baseUrl, "GET", DetailsEndpoint(quoteId), None,
                                   DetailsParams(dealerAccountNo, poNumber), auth, first, second);
              r == o.result && sent == o.sent
    {
      var refreshes;
      r, sent, refreshes := Request("GET", DetailsEndpoint(quoteId), None, DetailsParams(dealerAccountNo, poNumber),
                                    auth, first, second);
    }

    /** `list_quotes` */
    method ListQuotes(filters: seq<(string, string)>, auth: LegacyAuth, first: Exchange, second: Exchange)
      returns (r: Result<Json>, sent: seq<HttpRequest>)
      modifies this
      ensures session == Open
      ensures var o := RequestSpec(baseUrl, "GET", ListEndpoint(filters), None, None, auth, first, second);
              r == NormaliseQuotes(o.result) && sent == o.sent
    {
      var raw, refreshes;
      raw, sent, refreshes := Request("GET", ListEndpoint(filters), None, None, auth, first, second);
      r := NormaliseQuotes(raw);
    }

    /** `get_quote_status` */
    method GetQuoteStatus(quoteId: string, auth: LegacyAuth, first: Exchange, second: Exchange)
      returns (s: StatusOutcome, sent: seq<HttpRequest>)
      modifies this
      ensures session == Open
      ensures var o := RequestSpec(baseUrl, "GET", DetailsEndpoint(quoteId), None, None, auth, first, second);
              s == StatusOf(o.result) && sent == o.sent
    {
      var details;
      details, sent := GetQuoteDetails(quoteId, None, None, auth, first, second);
      s := StatusOf(details);
    }

    /** `health_check`: success of the `health` request, as a boolean; never a failure. */
    method HealthCheck(auth: LegacyAuth, first: Exchange, second: Exchange)
      returns (r: Result<bool>, sent: seq<HttpRequest>)
      modifies this
      ensures session == Open
      ensures var o := RequestSpec(baseUrl, "GET", "health", None, None, auth, first, second);
              r == Success(o.result.Success?) && sent == o.sent
    {
      var res, refreshes;
      res, sent, refreshes := Request("GET", "health", None, None, auth, first, second);
      r := Success(res.Success?);
    }
  }

  /** The refresh branch of `_request`: refresh, new headers, one resend. */
  method Resend(auth: LegacyAuth, request: HttpRequest, second: Exchange)
    returns (r: Result<Json>, sent: seq<HttpRequest>, refreshes: nat)
    ensures LegacyOutcome(r, sent, refreshes) == RetrySpec(auth, request, second)
  {
    refreshes := 1;
    sent := [request];
    if auth.refresh.RefreshRaised? {
      return Failure(RefreshFailed(auth.refresh.text)), sent, refreshes;
    }
    var headers := Headers(auth.refreshedToken);
    if headers.Failure? {
      return Failure(RefreshFailed(headers.error.message)), sent, refreshes;
    }
    var resent := request.(headers := headers.value);
    sent := sent + [resent];
    match second {
      case ClientFailure(_, text) =>
        r := Failure(RefreshFailed(text));
      case OtherFailure(_, text) =>
        r := Failure(RefreshFailed(text));
      case Response(status, body, decoded) =>
        r := ResentResult(status, body, decoded);
    }
  }
}
