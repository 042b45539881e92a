/**
 * The Maintain Quote API client (`JDMaintainQuoteApiClient`): its session
 * field, its authentication headers, the two-attempt request engine with one
 * token refresh after a first 401, the query-parameter builders of the list
 * endpoints, and the health check that counts a 404 as healthy.
 *
 * The HTTP layer is not modelled: the answers to the first and the second
 * send are inputs, and every request the engine sends is returned.
 */
module MaintainQuoteClient {
  import opened Options
  import opened Text
  import opened JsonValues
  import opened Errors
  import opened Http

  const DefaultBaseUrl: string := "https://jdquote2-api.deere.com"

  /** How much of a response body an error record keeps. */
  const ExcerptLength: nat := 500

  const DetailsEndpointPrefix: string := "/om/maintainquote/api/v1/quotes/"
  const HealthCheckQuoteId: string := "HEALTHCHECK_TEST_QUOTE"

  /**
   * The credential provider during one request, as `_get_headers` reads it
   * on each attempt: whether it is operational and what `get_access_token`
   * answers on the first attempt, and the same two answers on the second
   * attempt, after `refresh_token` ran.
   */
  datatype AuthManager = AuthManager(
    operational: bool,
    firstToken: Result<string>,
    refreshedOperational: bool,
    refreshedToken: Result<string>)

  const NotOperational: ErrorContext :=
    ErrorContext("AUTH_MANAGER_NOT_OPERATIONAL", "JD Auth Manager not configured or not operational.",
                 Critical, Authentication, map[])

  const HealthNotOperational: ErrorContext :=
    ErrorContext("HEALTH_CHECK_NOT_OPERATIONAL",
                 "JDMaintainQuoteApiClient is not operational (auth manager issue or configuration).",
                 Medium, System, map[])

  /** `_get_headers`: fails when the provider is down or has no token. */
  function Headers(operational: bool, token: Result<string>): (r: Result<map<string, string>>)
    ensures r.Success? <==> operational && token.Success?
    ensures !operational ==> r == Failure(NotOperational)
    ensures operational && token.Failure? ==> r == Failure(token.error)
    ensures r.Success? ==> r.value.Keys == {"Authorization", "Accept"}
                           && r.value["Authorization"] == "Bearer " + token.value
                           && r.value["Accept"] == "application/json"
  {
    if !operational then Failure(NotOperational)
    else if token.Failure? then Failure(token.error)
    else Success(map["Authorization" := "Bearer " + token.value, "Accept" := "application/json"])
  }

  /** The verbs whose requests carry `json=data`. */
  predicate CarriesBody(verb: string)
  {
    Upper(verb) in {"POST", "PUT", "PATCH"}
  }

  /** The first 500 characters of a response body. */
  function Excerpt(body: string): (r: string)
    ensures |r| <= ExcerptLength && r <= body
    ensures |body| <= ExcerptLength ==> r == body
  {
    if |body| <= ExcerptLength then body else body[..ExcerptLength]
  }

  function ApiError(status: nat, body: string, url: string, verb: string): ErrorContext
  {
    ErrorContext("API_ERROR_" + NatToString(status), "API Error: " + NatToString(status), High, Network,
                 map["url" := JStr(url), "method" := JStr(verb), "status" := JNum(status),
                     "response" := JStr(Excerpt(body))])
  }

  function DecodeFailure(body: string, url: string, verb: string): ErrorContext
  {
    ErrorContext("JSON_DECODE_ERROR", "Failed to decode JSON response", High, Network,
                 map["url" := JStr(url), "method" := JStr(verb), "response" := JStr(Excerpt(body))])
  }

  function TransportFailure(errorType: string, text: string, url: string, verb: string): ErrorContext
  {
    ErrorContext("AIOHTTP_CLIENT_ERROR", "Network or HTTP error: " + text, High, Network,
                 map["url" := JStr(url), "method" := JStr(verb), "error_type" := JStr(errorType),
                     "original_error" := JStr(text)])
  }

  function UnexpectedFailure(errorType: string, text: string, url: string, verb: string): ErrorContext
  {
    ErrorContext("UNEXPECTED_CLIENT_ERROR", "An unexpected error occurred: " + text, Critical, System,
                 map["url" := JStr(url), "method" := JStr(verb), "error_type" := JStr(errorType)])
  }

  function TokenRefreshFailure(url: string, verb: string): ErrorContext
  {
    ErrorContext("TOKEN_REFRESH_FAILURE", "Request failed after token refresh attempt.", High, Authentication,
                 map["url" := JStr(url), "method" := JStr(verb)])
  }

  /** What one pass of the attempt loop decides after its send. */
  datatype Step = Done(result: Result<Json>) | RefreshAndRetry

  /** One pass: its decision and the requests it sent (none, or one). */
  datatype AttemptOutcome = AttemptOutcome(step: Step, sent: seq<HttpRequest>)

  /** A whole call of `_request`: its result, every request sent, and how often the token was refreshed. */
  datatype Outcome = Outcome(result: Result<Json>, sent: seq<HttpRequest>, refreshes: nat)

  /** The request `_request` sends: params only when non-empty, a body only for POST/PUT/PATCH. */
  function BuildRequest(verb: string, url: string, headers: map<string, string>,
                        data: Option<Json>, params: Option<map<string, Json>>): (r: HttpRequest)
    ensures r.verb == verb && r.url == url && r.headers == headers
    ensures r.params.Some? <==> params.Some? && |params.value| > 0
    ensures r.params.Some? ==> r.params == params
    ensures r.payload.JsonPayload? <==> Upper(verb) in {"POST", "PUT", "PATCH"}
    ensures r.payload.JsonPayload? ==> r.payload.data == data
  {
    HttpRequest(verb, url, headers,
                if params.Some? && |params.value| > 0 then params else None,
                if CarriesBody(verb) then JsonPayload(data) else NoPayload)
  }

  /** How one pass reads the answer to its send. */
  function Classify(attempt: nat, verb: string, url: string, answer: Exchange): (r: Step)
    ensures r.RefreshAndRetry? <==> attempt == 0 && answer.Response? && answer.status == 401
    ensures r.Done? && r.result.Success? ==> answer.Response? && answer.status < 400
    ensures answer.Response? && answer.status >= 400 && r.Done? ==> r.result == Failure(ApiError(answer.status, answer.body, url, verb))
    ensures answer.ClientFailure? ==> r.Done? && r.result.Failure? && r.result.error.code == "AIOHTTP_CLIENT_ERROR"
    ensures answer.OtherFailure? ==> r.Done? && r.result.Failure? && r.result.error.code == "UNEXPECTED_CLIENT_ERROR"
  {
    match answer
    case ClientFailure(errorType, text) => Done(Failure(TransportFailure(errorType, text, url, verb)))
    case OtherFailure(errorType, text) => Done(Failure(UnexpectedFailure(errorType, text, url, verb)))
    case Response(status, body, decoded) =>
      if status == 401 && attempt == 0 then RefreshAndRetry
      else if status >= 400 then Done(Failure(ApiError(status, body, url, verb)))
      else if body == "" then Done(Success(JNull))
      else match decoded
        case Decoded(v) => Done(Success(v))
        case DecodeError(_) => Done(Failure(DecodeFailure(body, url, verb)))
  }

  /** One pass of the attempt loop: headers, then one send, then its classification. */
  function Attempt(attempt: nat, verb: string, url: string, data: Option<Json>,
                   params: Option<map<string, Json>>, operational: bool, token: Result<string>,
                   answer: Exchange): (r: AttemptOutcome)
    ensures |r.sent| <= 1
    ensures |r.sent| == 1 <==> operational && token.Success?
    ensures |r.sent| == 0 ==> r.step.Done? && r.step.result.Failure?
                              && r.step.result.error == (if !operational then NotOperational else token.error)
    ensures |r.sent| == 1 ==> "Authorization" in r.sent[0].headers
                              && r.sent[0].headers["Authorization"] == "Bearer " + token.value
  {
    match Headers(operational, token)
    case Failure(e) => AttemptOutcome(Done(Failure(e)), [])
    case Success(h) => AttemptOutcome(Classify(attempt, verb, url, answer), [BuildRequest(verb, url, h, data, params)])
  }

  /**
   * `_request` as a state machine over two attempts. The last branch is the
   * source's post-loop `TOKEN_REFRESH_FAILURE` return; `SecondAttemptFinishes`
   * shows it is never taken.
   */
  function RequestSpec(baseUrl: string, verb: string, endpoint: string, data: Option<Json>,
                       params: Option<map<string, Json>>, auth: AuthManager,
                       first: Exchange, second: Exchange): (r: Outcome)
    ensures r.refreshes <= 1 && |r.sent| <= r.refreshes + 1
  {
    var url := baseUrl + endpoint;
    var a0 := Attempt(0, verb, url, data, params, auth.operational, auth.firstToken, first);
    if a0.step.Done? then Outcome(a0.step.result, a0.sent, 0)
    else
      var a1 := Attempt(1, verb, url, data, params, auth.refreshedOperational, auth.refreshedToken, second);
      if a1.step.Done? then Outcome(a1.step.result, a0.sent + a1.sent, 1)
      else Outcome(Failure(TokenRefreshFailure(url, verb)), a0.sent + a1.sent, 1)
  }

  /** The retry pass never asks for another retry, so every call returns from inside the loop. */
  lemma SecondAttemptFinishes(verb: string, url: string, data: Option<Json>, params: Option<map<string, Json>>,
                              operational: bool, token: Result<string>, answer: Exchange)
    ensures Attempt(1, verb, url, data, params, operational, token, answer).step.Done?
  {
  }

  /** `TOKEN_REFRESH_FAILURE` is never produced by the engine itself. */
  lemma NoTokenRefreshFailure(baseUrl: string, verb: string, endpoint: string, data: Option<Json>,
                              params: Option<map<string, Json>>, auth: AuthManager,
                              first: Exchange, second: Exchange)
    ensures var o := RequestSpec(baseUrl, verb, endpoint, data, params, auth, first, second);
            o.result != Failure(TokenRefreshFailure(baseUrl + endpoint, verb))
            || (auth.refreshedToken.Failure? && auth.refreshedToken.error == TokenRefreshFailure(baseUrl + endpoint, verb))
            || (auth.firstToken.Failure? && auth.firstToken.error == TokenRefreshFailure(baseUrl + endpoint, verb))
  {
    var url := baseUrl + endpoint;
    SecondAttemptFinishes(verb, url, data, params, auth.refreshedOperational, auth.refreshedToken, second);
    ClassifyNotTokenRefresh(0, verb, url, first);
    ClassifyNotTokenRefresh(1, verb, url, second);
  }

  /** No answer to a send is read as `TOKEN_REFRESH_FAILURE`. */
  lemma ClassifyNotTokenRefresh(attempt: nat, verb: string, url: string, answer: Exchange)
    ensures var s := Classify(attempt, verb, url, answer);
            s.Done? ==> s.result != Failure(TokenRefreshFailure(url, verb))
  {
    var s := Classify(attempt, verb, url, answer);
    if answer.Response? && answer.status >= 400 && s.Done? {
      var code := ApiError(answer.status, answer.body, url, verb).code;
      assert code[..4] == "API_";
    }
  }

  /** A provider that is not operational fails the call before anything is sent. */
  lemma NotOperationalSendsNothing(baseUrl: string, verb: string, endpoint: string, data: Option<Json>,
                                   params: Option<map<string, Json>>, auth: AuthManager,
                                   first: Exchange, second: Exchange)
    requires !auth.operational
    ensures RequestSpec(baseUrl, verb, endpoint, data, params, auth, first, second)
            == Outcome(Failure(NotOperational), [], 0)
    ensures NotOperational.code == "AUTH_MANAGER_NOT_OPERATIONAL" && NotOperational.category == Authentication
  {
  }

  /** A failing `get_access_token` is returned as is, and nothing is sent. */
  lemma TokenFailurePassesThrough(baseUrl: string, verb: string, endpoint: string, data: Option<Json>,
                                  params: Option<map<string, Json>>, auth: AuthManager,
                                  first: Exchange, second: Exchange)
    requires auth.operational && auth.firstToken.Failure?
    ensures RequestSpec(baseUrl, verb, endpoint, data, params, auth, first, second)
            == Outcome(Failure(auth.firstToken.error), [], 0)
  {
  }

  /**
   * At most two sends and one refresh; the refresh happens exactly when the
   * first send was answered with 401, and the retry is sent exactly when the
   * provider is still operational and hands out a token after the refresh.
   */
  lemma SendAndRefreshBounds(baseUrl: string, verb: string, endpoint: string, data: Option<Json>,
                             params: Option<map<string, Json>>, auth: AuthManager,
                             first: Exchange, second: Exchange)
    ensures var o := RequestSpec(baseUrl, verb, endpoint, data, params, auth, first, second);
            |o.sent| <= 2 && o.refreshes <= 1
            && (o.refreshes == 1 <==> auth.operational && auth.firstToken.Success? && first.Response? && first.status == 401)
            && (|o.sent| == 2 <==> o.refreshes == 1 && auth.refreshedOperational && auth.refreshedToken.Success?)
            && (o.refreshes == 0 ==> |o.sent| == (if auth.operational && auth.firstToken.Success? then 1 else 0))
  {
  }

  /** A 401 on the retry is an ordinary API error. */
  lemma SecondUnauthorizedIsApiError(baseUrl: string, verb: string, endpoint: string, data: Option<Json>,
                                     params: Option<map<string, Json>>, auth: AuthManager,
                                     first: Exchange, second: Exchange)
    requires auth.operational && auth.firstToken.Success? && auth.refreshedOperational && auth.refreshedToken.Success?
    requires first.Response? && first.status == 401 && second.Response? && second.status == 401
    ensures var o := RequestSpec(baseUrl, verb, endpoint, data, params, auth, first, second);
            o.result.Failure? && o.result.error.code == "API_ERROR_401"
            && o.result.error.message == "API Error: 401" && |o.sent| == 2 && o.refreshes == 1
  {
    assert NatToString(401) == "401" by {
      assert NatToString(40) == "40" by { assert NatToString(4) == "4"; }
    }
  }

  /**
   * A provider that stops being operational during the refresh fails the
   * retry with `AUTH_MANAGER_NOT_OPERATIONAL`, after one send and one refresh.
   */
  lemma RetryNotOperational(baseUrl: string, verb: string, endpoint: string, data: Option<Json>,
                            params: Option<map<string, Json>>, auth: AuthManager,
                            first: Exchange, second: Exchange)
    requires auth.operational && auth.firstToken.Success? && !auth.refreshedOperational
    requires first.Response? && first.status == 401
    ensures var o := RequestSpec(baseUrl, verb, endpoint, data, params, auth, first, second);
            o.result == Failure(NotOperational) && |o.sent| == 1 && o.refreshes == 1
  {
  }

  /** The answer that decides a call: the first one, or the second after a first 401. */
  function DecidingAnswer(auth: AuthManager, first: Exchange, second: Exchange): Exchange
  {
    if first.Response? && first.status == 401 then second else first
  }

  /**
   * An error status (other than a first 401) becomes `API_ERROR_<status>`
   * in category NETWORK, carrying the status and at most 500 characters
   * from the start of the body.
   */
  lemma ErrorStatusIsApiError(baseUrl: string, verb: string, endpoint: string, data: Option<Json>,
                              params: Option<map<string, Json>>, auth: AuthManager,
                              first: Exchange, second: Exchange)
    requires auth.operational && auth.firstToken.Success?
    requires first.Response? && first.status == 401 ==> auth.refreshedOperational && auth.refreshedToken.Success?
    requires var d := DecidingAnswer(auth, first, second); d.Response? && d.status >= 400
    ensures var d := DecidingAnswer(auth, first, second);
            var e := RequestSpec(baseUrl, verb, endpoint, data, params, auth, first, second).result.error;
            RequestSpec(baseUrl, verb, endpoint, data, params, auth, first, second).result.Failure?
            && e.code == "API_ERROR_" + NatToString(d.status)
            && e.category == Network && e.severity == High
            && e.details["status"] == JNum(d.status)
            && e.details["response"].JStr?
            && |e.details["response"].s| <= ExcerptLength && e.details["response"].s <= d.body
  {
  }

  /**
   * Below 400: an empty body is `None`, otherwise the decoded JSON, or
   * `JSON_DECODE_ERROR` with at most 500 characters of the body.
   */
  lemma SuccessStatusOutcome(baseUrl: string, verb: string, endpoint: string, data: Option<Json>,
                             params: Option<map<string, Json>>, auth: AuthManager,
                             first: Exchange, second: Exchange)
    requires auth.operational && auth.firstToken.Success?
    requires first.Response? && first.status == 401 ==> auth.refreshedOperational && auth.refreshedToken.Success?
    requires var d := DecidingAnswer(auth, first, second); d.Response? && d.status < 400
    ensures var d := DecidingAnswer(auth, first, second);
            var r := RequestSpec(baseUrl, verb, endpoint, data, params, auth, first, second).result;
            (d.body == "" ==> r == Success(JNull))
            && (d.body != "" && d.decoded.Decoded? ==> r == Success(d.decoded.value))
            && (d.body != "" && d.decoded.DecodeError? ==>
                  r.Failure? && r.error.code == "JSON_DECODE_ERROR"
                  && r.error.details["response"] == JStr(Excerpt(d.body)))
  {
  }

  /** What a request sent by one pass looks like. */
  predicate WellShaped(q: HttpRequest, verb: string, url: string, data: Option<Json>, params: Option<map<string, Json>>)
  {
    q.url == url && q.verb == verb
    && (q.params.Some? <==> params.Some? && |params.value| > 0)
    && (q.params.Some? ==> q.params == params)
    && (q.payload == if CarriesBody(verb) then JsonPayload(data) else NoPayload)
    && "Authorization" in q.headers
  }

  lemma AttemptShape(attempt: nat, verb: string, url: string, data: Option<Json>,
                     params: Option<map<string, Json>>, operational: bool, token: Result<string>,
                     answer: Exchange)
    ensures var a := Attempt(attempt, verb, url, data, params, operational, token, answer);
            |a.sent| <= 1 && forall q :: q in a.sent ==> WellShaped(q, verb, url, data, params)
  {
  }

  /**
   * Every request sent goes to base URL + endpoint with the current token,
   * carries params only when they are non-empty and a body only for
   * POST/PUT/PATCH.
   */
  lemma RequestShape(baseUrl: string, verb: string, endpoint: string, data: Option<Json>,
                     params: Option<map<string, Json>>, auth: AuthManager,
                     first: Exchange, second: Exchange)
    ensures var o := RequestSpec(baseUrl, verb, endpoint, data, params, auth, first, second);
            forall q :: q in o.sent ==> WellShaped(q, verb, baseUrl + endpoint, data, params)
  {
    var url := baseUrl + endpoint;
    AttemptShape(0, verb, url, data, params, auth.operational, auth.firstToken, first);
    AttemptShape(1, verb, url, data, params, auth.refreshedOperational, auth.refreshedToken, second);
  }

  /** Python's truthiness of an optional string filter. */
  predicate Given(s: Option<string>)
  {
    s.Some? && s.value != ""
  }

  /** `health_check`'s reading of the details call: success or a 404 is healthy. */
  function HealthVerdict(res: Result<Json>): (r: Result<bool>)
    ensures r == Success(true) <==>
            res.Success? || ("status" in res.error.details && res.error.details["status"] == JNum(404))
    ensures r.Success? ==> r.value
    ensures r.Failure? ==> r.error.code == "HEALTH_CHECK_API_FAILURE" && r.error.category == Network
                           && r.error.details == ContextFields(res.error)
  {
    match res
    case Success(_) => Success(true)
    case Failure(e) =>
      if |e.details| > 0 && Get(e.details, "status", JNull) == JNum(404) then Success(true)
      else Failure(ErrorContext("HEALTH_CHECK_API_FAILURE", "JD Maintain Quote API health check failed.",
                                Medium, Network, ContextFields(e)))
  }

  function DetailsEndpoint(quoteId: string): string
  {
    DetailsEndpointPrefix + quoteId + "/maintain-quote-details"
  }

  /**
   * `get_quotes`'s params: `dealerId` always, each string filter only when
   * non-empty, `start` and `count` whenever given (so 0 is kept).
   */
  function QuotesParams(dealerId: string, status: Option<string>, start: Option<int>, count: Option<int>,
                        lastModifiedDate: Option<string>, quoteType: Option<string>)
    : (params: map<string, Json>)
    ensures params.Keys <= {"dealerId", "status", "start", "count", "lastModifiedDate", "quoteType"}
    ensures "dealerId" in params && params["dealerId"] == JStr(dealerId)
    ensures ("status" in params <==> Given(status)) && (Given(status) ==> params["status"] == JStr(status.value))
    ensures ("start" in params <==> start.Some?) && (start.Some? ==> params["start"] == JNum(start.value))
    ensures ("count" in params <==> count.Some?) && (count.Some? ==> params["count"] == JNum(count.value))
    ensures ("lastModifiedDate" in params <==> Given(lastModifiedDate))
            && (Given(lastModifiedDate) ==> params["lastModifiedDate"] == JStr(lastModifiedDate.value))
    ensures ("quoteType" in params <==> Given(quoteType))
            && (Given(quoteType) ==> params["quoteType"] == JStr(quoteType.value))
  {
    var p0 := map["dealerId" := JStr(dealerId)];
    var p1 := if Given(status) then p0["status" := JStr(status.value)] else p0;
    var p2 := if start.Some? then p1["start" := JNum(start.value)] else p1;
    var p3 := if count.Some? then p2["count" := JNum(count.value)] else p2;
    var p4 := if Given(lastModifiedDate) then p3["lastModifiedDate" := JStr(lastModifiedDate.value)] else p3;
    if Given(quoteType) then p4["quoteType" := JStr(quoteType.value)] else p4
  }

  /** `get_master_quotes`'s params, built the same way with `masterQuoteType` in place of `quoteType`. */
  function MasterQuotesParams(dealerId: string, masterQuoteType: Option<string>, status: Option<string>,
                              start: Option<int>, count: Option<int>, lastModifiedDate: Option<string>)
    : (params: map<string, Json>)
    ensures params.Keys <= {"dealerId", "masterQuoteType", "status", "start", "count", "lastModifiedDate"}
    ensures "dealerId" in params && params["dealerId"] == JStr(dealerId)
    ensures ("masterQuoteType" in params <==> Given(masterQuoteType))
            && (Given(masterQuoteType) ==> params["masterQuoteType"] == JStr(masterQuoteType.value))
    ensures ("status" in params <==> Given(status)) && (Given(status) ==> params["status"] == JStr(status.value))
    ensures ("start" in params <==> start.Some?) && (start.Some? ==> params["start"] == JNum(start.value))
    ensures ("count" in params <==> count.Some?) && (count.Some? ==> params["count"] == JNum(count.value))
    ensures ("lastModifiedDate" in params <==> Given(lastModifiedDate))
            && (Given(lastModifiedDate) ==> params["lastModifiedDate"] == JStr(lastModifiedDate.value))
  {
    var p0 := map["dealerId" := JStr(dealerId)];
    var p1 := if Given(masterQuoteType) then p0["masterQuoteType" := JStr(masterQuoteType.value)] else p0;
    var p2 := if Given(status) then p1["status" := JStr(status.value)] else p1;
    var p3 := if start.Some? then p2["start" := JNum(start.value)] else p2;
    var p4 := if count.Some? then p3["count" := JNum(count.value)] else p3;
    if Given(lastModifiedDate) then p4["lastModifiedDate" := JStr(lastModifiedDate.value)] else p4
  }

  /**
   * The body of `_request`'s attempt loop: headers, the request keywords,
   * one send, and what its answer means.
   */
  method AttemptOnce(attempt: nat, verb: string, url: string, data: Option<Json>,
                     params: Option<map<string, Json>>, operational: bool, token: Result<string>,
                     answer: Exchange)
    returns (step: Step, sent: seq<HttpRequest>)
    ensures AttemptOutcome(step, sent) == Attempt(attempt, verb, url, data, params, operational, token, answer)
  {
    var headers := Headers(operational, token);
    if headers.Failure? {
      return Done(Failure(headers.error)), [];
    }
    var requestParams: Option<map<string, Json>> := None;
    if params.Some? && |params.value| > 0 {
      requestParams := params;
    }
    var payload := NoPayload;
    if CarriesBody(verb) {
      payload := JsonPayload(data);
    }
    sent := [HttpRequest(verb, url, headers.value, requestParams, payload)];
    match answer {
      case ClientFailure(errorType, text) =>
        step := Done(Failure(TransportFailure(errorType, text, url, verb)));
      case OtherFailure(errorType, text) =>
        step := Done(Failure(UnexpectedFailure(errorType, text, url, verb)));
      case Response(status, body, decoded) =>
        if status == 401 && attempt == 0 {
          step := RefreshAndRetry;
        } else if status >= 400 {
          step := Done(Failure(ApiError(status, body, url, verb)));
        } else if body == "" {
          step := Done(Success(JNull));
        } else {
          match decoded {
            case Decoded(v) =>
              step := Done(Success(v));
            case DecodeError(_) =>
              step := Done(Failure(DecodeFailure(body, url, verb)));
          }
        }
    }
  }
  /**
   * What the attempt loop still returns from pass `attempt` on, having sent
   * `sent` and refreshed `refreshes` times so far.
   */
  function LoopFrom(attempt: nat, verb: string, url: string, data: Option<Json>,
                    params: Option<map<string, Json>>, auth: AuthManager, first: Exchange, second: Exchange,
                    sent: seq<HttpRequest>, refreshes: nat): Outcome
    requires attempt <= 2
    decreases 2 - attempt
  {
    if attempt == 2 then Outcome(Failure(TokenRefreshFailure(url, verb)), sent, refreshes)
    else
      var a := Attempt(attempt, verb, url, data, params,
                       if attempt == 0 then auth.operational else auth.refreshedOperational,
                       if attempt == 0 then auth.firstToken else auth.refreshedToken,
                       if attempt == 0 then first else second);
      if a.step.Done? then Outcome(a.step.result, sent + a.sent, refreshes)
      else LoopFrom(attempt + 1, verb, url, data, params, auth, first, second, sent + a.sent, refreshes + 1)
  }

  /** Run from the first pass, the loop gives `RequestSpec`. */
  lemma LoopFromStart(baseUrl: string, verb: string, endpoint: string, data: Option<Json>,
                      params: Option<map<string, Json>>, auth: AuthManager, first: Exchange, second: Exchange)
    ensures LoopFrom(0, verb, baseUrl + endpoint, data, params, auth, first, second, [], 0)
            == RequestSpec(baseUrl, verb, endpoint, data, params, auth, first, second)
  {
    var url := baseUrl + endpoint;
    var a0 := Attempt(0, verb, url, data, params, auth.operational, auth.firstToken, first);
    assert [] + a0.sent == a0.sent;
    SecondAttemptFinishes(verb, url, data, params, auth.refreshedOperational, auth.refreshedToken, second);
  }

  /** The `for attempt in range(2)` loop of `_request`. */
  method AttemptLoop(verb: string, url: string, data: Option<Json>,
                     params: Option<map<string, Json>>, auth: AuthManager, first: Exchange, second: Exchange)
    returns (r: Result<Json>, sent: seq<HttpRequest>, refreshes: nat)
    ensures Outcome(r, sent, refreshes) == LoopFrom(0, verb, url, data, params, auth, first, second, [], 0)
  {
    sent, refreshes := [], 0;
    for attempt := 0 to 2
      invariant LoopFrom(attempt, verb, url, data, params, auth, first, second, sent, refreshes)
                == LoopFrom(0, verb, url, data, params, auth, first, second, [], 0)
    {
      var operational := if attempt == 0 then auth.operational else auth.refreshedOperational;
      var token := if attempt == 0 then auth.firstToken else auth.refreshedToken;
      var answer := if attempt == 0 then first else second;
      var step, sentNow := AttemptOnce(attempt, verb, url, data, params, operational, token, answer);
      sent := sent + sentNow;
      if step.RefreshAndRetry? {
        refreshes := refreshes + 1;
        continue;
      }
      r := step.result;
      return;
    }
    r := Failure(TokenRefreshFailure(url, verb));
  }

  /** `_request`'s attempt loop, proved to follow the state machine `RequestSpec`. */
  method RunAttempts(baseUrl: string, verb: string, endpoint: string, data: Option<Json>,
                     params: Option<map<string, Json>>, auth: AuthManager, first: Exchange, second: Exchange)
    returns (r: Result<Json>, sent: seq<HttpRequest>, refreshes: nat)
    ensures Outcome(r, sent, refreshes) == RequestSpec(baseUrl, verb, endpoint, data, params, auth, first, second)
  {
    r, sent, refreshes := AttemptLoop(verb, baseUrl + endpoint, data, params, auth, first, second);
    LoopFromStart(baseUrl, verb, endpoint, data, params, auth, first, second);
  }


  class MaintainQuoteApiClient {
    /** The configured base URL with trailing '/' removed. */
    const baseUrl: string
    var session: SessionState
    /** How many `ClientSession`s this client has created. */
    var sessionsOpened: nat

    constructor (configuredBaseUrl: Option<string>)
      ensures baseUrl == RStripChar(configuredBaseUrl.GetOr(DefaultBaseUrl), '/')
      ensures |baseUrl| == 0 || baseUrl[|baseUrl| - 1] != '/'
      ensures session == NoSession && sessionsOpened == 0
    {
      baseUrl := RStripChar(configuredBaseUrl.GetOr(DefaultBaseUrl), '/');
      session := NoSession;
      sessionsOpened := 0;
    }

    /** `_ensure_session`: keeps an open session, creates one otherwise. */
    method EnsureSession()
      modifies this
      ensures session == Open
      ensures sessionsOpened == if old(session) == Open then old(sessionsOpened) else old(sessionsOpened) + 1
    {
      if session != Open {
        session := Open;
        sessionsOpened := sessionsOpened + 1;
      }
    }

    /** `_close_session` (also what `close` does): an open session is closed and dropped. */
    method CloseSession()
      modifies this
      ensures old(session) == Open ==> session == NoSession
      ensures old(session) != Open ==> session == old(session)
      ensures sessionsOpened == old(sessionsOpened)
    {
      if session == Open {
        session := NoSession;
      }
    }

    /** `_request`: opens the session if needed, then runs the attempt loop. */
    method Request(verb: string, endpoint: string, data: Option<Json>, params: Option<map<string, Json>>,
                   auth: AuthManager, first: Exchange, second: Exchange)
      returns (r: Result<Json>, sent: seq<HttpRequest>, refreshes: nat)
      modifies this
      ensures session == Open
      ensures sessionsOpened == if old(session) == Open then old(sessionsOpened) else old(sessionsOpened) + 1
      ensures Outcome(r, sent, refreshes) == RequestSpec(baseUrl, verb, endpoint, data, params, auth, first, second)
    {
      EnsureSession();
      r, sent, refreshes := RunAttempts(baseUrl, verb, endpoint, data, params, auth, first, second);
    }

    /** `get_maintain_quote_details` */
    method GetMaintainQuoteDetails(quoteId: string, auth: AuthManager, first: Exchange, second: Exchange)
      returns (r: Result<Json>, sent: seq<HttpRequest>, refreshes: nat)
      modifies this
      ensures session == Open
      ensures sessionsOpened == if old(session) == Open then old(sessionsOpened) else old(sessionsOpened) + 1
      ensures Outcome(r, sent, refreshes)
              == RequestSpec(baseUrl, "GET", DetailsEndpoint(quoteId), None, None, auth, first, second)
    {
      r, sent, refreshes := Request("GET", DetailsEndpoint(quoteId), None, None, auth, first, second);
    }

    /** `get_quotes` */
    method GetQuotes(dealerId: string, status: Option<string>, start: Option<int>, count: Option<int>,
                     lastModifiedDate: Option<string>, quoteType: Option<string>,
                     auth: AuthManager, first: Exchange, second: Exchange)
      returns (r: Result<Json>, sent: seq<HttpRequest>, refreshes: nat)
      modifies this
      ensures session == Open
      ensures sessionsOpened == if old(session) == Open then old(sessionsOpened) else old(sessionsOpened) + 1
      ensures Outcome(r, sent, refreshes)
              == RequestSpec(baseUrl, "GET", "/om/maintainquote/api/v1/quotes", None,
                             Some(QuotesParams(dealerId, status, start, count, lastModifiedDate, quoteType)),
                             auth, first, second)
    {
      var params := QuotesParams(dealerId, status, start, count, lastModifiedDate, quoteType);
      r, sent, refreshes := Request("GET", "/om/maintainquote/api/v1/quotes", None, Some(params), auth, first, second);
    }

    /** `get_master_quotes` */
    method GetMasterQuotes(dealerId: string, masterQuoteType: Option<string>, status: Option<string>,
                           start: Option<int>, count: Option<int>, lastModifiedDate: Option<string>,
                           auth: AuthManager, first: Exchange, second: Exchange)
      returns (r: Result<Json>, sent: seq<HttpRequest>, refreshes: nat)
      modifies this
      ensures session == Open
      ensures sessionsOpened == if old(session) == Open then old(sessionsOpened) else old(sessionsOpened) + 1
      ensures Outcome(r, sent, refreshes)
              == RequestSpec(baseUrl, "GET", "/om/maintainquote/api/v1/master-quotes", None,
                             Some(MasterQuotesParams(dealerId, masterQuoteType, status, start, count, lastModifiedDate)),
                             auth, first, second)
    {
      var params := MasterQuotesParams(dealerId, masterQuoteType, status, start, count, lastModifiedDate);
      r, sent, refreshes := Request("GET", "/om/maintainquote/api/v1/master-quotes", None, Some(params), auth, first, second);
    }

    /**
     * `health_check`: fails without sending when the provider is down;
     * otherwise asks for a test quote's details and reads the answer with
     * `HealthVerdict`.
     */
    method HealthCheck(auth: AuthManager, first: Exchange, second: Exchange)
      returns (r: Result<bool>, sent: seq<HttpRequest>)
      modifies this
      ensures !auth.operational ==> r == Failure(HealthNotOperational) && sent == []
                                    && session == old(session) && sessionsOpened == old(sessionsOpened)
      ensures auth.operational ==>
                session == Open
                && sessionsOpened == if old(session) == Open then old(sessionsOpened) else old(sessionsOpened) + 1
      ensures auth.operational ==>
                var o := RequestSpec(baseUrl, "GET", DetailsEndpoint(HealthCheckQuoteId), None, None, auth, first, second);
                r == HealthVerdict(o.result) && sent == o.sent
    {
      if !auth.operational {
        return Failure(HealthNotOperational), [];
      }
      var details, refreshes;
      details, sent, refreshes := GetMaintainQuoteDetails(HealthCheckQuoteId, auth, first, second);
      r := HealthVerdict(details);
    }
  }
}
