# BRIDeal: a verified model of the quote clients, the recent-deals log, the deal form, the chart widget and the dashboard

BRIDeal is a desktop application for a farm-equipment dealership. Its sales
staff build deals on the "New Deal" form. That form logs the deal to a
SharePoint Excel sheet and writes it into a local "recent deals" log. A
dashboard shows the weather for four towns, the USD-CAD rate and the BTC
price, each with a trend chart. Two HTTP clients talk to John Deere's quote
services.

This project models in Dafny the parts of that code that make decisions, and
proves what they promise:

- **The Maintain Quote client** (`JDMaintainQuoteApiClient`, module
  `MaintainQuoteClient`).
  - Its request engine makes at most two attempts, refreshing the token once
    after a first 401.
  - Its errors follow a fixed scheme: `API_ERROR_<status>`, bodies cut to 500
    characters, `JSON_DECODE_ERROR`, transport and unexpected errors.
  - It fails before sending anything when the credentials are not ready.
  - Also modelled: its session field, the query parameters of the two list
    endpoints, and a health check that counts a 404 as healthy.
- **The older quote client** (`JDQuoteApiClient`, module `LegacyQuoteClient`).
  - One nested resend after a 401.
  - `{}` for an empty body.
  - Header failures are wrapped again.
  - Every failure inside the refresh branch becomes `JD_AUTH_REFRESH_FAILED`.
  - `list_quotes` normalises the response shape.
- **The recent-deals log** (module `RecentDeals`).
  - Which deals count as completed.
  - Loading: completed deals only, newest first, up to a limit, with a 300 s
    cache.
  - The view's filters.
  - The quote-id edit, with its rollback when saving fails.
  - Saving a deal into the log: merge it into an entry with the same stamp, or
    put it at the front and cut the list to the limit.
- **The deal-form helpers** (module `DealForm`).
  - Cleaning numeric text.
  - Case-insensitive header and key lookup.
  - The item path inside a SharePoint library.
  - Record maps built from CSV rows, and the lazy-load flags.
  - The Excel rows of a deal, with consecutive Row IDs.
  - The list of e-mail recipients.
- **The chart widget** (module `ChartWidgets`): what `update_data` and
  `clear_plot` do to the plotted data.
- **The home-page dashboard** (module `Dashboard`).
  - Whether each rate handler plots or clears its chart.
  - The trend arrow.
  - The short error summary on a weather card.
  - How the weather fetch behaves without an API key.
  - The state a new dashboard reaches once `load_module_data` has run its three fetches up to their workers.
  - The display name used for a weather error.

Supporting modules:

- `Options`: the optional value.
- `Text`: Python's `strip`, `lower`, `split`, `join` and `replace` on
  `seq<char>`.
- `JsonValues`: JSON values with Python truthiness.
- `Errors`: the `ErrorContext` record and `Result`.
- `Http`: requests, answers and session state.

**Inputs instead of effects.** Nothing in the model performs I/O:

- Each answer of the HTTP layer is given as input: a status, a body and that
  body's JSON decoding, or a raised error.
- The credential provider's answers are inputs.
- So are the log file's contents, the cache's contents, the clock, the
  configuration, the rows the CSV reader produced and the dialog's answer.
- What would be sent or written is returned, so contracts can talk about it.
- Whether drawing a chart raises is a boolean input, `drawFails`.

**Style.** Where the source changes state step by step, the model is
imperative:

- the clients' `_request`;
- the log updates;
- the header and key searches;
- the row loaders;
- the chart widget;
- the dashboard handlers.

Each such method is proved equal to a specification function. Lemmas then
state the properties of that function.

## Model

| member | source | states |
|---|---|---|
| MaintainQuoteClient.Headers | app/services/api_clients/jd_maintain_quote_client.py:51-70 | Headers exist exactly when the provider is operational and has a token. Otherwise the failure is `AUTH_MANAGER_NOT_OPERATIONAL`, or the token's own error. The headers are exactly `Authorization: Bearer <token>` and `Accept: application/json`. |
| MaintainQuoteClient.Excerpt | app/services/api_clients/jd_maintain_quote_client.py:111 | An error record keeps a prefix of the body, at most 500 characters long. It keeps the whole body when that is shorter. |
| MaintainQuoteClient.BuildRequest | app/services/api_clients/jd_maintain_quote_client.py:91-95 | The request keeps the verb, the URL and the headers. It carries params exactly when they are non-empty, and then the given ones. It carries `json=data` exactly when the upper-cased verb is POST, PUT or PATCH. |
| MaintainQuoteClient.Classify | app/services/api_clients/jd_maintain_quote_client.py:98-158 | A retry is asked for exactly on a 401 in the first pass. A success comes only from a status below 400. A status of 400 or more that decides the call is `API_ERROR_<status>`. A transport error is `AIOHTTP_CLIENT_ERROR` and any other raised error is `UNEXPECTED_CLIENT_ERROR`. |
| MaintainQuoteClient.Attempt | app/services/api_clients/jd_maintain_quote_client.py:87-158 | One pass sends at most one request, and sends one exactly when the provider is operational and hands out a token. Without a send the pass fails with `AUTH_MANAGER_NOT_OPERATIONAL` or the token's own error. A sent request carries `Authorization: Bearer <token>`. |
| MaintainQuoteClient.RequestSpec | app/services/api_clients/jd_maintain_quote_client.py:72-168 | The call refreshes the token at most once, and sends at most one request more than it refreshes. Its other properties are the lemmas below. |
| MaintainQuoteClient.SecondAttemptFinishes | app/services/api_clients/jd_maintain_quote_client.py:98-158 | The second pass of the loop always returns: it never asks for another retry. |
| MaintainQuoteClient.NoTokenRefreshFailure | app/services/api_clients/jd_maintain_quote_client.py:160-168 | The engine never produces the post-loop `TOKEN_REFRESH_FAILURE` itself. It appears only if the provider's own error is that record. |
| MaintainQuoteClient.ClassifyNotTokenRefresh | app/services/api_clients/jd_maintain_quote_client.py:98-158 | No answer to a send is read as `TOKEN_REFRESH_FAILURE`: that record comes only from the post-loop return. |
| MaintainQuoteClient.NotOperationalSendsNothing | app/services/api_clients/jd_maintain_quote_client.py:52-59 | A provider that is not operational fails the call with `AUTH_MANAGER_NOT_OPERATIONAL` (category AUTHENTICATION). Nothing is sent and nothing is refreshed. |
| MaintainQuoteClient.TokenFailurePassesThrough | app/services/api_clients/jd_maintain_quote_client.py:61-63 | A failing `get_access_token` is returned unchanged, and nothing is sent. |
| MaintainQuoteClient.SendAndRefreshBounds | app/services/api_clients/jd_maintain_quote_client.py:87-101 | At most two sends and one refresh. The refresh happens exactly when the provider was operational, handed out a token and the first send was answered with 401. A second send follows exactly when, after the refresh, the provider is still operational and hands out a token. Without a refresh there is one send, or none when the headers failed. |
| MaintainQuoteClient.SecondUnauthorizedIsApiError | app/services/api_clients/jd_maintain_quote_client.py:98-114 | A 401 on the retry is `API_ERROR_401`, after two sends and one refresh. |
| MaintainQuoteClient.RetryNotOperational | app/services/api_clients/jd_maintain_quote_client.py:52-59 | A provider that stops being operational during the refresh fails the retry with `AUTH_MANAGER_NOT_OPERATIONAL`, after one send and one refresh. |
| MaintainQuoteClient.ErrorStatusIsApiError | app/services/api_clients/jd_maintain_quote_client.py:105-114 | Any deciding status of 400 or more gives the following. The code is `API_ERROR_<status>`, with category NETWORK and severity HIGH. `details.status` is the status. `details.response` is a prefix of the body of at most 500 characters. |
| MaintainQuoteClient.SuccessStatusOutcome | app/services/api_clients/jd_maintain_quote_client.py:116-130 | Below 400, an empty body gives `Success(None)` and a decodable body gives its JSON value. Any other body gives `JSON_DECODE_ERROR` with the body cut to 500 characters. |
| MaintainQuoteClient.AttemptShape | app/services/api_clients/jd_maintain_quote_client.py:89-97 | One pass sends at most one request, and every request it sends is well shaped. |
| MaintainQuoteClient.RequestShape | app/services/api_clients/jd_maintain_quote_client.py:85-95 | Every request goes to base URL + endpoint and carries an Authorization header. It carries params exactly when they are non-empty, and `json=data` only for POST, PUT and PATCH. |
| MaintainQuoteClient.HealthVerdict | app/services/api_clients/jd_maintain_quote_client.py:326-349 | The verdict is healthy exactly when the details call succeeded or failed with `details.status == 404`. Any other failure gives `HEALTH_CHECK_API_FAILURE` (NETWORK), carrying the original error record as its details. |
| MaintainQuoteClient.QuotesParams | app/services/api_clients/jd_maintain_quote_client.py:289-299 | `dealerId` is always sent. `status`, `lastModifiedDate` and `quoteType` are sent exactly when they are non-empty. `start` and `count` are sent exactly when given, so 0 is kept. No other key is sent. |
| MaintainQuoteClient.MasterQuotesParams | app/services/api_clients/jd_maintain_quote_client.py:263-273 | The same rule for `get_master_quotes`, with `masterQuoteType` in place of `quoteType`. |
| MaintainQuoteClient.AttemptOnce | app/services/api_clients/jd_maintain_quote_client.py:89-158 | The loop body (headers, request keywords, one send, and the reading of its answer) computes the same as one pass of the state machine. |
| MaintainQuoteClient.AttemptLoop | app/services/api_clients/jd_maintain_quote_client.py:87-168 | The `for attempt in range(2)` loop, with its `continue` after a refresh and its post-loop `TOKEN_REFRESH_FAILURE`, returns what `LoopFrom` gives from the first pass with nothing sent. |
| MaintainQuoteClient.LoopFromStart | app/services/api_clients/jd_maintain_quote_client.py:87-168 | Run from the first pass with nothing sent, the loop function gives exactly `RequestSpec`. |
| MaintainQuoteClient.RunAttempts | app/services/api_clients/jd_maintain_quote_client.py:85-168 | The URL is base URL + endpoint, and the attempt loop then returns exactly the result, the sent requests and the refresh count of the state machine `RequestSpec`. |
| MaintainQuoteClient.MaintainQuoteApiClient.constructor | app/services/api_clients/jd_maintain_quote_client.py:21-27 | The base URL is the configured one, or the default, with trailing '/' removed, so it never ends in '/'. There is no session yet. |
| MaintainQuoteClient.MaintainQuoteApiClient.EnsureSession | app/services/api_clients/jd_maintain_quote_client.py:29-32 | Afterwards the session is open. A new one is created only when there was none or it was closed. |
| MaintainQuoteClient.MaintainQuoteApiClient.CloseSession | app/services/api_clients/jd_maintain_quote_client.py:34-38 | An open session is closed and dropped. Otherwise nothing changes. |
| MaintainQuoteClient.MaintainQuoteApiClient.Request | app/services/api_clients/jd_maintain_quote_client.py:72-168 | Afterwards the session is open, and a new one was opened only if there was none. The call returns exactly the result, the sent requests and the refresh count of `RequestSpec`. |
| MaintainQuoteClient.MaintainQuoteApiClient.GetMaintainQuoteDetails | app/services/api_clients/jd_maintain_quote_client.py:197-199 | A GET of the details endpoint for the quote id, with no data and no params. The session is open afterwards, and a new one was opened only if there was none. |
| MaintainQuoteClient.MaintainQuoteApiClient.GetQuotes | app/services/api_clients/jd_maintain_quote_client.py:276-300 | A GET of the quotes endpoint with `QuotesParams`. The session is open afterwards, and a new one was opened only if there was none. |
| MaintainQuoteClient.MaintainQuoteApiClient.GetMasterQuotes | app/services/api_clients/jd_maintain_quote_client.py:250-274 | A GET of the master-quotes endpoint with `MasterQuotesParams`. The session is open afterwards, and a new one was opened only if there was none. |
| MaintainQuoteClient.MaintainQuoteApiClient.HealthCheck | app/services/api_clients/jd_maintain_quote_client.py:309-349 | When not operational, the result is `HEALTH_CHECK_NOT_OPERATIONAL` (SYSTEM), nothing is sent and the session and its count are untouched. Otherwise it asks for the test quote's details, so the session is open afterwards and a new one is counted only if there was none, and it returns `HealthVerdict` of that result. |
| LegacyQuoteClient.Headers | temp_jd_quote_client.py:50-58 | Headers exist exactly when a non-empty token is returned. Every failure, including the client's own `JD_AUTH_TOKEN_MISSING`, comes out as `JD_AUTH_HEADER_ERROR`. |
| LegacyQuoteClient.RequestUrl | temp_jd_quote_client.py:64 | The URL is the base URL, one '/', then the endpoint without its leading slashes: what follows the added '/' is a suffix of the endpoint, does not start with '/', and only '/' characters were dropped. |
| LegacyQuoteClient.PayloadFor | temp_jd_quote_client.py:66 | A JSON body is attached exactly when `data` is truthy, and it is that data. |
| LegacyQuoteClient.RetrySpec | temp_jd_quote_client.py:71-83 | The refresh branch counts one refresh and resends at most once. It resends exactly when the refresh worked and the new headers exist, and the resend is the first request with the new headers. Every failure in it is `JD_AUTH_REFRESH_FAILED` or `JD_API_ERROR`. |
| LegacyQuoteClient.FirstResult | temp_jd_quote_client.py:84-90 | Success exactly when the status is below 400 and the body is empty or decodes. A status of 400 or more is `JD_API_ERROR` with details holding exactly the whole body and the status. Any other failure is `JD_RESPONSE_PARSE_ERROR`. An empty body below 400 gives `{}`. |
| LegacyQuoteClient.RequestSpec | temp_jd_quote_client.py:60-96 | Nothing is sent exactly when the headers fail. At most one refresh, and at most one send more than refreshes. |
| LegacyQuoteClient.AnswerSpec | temp_jd_quote_client.py:69-96 | The first request is always sent first, and at most two are sent. A refresh happens exactly after a first 401. Without one, exactly one request is sent. |
| LegacyQuoteClient.HeaderFailureIsUnexpected | temp_jd_quote_client.py:94-96 | A header failure before the first send gives `JD_UNEXPECTED_ERROR`, whose message wraps the `JD_AUTH_HEADER_ERROR` text. Nothing is sent. |
| LegacyQuoteClient.RequestShape | temp_jd_quote_client.py:64-76 | Every request goes to `base_url/endpoint-without-leading-slash` with the given params. It carries a JSON body only for truthy data. A resend differs from the first request only in its headers. A refresh is attempted exactly after a first 401. |
| LegacyQuoteClient.RetryResponse | temp_jd_quote_client.py:76-80 | After a first 401 and a working refresh, a resend status of 400 or more gives `JD_API_ERROR` with that status and the resend body. An empty resend body gives `Success({})`. |
| LegacyQuoteClient.RefreshBranchFailures | temp_jd_quote_client.py:71-83 | Inside the refresh branch every failure gives `JD_AUTH_REFRESH_FAILED`: the refresh raising, the new headers failing, a transport error or an undecodable resend body. |
| LegacyQuoteClient.FirstResponse | temp_jd_quote_client.py:84-90 | Without a 401, a status of 400 or more gives `JD_API_ERROR` with the whole, uncut body. An empty body gives `{}`, never `None`. An undecodable body gives `JD_RESPONSE_PARSE_ERROR`. |
| LegacyQuoteClient.DetailsParams | temp_jd_quote_client.py:129-135 | `dealerAccountNo` and `poNumber` are sent each only when truthy. With neither, the params are `None` rather than `{}`. |
| LegacyQuoteClient.QueryPairs | temp_jd_quote_client.py:153 | One `k=v` text per filter, in order. |
| LegacyQuoteClient.ListEndpoint | temp_jd_quote_client.py:151-154 | The endpoint is exactly `quotes` when there are no filters, and starts with `quotes?` otherwise. |
| LegacyQuoteClient.ListEndpointQuery | temp_jd_quote_client.py:151-154 | The endpoint is `quotes`, or `quotes?` joined with the pairs. When no key or value contains '&', splitting the query on '&' gives back exactly the pairs. |
| LegacyQuoteClient.NormaliseQuotes | temp_jd_quote_client.py:156-161 | A failure passes through unchanged. A dict with 'quotes' gives that value and a list is kept. Any other truthy value becomes `[value]`, and a falsy one `[]`. |
| LegacyQuoteClient.NormalisedIsList | temp_jd_quote_client.py:158-160 | Unless the value is a dict with 'quotes', a successful result always comes out as a list. |
| LegacyQuoteClient.StatusOf | temp_jd_quote_client.py:163-168 | A failure is passed on. A dict gives its 'status' or "unknown". Any other value raises, because it has no `.get`. |
| LegacyQuoteClient.EmptyDetailsStatusUnknown | temp_jd_quote_client.py:86-87 | When the details body is empty, the request gives `{}`, so the status is "unknown" and nothing raises. |
| LegacyQuoteClient.LegacyQuoteApiClient.constructor | temp_jd_quote_client.py:16-29 | The base URL is the first truthy of the two configured URLs, else the hard-coded default, so it is never empty. There is no session yet. |
| LegacyQuoteClient.LegacyQuoteApiClient.EnsureSession | temp_jd_quote_client.py:42-44 | Afterwards the session is open. |
| LegacyQuoteClient.LegacyQuoteApiClient.CloseSession | temp_jd_quote_client.py:46-48 | An open session is closed but kept. Otherwise nothing changes. |
| LegacyQuoteClient.LegacyQuoteApiClient.Request | temp_jd_quote_client.py:60-96 | `_request` returns exactly what the request specification gives, and leaves the session open. |
| LegacyQuoteClient.LegacyQuoteApiClient.GetQuoteDetails | temp_jd_quote_client.py:98-135 | A GET of `quotes/<id>/maintain-quote-details` with `DetailsParams`. |
| LegacyQuoteClient.LegacyQuoteApiClient.ListQuotes | temp_jd_quote_client.py:150-161 | A GET of `ListEndpoint(filters)`, normalised by `NormaliseQuotes`. |
| LegacyQuoteClient.LegacyQuoteApiClient.GetQuoteStatus | temp_jd_quote_client.py:163-168 | The details request without params, read by `StatusOf`. |
| LegacyQuoteClient.LegacyQuoteApiClient.HealthCheck | temp_jd_quote_client.py:170-175 | The result is `Success` of whether the `health` request succeeded. It is never a failure. |
| LegacyQuoteClient.Resend | temp_jd_quote_client.py:71-83 | The refresh branch (refresh, new headers, one resend of the same request) agrees with the retry specification. |
| LegacyQuoteClient.RunRequest | temp_jd_quote_client.py:62-96 | Headers, URL and keywords, then one send: the call returns exactly what `RequestSpec` gives. |
| LegacyQuoteClient.Answer | temp_jd_quote_client.py:67-96 | Reading the first answer gives exactly the following. A transport error is `JD_HTTP_ERROR` and any other error is `JD_UNEXPECTED_ERROR`. A 401 leads into the refresh branch, and any other status is read by `FirstResult`. |
| RecentDeals.NonBlank | temp_recent_deals_view_corrected.py:205 | `deal.get(key, '').strip()` can be evaluated exactly when the value is a string. |
| RecentDeals.HasItems | temp_recent_deals_view_corrected.py:206 | `len(deal.get(key, []))` can be evaluated exactly when the value has a length. |
| RecentDeals.IsDealCompleted | temp_recent_deals_view_corrected.py:204-206 | A completed deal has a string customer name and a string salesperson, both non-blank after strip. A missing or empty customer name means not completed. |
| RecentDeals.CompletedIff | temp_recent_deals_view_corrected.py:204-206 | For a well-typed deal: completed exactly when customer and salesperson are non-blank after strip and equipment, trades or parts is non-empty. |
| RecentDeals.CompletedRaisesOnBadName | temp_recent_deals_view_corrected.py:205 | A customer name that is not a string makes the check raise. |
| RecentDeals.FilterCompleted | temp_recent_deals_view_corrected.py:192 | The comprehension succeeds exactly when no check raises. It then keeps exactly the completed deals, in their order, as a subsequence of the log. Each completed deal occurs as often as in the log, and no other deal occurs. |
| RecentDeals.StrLessIrreflexive | temp_recent_deals_view_corrected.py:193 | Python's string `<` is irreflexive. |
| RecentDeals.StrLessTransitive | temp_recent_deals_view_corrected.py:193 | Python's string `<` is transitive. |
| RecentDeals.StrLessTotal | temp_recent_deals_view_corrected.py:193 | Any two strings are equal or ordered one way or the other. |
| RecentDeals.StrLessAsymmetric | temp_recent_deals_view_corrected.py:193 | No two strings are each smaller than the other. |
| RecentDeals.InsertDesc | temp_recent_deals_view_corrected.py:193 | One insertion step of the sort: the result is the old list plus the new deal, as a multiset. |
| RecentDeals.SortDesc | temp_recent_deals_view_corrected.py:193 | The sort is a permutation of its input. |
| RecentDeals.SortedCons | temp_recent_deals_view_corrected.py:193 | A head no smaller than every later key keeps a descending list descending. |
| RecentDeals.InsertDescSorted | temp_recent_deals_view_corrected.py:193 | Insertion keeps a list sorted newest first. |
| RecentDeals.InsertFrontSorted | temp_recent_deals_view_corrected.py:193 | A deal newer than the head of a sorted list can go in front of it. |
| RecentDeals.InsertBehindSorted | temp_recent_deals_view_corrected.py:193 | A deal not newer than the head goes behind it, into a sorted tail. |
| RecentDeals.SortDescSorted | temp_recent_deals_view_corrected.py:193 | The sort orders deals by completion_timestamp, then timestamp, then the epoch string, newest first. |
| RecentDeals.PyPrefix | temp_recent_deals_view_corrected.py:194 | `s[:n]` is a prefix of `s` of length `min(n, len)`. A negative `n` counts from the end. |
| RecentDeals.LoadFromLog | temp_recent_deals_view_corrected.py:187-202 | A non-negative `max_deals_to_display` bounds the count. A non-empty result comes from a readable list whose completion checks all succeed, and is no longer than the completed deals. |
| RecentDeals.FetchDeals | temp_recent_deals_view_corrected.py:176-202 | A fresh cache gives the cached, non-empty list. Otherwise the result is what loading the log gives. |
| RecentDeals.LoadedDeals | temp_recent_deals_view_corrected.py:187-202 | Loaded deals are completed deals of the log, sorted newest first, and no more than `max_deals_to_display` of them. Any file problem gives `[]`. |
| RecentDeals.SortedPrefix | temp_recent_deals_view_corrected.py:193-194 | The truncated sorted list is sorted and drawn from the completed deals. |
| RecentDeals.LoadedCount | temp_recent_deals_view_corrected.py:194 | With string keys, exactly `min(max, completed)` deals are shown. |
| RecentDeals.CacheOnlyWhenFresh | temp_recent_deals_view_corrected.py:181-186 | The cached list is used only if it is a list whose stored time is less than 300 s old. |
| RecentDeals.FilterDeals | temp_recent_deals_view_corrected.py:223 | The filtered list holds exactly the deals of the full list that pass `check_deal`, and is no longer than it. |
| RecentDeals.CheckDeal | temp_recent_deals_view_corrected.py:214-222 | A deal passing with "Show Paid Only" is paid. A deal passing "Last 7 Days" or "Last 30 Days" has an age of at most 30 days. With no paid filter and a filter text that names no filter, every deal passes. |
| RecentDeals.FilterIsSubsequence | temp_recent_deals_view_corrected.py:223 | The filtered list is an order-preserving subsequence of the full list. |
| RecentDeals.SubsequenceCons | temp_recent_deals_view_corrected.py:223 | A subsequence of `b` is still one after an element is put in front of `b`. |
| RecentDeals.SubsequenceDrop | temp_recent_deals_view_corrected.py:223 | Dropping the head of a subsequence keeps it a subsequence. |
| RecentDeals.FilterFlags | temp_recent_deals_view_corrected.py:215-218 | "Show Paid Only" keeps only paid deals. "CSV Generated Only", "Email Sent Only" and "Both CSV & Email" keep only deals with the named flags. |
| RecentDeals.FilterAge | temp_recent_deals_view_corrected.py:219-221 | "Last 7 Days" and "Last 30 Days" keep only dated deals at most 7 or 30 whole days old. |
| RecentDeals.NoFilterKeepsAll | temp_recent_deals_view_corrected.py:214-222 | With no paid filter and a filter text that names no filter, every deal is kept, in order. |
| RecentDeals.DealId | temp_recent_deals_view_corrected.py:319 | The id is `completion_timestamp` when it is truthy, and otherwise `timestamp` (or `None` when absent). |
| RecentDeals.FirstMatch | temp_recent_deals_view_corrected.py:354-359 | Gives the first deal whose `completion_timestamp or timestamp` equals the id, or none if no deal has it. |
| RecentDeals.SetQuoteId | temp_recent_deals_view_corrected.py:327-330 | The length is kept. With no deal holding the id, nothing changes. Otherwise the first match gets the new `quoteId`, keeps every other key and value, and every other deal is unchanged. |
| RecentDeals.QuoteIdKeepsMatch | temp_recent_deals_view_corrected.py:327-330 | Setting `quoteId` does not change which deal is the first match. |
| RecentDeals.FirstMatchOfSameIds | temp_recent_deals_view_corrected.py:327-330 | Lists with the same ids have the same first match. |
| RecentDeals.RollbackRestores | temp_recent_deals_view_corrected.py:336-342 | Rolling back after an edit leaves each list as if only the rollback had run. When the first match held the shown id, or nothing matched, the list is exactly as before. |
| RecentDeals.RollbackOverrides | temp_recent_deals_view_corrected.py:336-342 | Writing `quoteId` to the first match twice leaves only the second value. |
| RecentDeals.RollbackKeepsCurrent | temp_recent_deals_view_corrected.py:336-342 | Writing back the value the first match already holds, or having no match at all, leaves the list unchanged. |
| RecentDeals.RewriteTwice | temp_recent_deals_view_corrected.py:338-342 | A second write to the same key of a deal overrides the first. |
| RecentDeals.WithQuoteId | temp_recent_deals_view_corrected.py:357-358 | `None` removes `quoteId`, and a value sets it. No other key changes. |
| RecentDeals.PersistQuoteIdChange | temp_recent_deals_view_corrected.py:345-368 | Only the first deal with the id is changed, and the rest of the list is kept. The list is written back and `saved` is whether the write worked. With no usable log or no matching deal, the result is False and nothing is written. |
| RecentDeals.FirstMatchIsFirst | temp_recent_deals_view_corrected.py:354-359 | The loop's stopping index is the first match. |
| RecentDeals.SetQuoteIdInList | temp_recent_deals_view_corrected.py:328-330 | The in-memory loop sets `quoteId` on the first deal with the id and changes nothing else. |
| RecentDeals.Stamped | temp_recent_deals_view_corrected.py:485-487 | `completion_timestamp` is set only when absent. Both flags are always overwritten, and every other key is kept. |
| RecentDeals.SameStamp | temp_recent_deals_view_corrected.py:506-509 | Gives the first logged deal with the same `completion_timestamp`, or none if no deal has it. |
| RecentDeals.LimitOf | temp_recent_deals_view_corrected.py:497-511 | How `deals[:max_deals]` reads the configured limit: `None` keeps all, a number (or a bool, as 0 or 1) is a slice bound, and a string, list or dict makes the slice raise. |
| RecentDeals.Upsert | temp_recent_deals_view_corrected.py:506-511 | It fails exactly when no deal has the stamp and the limit is not usable as a slice bound. An update in place keeps the length. |
| RecentDeals.UpsertShape | temp_recent_deals_view_corrected.py:506-511 | With a same-stamp entry, that entry is updated with the deal's keys in place: the length is unchanged and the other entries are untouched. Otherwise the deal goes first and the list is cut exactly to `min(n, len + 1)` entries, or for a negative `n` to `len + 1 + n` (at least 0). No limit keeps all, and a limit that is not a number fails. |
| RecentDeals.FindSameStamp | temp_recent_deals_view_corrected.py:506-509 | The loop's index is -1 exactly when no deal has the stamp, and is the first such deal otherwise. |
| RecentDeals.SameStampIsFirst | temp_recent_deals_view_corrected.py:506-509 | The first index with the stamp is the one found. |
| RecentDeals.SameStampNone | temp_recent_deals_view_corrected.py:506-509 | No deal with the stamp means no index. |
| RecentDeals.SaveDealToRecent | temp_recent_deals_view_corrected.py:482-516 | The deal is always stamped. A missing customer or salesperson, or a missing config, gives False without a write. With both names, a config and a readable (or absent) log, what is written is exactly `Upsert` of the log with `MAX_RECENT_DEALS_COUNT` (default 50). The result is True exactly when something was written and the write worked. |
| RecentDeals.UpsertLog | temp_recent_deals_view_corrected.py:506-511 | The update-or-prepend step computes `Upsert`. |
| RecentDeals.RecentDealsView.constructor | temp_recent_deals_view_corrected.py:64-65 | Both lists start empty, with the first filter and paid-only off. |
| RecentDeals.RecentDealsView.ApplyFilters | temp_recent_deals_view_corrected.py:211-223 | The shown list becomes the filter of the loaded list. Nothing else changes. |
| RecentDeals.RecentDealsView.PopulateDealsList | temp_recent_deals_view_corrected.py:208-209 | Stores the loaded list and refilters it. |
| RecentDeals.RecentDealsView.EditAddQuoteId | temp_recent_deals_view_corrected.py:312-368 | A change is attempted exactly when a deal with an id is selected, the dialog is accepted and the stripped text differs from the shown id. Blank text means `None`. With no attempt, nothing changes and nothing is written. Otherwise the log's first deal with the id gets the new id and is written, and `saved` is whether the write worked; with no readable log or no such deal nothing is written and `saved` is False. Both lists carry the new id on their first match if saving worked, and the previously shown id if it failed. |
| DealForm.CleanNumericString | app/views/modules/deal_form_view.py:60-68 | Empty input gives ''. The result contains no ',' and no ' ', and is no longer than the input. |
| DealForm.CleanedCharacters | app/views/modules/deal_form_view.py:65-67 | Every character of the stripped text other than ',' and ' ' is in the result, and only those are. |
| DealForm.CleanIdempotentWhenTrimmed | app/views/modules/deal_form_view.py:60-68 | Cleaning a result again changes nothing when the result has no outer whitespace. |
| DealForm.CleanNotIdempotent | app/views/modules/deal_form_view.py:65-67 | `",\t5"` cleans to `"\t5"`, which cleans to `"5"`: cleaning is not idempotent in general. |
| DealForm.IndexOf | app/views/modules/deal_form_view.py:757-760 | Gives the first index holding the value, or none if no element equals it. |
| DealForm.FirstHeaderIndex | app/views/modules/deal_form_view.py:757-760 | A found index points at a header that is not `None`. |
| DealForm.FirstHeaderMatches | app/views/modules/deal_form_view.py:757-760 | The index found is the first header that equals the candidate after BOM-strip, trim and lowercasing. No header matches when none is found. |
| DealForm.HeaderCandidate | app/views/modules/deal_form_view.py:755-760 | Gives the earliest candidate that some header matches, or none if no candidate matches any header. |
| DealForm.HeaderKey | app/views/modules/deal_form_view.py:752-761 | Empty headers give none. A found key is one of the headers. |
| DealForm.HeaderKeyFound | app/views/modules/deal_form_view.py:752-761 | A found key is one of the headers as written, and it matches a candidate. None is found exactly when no header matches any candidate, and in particular for empty headers. |
| DealForm.HeaderKeyPriority | app/views/modules/deal_form_view.py:755-760 | Candidates are tried in order: no earlier candidate matches any header. |
| DealForm.FirstMatchingHeader | app/views/modules/deal_form_view.py:757-760 | The inner search loop finds `FirstHeaderIndex`. |
| DealForm.FindHeaderKey | app/views/modules/deal_form_view.py:752-761 | The nested loops compute `HeaderKey`. |
| DealForm.NormalNames | app/views/modules/deal_form_view.py:793-795 | Each key is compared after lowercasing and trimming. |
| DealForm.KeyIndex | app/views/modules/deal_form_view.py:794-795 | Gives the first key, in insertion order, matching the target case-insensitively, or none if no key matches. |
| DealForm.KeyLike | app/views/modules/deal_form_view.py:790-796 | A found key is present and matches. None is found exactly when no key matches. |
| DealForm.FindKeyCaseInsensitive | app/views/modules/deal_form_view.py:790-796 | The search loop computes `KeyLike`. |
| DealForm.ItemPath | app/views/modules/deal_form_view.py:124-135 | There is a path exactly when 'sites' is a segment and there are at least three segments. |
| DealForm.ItemPathSegments | app/views/modules/deal_form_view.py:126-134 | The path is the segments after the first two, less a leading "shared documents" or "documents" segment, matched case-insensitively. |
| DealForm.TrimRecord | app/views/modules/deal_form_view.py:721 | Same keys and order. String values are stripped and missing values stay missing. |
| DealForm.RowKey | app/views/modules/deal_form_view.py:720 | A row's key, when it can be read, is trimmed. |
| DealForm.Absorb | app/views/modules/deal_form_view.py:719-721 | Existing entries keep their keys. Every added key is non-blank and trimmed. |
| DealForm.StoredKeyHasRow | app/views/modules/deal_form_view.py:719-721 | Every added key is the trimmed key of some row. |
| DealForm.LastRowWins | app/views/modules/deal_form_view.py:719-721 | A key holds the trimmed record of the last row with that key: a later duplicate overwrites an earlier one. |
| DealForm.BlankRowSkipped | app/views/modules/deal_form_view.py:721 | A row whose trimmed key is blank changes nothing. |
| DealForm.KindOfApiKey | app/views/modules/deal_form_view.py:648-678 | A recognised download name names its kind. |
| DealForm.KindOfTag | app/views/modules/deal_form_view.py:522-534 | A recognised success tag names its kind. |
| DealForm.KindNamesRoundTrip | app/views/modules/deal_form_view.py:586-589 | Each kind is recognised by its own download name (`products` for equipment) and its own tag (`equipment`). |
| DealForm.HeaderLine | app/views/modules/deal_form_view.py:631-632 | The header line is the text before the first line break, or all of the text when it has none. |
| DealForm.CleanHeaders | app/views/modules/deal_form_view.py:640 | Each header is BOM-stripped and trimmed. |
| DealForm.Process | app/views/modules/deal_form_view.py:609-690 | A map comes back only for downloaded content and a known kind. |
| DealForm.ProcessedKeys | app/views/modules/deal_form_view.py:648-674 | Every key of a processed map is non-blank and trimmed. It holds the trimmed record of the last row with that key. |
| DealForm.LastIndexWithKey | app/views/modules/deal_form_view.py:651-653 | If some row has the key, there is a last such row. |
| DealForm.AbsorbStopsAtRaise | app/views/modules/deal_form_view.py:719-721 | Once a row raises, later rows change nothing. |
| DealForm.DealFormView.constructor | app/views/modules/deal_form_view.py:374-384 | All four maps start empty and all four flags false. |
| DealForm.DealFormView.SetLoaded | app/views/modules/deal_form_view.py:552 | Sets one kind's flag. Nothing else changes. |
| DealForm.DealFormView.SetData | app/views/modules/deal_form_view.py:525 | Sets one kind's map. Nothing else changes. |
| DealForm.DealFormView.LoadAsync | app/views/modules/deal_form_view.py:545-559 | A worker is dispatched exactly when the flag was clear. Afterwards the flag is set. Other flags and all maps are untouched. |
| DealForm.DealFormView.FetchAndProcess | app/views/modules/deal_form_view.py:609-690 | Returns the processed map, or `None` where processing raises. On failure it clears the flag of the kind named, and changes nothing else. |
| DealForm.DealFormView.OnDataLoadedSuccess | app/views/modules/deal_form_view.py:520-537 | A known tag stores the map and sets its flag. An unknown tag changes nothing. |
| DealForm.DealFormView.LoadData | app/views/modules/deal_form_view.py:715-750 | Nothing is loaded without a key column. Otherwise the kind's map becomes `Absorb` of the rows, stopping at a row that raises. |
| DealForm.RowIdInjective | app/views/modules/deal_form_view.py:1497 | Different row numbers give different Row IDs. |
| DealForm.EquipmentRow | app/views/modules/deal_form_view.py:1484-1498 | An equipment row carries the deal's shared columns and Row ID `<base>-n`, the item's name, stock number and comma-free price, and blank trade columns. |
| DealForm.TradeRow | app/views/modules/deal_form_view.py:1500-1515 | A trade row carries the shared columns and Row ID `<base>-n`, the item in the trade columns, and blank equipment columns. |
| DealForm.BaseRow | app/views/modules/deal_form_view.py:1517-1525 | The base row carries the shared columns, Row ID `<base>-1`, and blank item columns. |
| DealForm.BuildExcelRows | app/views/modules/deal_form_view.py:1475-1525 | One row per equipment item, then one per trade, with Row IDs `<base>-1` up to `<base>-n` and no gaps. A single base row appears only when there are no items and a customer or salesperson is given. |
| DealForm.RowIdsDistinct | app/views/modules/deal_form_view.py:1492-1524 | The Row IDs of one deal are pairwise different. |
| DealForm.LogDealToSharePoint | app/views/modules/deal_form_view.py:1451-1561 | False without a ready service or with an invalid form. With no rows the result is False and nothing is uploaded. Otherwise the uploaded rows are exactly the equipment rows, then the trade rows, numbered from 1 (or the single base row), with distinct Row IDs, and the result is the upload's answer. The deal goes on to the recent-deals log exactly when the upload worked and the call did not come from "generate all". |
| DealForm.EmailKeyFrom | app/views/modules/deal_form_view.py:1591-1592 | Gives the first e-mail key name present in the record case-insensitively, or none if no name is present. |
| DealForm.RecipientList | app/views/modules/deal_form_view.py:1599-1607 | One to three recipients, "amsdeals@briltd.com" first, and "amsparts@briltd.com" whenever there are parts. |
| DealForm.Recipients | app/views/modules/deal_form_view.py:1599-1607 | The same bounds for the list `generate_email` builds from the salesman lookup. |
| DealForm.RecipientListShape | app/views/modules/deal_form_view.py:1599-1607 | An added address comes second. Every other entry is one of the two mailboxes. "amsparts@briltd.com" is present exactly when there are parts or it was the added address, and never twice. |
| DealForm.SalesmanEmail | app/views/modules/deal_form_view.py:1586-1598 | An empty name, a name not in the salesmen data, an empty record, or a record with none of the five e-mail key names gives no address. Otherwise the first key name found selects the field: a missing value raises, and a present one gives that value stripped. |
| DealForm.RecipientsShape | app/views/modules/deal_form_view.py:1599-1607 | "amsdeals@briltd.com" comes first. It is followed by the salesman's address only if that contains '@' and a '.' after the last '@'. "amsparts@briltd.com" is present exactly when there are parts or it was the salesman's address, and never twice. |
| ChartWidgets.Updated | app/views/widgets/chart_widget.py:37-83 | Arguments that are not lists leave the plot as it was. Otherwise the plot shows exactly `(x, y)` when the lengths match, are non-zero and drawing works. It is empty in every other case. |
| ChartWidgets.UpdateIdempotent | app/views/widgets/chart_widget.py:37-83 | Repeating an update with the same arguments changes nothing more. |
| ChartWidgets.UpdateForgetsPrevious | app/views/widgets/chart_widget.py:51-83 | Once both arguments are lists, what was plotted before does not matter. |
| ChartWidgets.ChartWidget.constructor | app/views/widgets/chart_widget.py:33 | A new widget has no plot data. |
| ChartWidgets.ChartWidget.UpdateData | app/views/widgets/chart_widget.py:37-83 | The plot data becomes `Updated` of the old data. |
| ChartWidgets.ChartWidget.ClearPlot | app/views/widgets/chart_widget.py:85-89 | The plot data is empty afterwards, so a second call changes nothing. |
| Dashboard.TrendOf | app/views/modules/home_page_dashboard_view.py:672-680 | Rising exactly when the current rate is higher, falling exactly when it is lower, level exactly when they are equal. |
| Dashboard.ArrowsTellTrendsApart | app/views/modules/home_page_dashboard_view.py:672-680 | Different trends get different forex arrows (▲ ▼ →), crypto arrows (↑ ↓ →) and colours. |
| Dashboard.RateLabelOf | app/views/modules/home_page_dashboard_view.py:669-705 | Each label branch is taken exactly under its condition. The trend is shown exactly when both rates are present and the old one is not 0. |
| Dashboard.ForexChartAction | app/views/modules/home_page_dashboard_view.py:655-705 | No payload leaves the chart untouched. The chart is plotted with `([0,1], [old, new])` in 'g' exactly when both rates are present and the old one is not 0. It is cleared otherwise. |
| Dashboard.CryptoChartAction | app/views/modules/home_page_dashboard_view.py:780-829 | No payload clears the chart. Plotting (in 'orange') happens under the same condition as for forex, and the chart is cleared otherwise. |
| Dashboard.HandlersAgree | app/views/modules/home_page_dashboard_view.py:669-829 | On a payload, both handlers plot the same points exactly when the label shows a trend, and clear otherwise. |
| Dashboard.ChartShowsTrend | app/views/modules/home_page_dashboard_view.py:686-705 | After a handler runs on a payload, its chart shows the old and then the new rate exactly when both are present, the old one is not 0 and drawing works. Otherwise it is empty. |
| Dashboard.BriefSummary | app/views/modules/home_page_dashboard_view.py:232-237 | "API Key Error. Details on hover." when the flag is set, whatever the message. Otherwise "Timeout. Details on hover." exactly when the message contains "timeout" in any case, else "Details on hover." |
| Dashboard.ErrorCard | app/views/modules/home_page_dashboard_view.py:222-240 | A failed card holds the city name, the full message, the brief summary and the flag. |
| Dashboard.DisplayName | app/views/modules/home_page_dashboard_view.py:571-575 | The name is the key itself or the display name of a city with that key. |
| Dashboard.DisplayNameFound | app/views/modules/home_page_dashboard_view.py:571-575 | The name is the display name of the first city with that key. |
| Dashboard.DisplayNameFallback | app/views/modules/home_page_dashboard_view.py:571 | A key no city has is its own name. |
| Dashboard.LookupDisplayName | app/views/modules/home_page_dashboard_view.py:571-575 | The search loop computes `DisplayName` over the four cities. |
| Dashboard.MarkAll | app/views/modules/home_page_dashboard_view.py:524-541 | Updating the cards of the cities keeps the set of cards. |
| Dashboard.CityKeys | app/views/modules/home_page_dashboard_view.py:531-532 | The city keys in the order of `CITIES_DETAILS`, one per city. |
| Dashboard.Marked | app/views/modules/home_page_dashboard_view.py:524-541 | Marking with the missing key gives a failed card and marking to fetch a fetching card, both under the city's display name. The failed card is an API-key error reading "API Key Not Configured", with the API-key summary. |
| Dashboard.WithCards | app/views/modules/home_page_dashboard_view.py:531-547 | Only keys that have a card are started, and at most one per city. |
| Dashboard.WithCardsStarted | app/views/modules/home_page_dashboard_view.py:531-547 | The key of every city that has a card is started, every started key has a card and belongs to a city, and the started keys keep the cities' order (they are a subsequence of the city keys). |
| Dashboard.MarkAllSkips | app/views/modules/home_page_dashboard_view.py:525-526 | A card whose key no city has is untouched. |
| Dashboard.MarkAllLastWins | app/views/modules/home_page_dashboard_view.py:524-527 | A card ends up as the update of the last city with its key. |
| Dashboard.MarkAllEffect | app/views/modules/home_page_dashboard_view.py:524-541 | With distinct keys, every city that has a card gets its update, and no other card changes. |
| Dashboard.CityKeysDistinct | app/views/modules/home_page_dashboard_view.py:79-84 | The four cities have distinct keys. |
| Dashboard.InitialCards | app/views/modules/home_page_dashboard_view.py:383-388 | There is a card exactly for each city key, and every card is fetching. |
| Dashboard.InitialCardOf | app/views/modules/home_page_dashboard_view.py:383-388 | A city's card is fetching under the display name of the last city with its key. |
| Dashboard.InitialCardsOfCities | app/views/modules/home_page_dashboard_view.py:79-84 | With the four distinct city keys, every city's card is fetching under its own display name. |
| Dashboard.HomePageDashboard.constructor | app/views/modules/home_page_dashboard_view.py:313-339 | Both charts are new and empty after `load_module_data`. There is a card exactly for each city. With a weather key each city's card is fetching under its own display name; without one each shows the "API Key Not Configured" API-key error. The forex label says "Fetching..." with an exchange-rate key and "API Key Required" without one, the BTC label says "Fetching...", and the status is the crypto fetch's "Fetching BTC-USD data...". |
| Dashboard.HomePageDashboard.LoadModuleData | app/views/modules/home_page_dashboard_view.py:445-451 | The weather cards and started cities are those of `FetchWeatherData`, the forex fetch starts exactly when there is an exchange-rate key, both charts are cleared, and the last status is the crypto fetch's. |
| Dashboard.HomePageDashboard.FetchForexData | app/views/modules/home_page_dashboard_view.py:720-738 | The chart is cleared. The fetch starts exactly when there is an exchange-rate key; then the label says "Fetching..." and the status "Fetching USD-CAD data...", otherwise "API Key Required" and "Forex: API Key Required". The cards and the crypto side are untouched. |
| Dashboard.HomePageDashboard.FetchCryptoPrices | app/views/modules/home_page_dashboard_view.py:843-852 | The BTC label says "Fetching...", its chart is cleared and the status is "Fetching BTC-USD data...". The cards and the forex side are untouched. |
| Dashboard.MarkedCardsOfCities | app/views/modules/home_page_dashboard_view.py:524-541 | After a weather update of the initial cards, every city's card is that update under its own display name. |
| Dashboard.HomePageDashboard.OnForexDataReceived | app/views/modules/home_page_dashboard_view.py:653-708 | The label is `RateLabelOf`, and the USD-CAD chart follows `ForexChartAction`. The status is "Forex: Error" for no payload, else "Forex data updated.". The crypto side and the cards are untouched. |
| Dashboard.HomePageDashboard.OnForexDataError | app/views/modules/home_page_dashboard_view.py:710-718 | The label shows the error type, the chart is cleared and the status is "Forex: Error". Nothing else changes. |
| Dashboard.HomePageDashboard.OnCryptoDataReceived | app/views/modules/home_page_dashboard_view.py:778-833 | The label is `RateLabelOf`, and the BTC chart follows `CryptoChartAction`. The status is "Crypto: Error" for no payload, else "Crypto data updated.". The forex side is untouched. |
| Dashboard.HomePageDashboard.OnCryptoDataError | app/views/modules/home_page_dashboard_view.py:835-841 | The label shows the error type, the chart is cleared and the status is "Crypto: Error". Nothing else changes. |
| Dashboard.HomePageDashboard.FetchWeatherData | app/views/modules/home_page_dashboard_view.py:515-547 | Without an API key, no fetch starts, every card shows "API Key Not Configured" as an API-key error, and the status is "Weather: API Key Required". With a key, every city with a card is marked fetching and has its fetch started, in order (`WithCardsStarted`). |
| Dashboard.HomePageDashboard.MarkKeyMissingCards | app/views/modules/home_page_dashboard_view.py:524-527 | Every city that has a card gets the API-key error, in the order of the cities. The status, the key and the labels are untouched. |
| Dashboard.HomePageDashboard.StartCityFetches | app/views/modules/home_page_dashboard_view.py:531-547 | The started keys are `WithCards` of the cities, so (by `WithCardsStarted`) exactly the cities that have a card, in order. Those cards are marked fetching, a city without a card is skipped, and nothing else changes. |
| Dashboard.HomePageDashboard.OnWeatherDataError | app/views/modules/home_page_dashboard_view.py:566-582 | The card of a known city becomes an error card under its display name, with the message and no API-key flag. An unknown key changes nothing. |

## Left out

- HTTP transport, `aiohttp` sessions, SharePoint and Graph API downloads, the weather, forex and crypto fetch workers (`_fetch_*_worker`) and `_on_weather_data_received`: these are I/O. Their answers are inputs. Of `_fetch_weather_data`, `_fetch_forex_data` and `_fetch_crypto_prices` the model keeps what they do before a worker starts (labels, cards, charts, status).
- The dashboard's refresh timer and `_refresh_all_data`, which repeat the three fetches every hour, are not modelled; `LoadModuleData` is the same sequence of fetches.
- Dashboard.HomePageDashboard: the two API keys are constructor parameters; reading them from `config.json` is I/O. The status bar is the single `status` text, and the forex label's two "Fetching..." texts (with and without the hourglass) are both `AwaitingRates`.
- Concurrency: the client's `asyncio.Lock`, the Qt thread pool and its workers. Only the state transitions of the session field are kept.
- LegacyQuoteClient: `str(e)` of one of the client's own `BRIDealException`s is taken to be its message, so a wrapped header error quotes the inner message. The exception class's text form is not part of this model.
- DealForm.LogDealToSharePoint: the save to the recent-deals log after a successful upload is returned as the decision `savesToRecent`; the save itself is `RecentDeals.SaveDealToRecent`. The deal dictionary built by `_get_current_deal_data` is not part of this model, and the save's result only raises a warning box, so it does not change the returned value. One exception is left out: if `_get_current_deal_data` raises while the deal is built for the save, the source's `except` returns False although the upload worked.
- An exception raised by `refresh_token` itself in the Maintain Quote client is not modelled. Its result is ignored, and the retry always follows.
- The `SESSION_NOT_INITIALIZED` branch of the Maintain Quote `_request` is left out: after `EnsureSession` the session is open, so that branch cannot run.
- The endpoint wrappers that only forward to `_request` with a fixed endpoint: `maintain_quotes_general`, `add_equipment_to_quote`, `copy_quote`, the deletes and `get_trade_in_details` in the Maintain Quote client, and `create_quote`, `update_quote` and `delete_quote` in the older client. `GetMaintainQuoteDetails` stands for them.
- `json.loads` and `json.dump`: each answer carries its decoding, and what is written is returned. JSON numbers are integers. Floating-point values in deals are not modelled.
- The recent-deals file and cache: their contents are inputs (`LogFile`, `CachedValue`), and writing the cache is left out. The recent-deals view's `load_module_data` only starts a worker.
- RecentDeals.PersistQuoteIdChange: after a successful write the source deletes the two cache entries, and if that raises it returns False although the log was written. The model's `saved` follows the write alone, because cache deletion is not modelled.
- RecentDeals.LoadFromLog: when at least two completed deals have sort keys that are not all strings, the model takes the sort to raise and gives `[]`. Python raises only for some mixes of key types.
- RecentDeals.SortDesc: the model sorts stably, as Python does, but stability is not proved. Only the order and the permutation are.
- RecentDeals.RecentDealsView.EditAddQuoteId: the two in-memory lists and the selected deal are separate values. The sharing of the same dictionary between them, which the source relies on, is not modelled.
- `_parse_deal_date` and the clock: each deal's age in days is given as a function `ageOf`.
- Log entries that are not dictionaries: a deal is always a JSON object.
- DealForm.CleanNumericString: the input is text or nothing. The source applies `str()` to any truthy value, so numbers (such as `1234.5`, shown by Python's float formatting) and a falsy `0` are not part of this model.
- LegacyQuoteClient.QueryPairs: filter keys and values are taken as their text. The source formats any dictionary value with `f"{k}={v}"`, and Python's text form of non-string values is not modelled.
- DealForm.CleanNumericString: idempotence holds only when the cleaned text has no outer whitespace (`CleanIdempotentWhenTrimmed`). `CleanNotIdempotent` gives an input where a second cleaning changes the result.
- CSV tokenising, the pandas Excel import, `urllib` parsing and unquoting, and regular-expression matching of list items: their outputs (header lists, rows, decoded paths, `Item` values) are inputs.
- `_load_csv_file` (file checks before the loaders) and `_populate_autocompleters` (Qt completer models): these are file I/O and UI.
- `generate_email` beyond the recipient list: the HTML body and opening Outlook.
- Lowercasing covers ASCII letters only. Python's full Unicode case mapping is not modelled.
- Number formatting of the rate labels (`:.4f`, `:,.2f`, percentages) and the label texts: a label is the branch taken.
- The chart widget's pen-colour resolution: the pen keeps the requested colour name, and any failure while building it or drawing is the `drawFails` input.
- Weather card widgets are values in a map, not objects. Their temperature fields and `update_data` are not modelled.
- Reading API keys from `config.json` in the dashboard constructor: the key is a constructor parameter.
- The Qt UI: layouts, styles, message boxes, dialogs and the status bar. `_update_status` is the `status` field.
