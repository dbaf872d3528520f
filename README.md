# monzo-exporter, modelled in Dafny

A model of the core of `monzo-exporter`. This is a Prometheus exporter that
logs Monzo users in through the OAuth authorisation-code journey, keeps their
tokens in a token box, and periodically walks the Monzo API to set balance
gauges. The model has four modules.

- `MonzoTypes` (`types.dfy`) holds the records exchanged with the API: token
  records, accounts, pots, balances, the caller identity and the token
  endpoint's reply.
- `MonzoMetrics` (`metrics.dfy`) covers the eight package-level metric
  vectors. Each vector is a map from its label tuple to an integer value.
  - Each vector is a field of the class `MetricVectors`.
  - Each setter is a method whose new state is a pure transition of the
    `Registry` value (`WithCurrentBalance`, ..., `WithIncrement`,
    `WithTransactionsReset`).
  - The transitions carry their frame conditions: each setter and the
    increment change exactly one series of one vector;
    `WithTransactionsReset` empties the transactions vector and changes no
    other.
  - The `%d` rendering of the response-code label is proved injective through
    a parse-back round trip.
- `MonzoOAuth` (`oauth.dfy`) covers the OAuth client.
  - Routing is `RouteOf`. The start redirect is `RedirectURL`, `StartQuery`
    and `StartLocation`.
  - The callback's checks are `CheckCallback`. Its decision, including the
    code exchange, is `Callback`.
  - Refresh-and-rotate is `RefreshTick`.
  - The class `OAuthClient` holds the token box as a `seq<TokenRecord>`.
    Each lock-guarded region is one method: `HandleJourneyCallback`,
    `GetAccessTokens` and `RefreshAToken`.
  - The code-exchange POST and the refresh call are oracles passed in as
    function values. The clock is the parameter `now`, in unix seconds.
- `MonzoCollector` (`collector.dfy`) covers the collection walk.
  - The upstream API is an `Upstream` value of per-token and per-account
    `Result`s.
  - The walk is specified as a pure log of gauge writes (`CollectAll`,
    `CollectToken`, `WalkAccounts`, `PotWrites`) plus a `panicked` flag for
    Go's `panic`.
  - `ApplyAll` performs the log on a registry.
  - The methods `CollectAllMetrics`, `CollectAccountMetrics` and
    `CollectPotMetrics` run the Go loops against `MetricVectors`. Each is
    proved to leave exactly `ApplyAll(old state, log)`.

Behaviour as the code has it, which the model follows:

- When the refresh call fails, `RefreshAToken` returns before reassigning the
  box. The box is left exactly as it was, with the failing record still at
  the head. Nothing is dropped.
- The collection walk sets only the current-balance, total-balance,
  spend-today and pot-balance gauges. It never sets
  `monzo_user_latest_collect` or the transactions vector. One token with one
  account and one pot therefore yields four series (`OneAccountOnePotScenario`).
- The callback only logs the token endpoint's HTTP status. Any reply whose
  body decodes is accepted, whatever its status
  (`CallbackIgnoresExchangeStatus`).
- The query values of the authorisation redirect are not URL-escaped. The
  query reads back as its four parameters only when no value contains `&`
  (`StartQueryRoundTrip`). `ParseQuery` reads the query literally: it splits
  on `&` and `=` and does not percent-decode, so the round trip says nothing
  about how a standard decoder would treat `+`, `%XX` or `#` in a value.
- Routing compares the request's escaped path with `/token/callback` exactly.
  The redirect URI is the external URL followed by `/token/callback`, so the
  callback is reachable only when the external URL has no path of its own:
  with a path prefix or a trailing `/`, the redirected request is answered
  404 (`PrefixedCallbackPathNotFound`).

## Model

| member | source | states |
|---|---|---|
| MonzoOAuth.RouteOf | monzo_oauth.go:156-179 | any non-GET method gives 405 whatever the path; a GET goes to the start handler iff the path is `/token/start`, to the callback handler iff it is `/token/callback`, and gives 404 iff it is neither |
| MonzoOAuth.RedirectURL | monzo_oauth.go:37-39 | the redirect URI is the external URL followed by exactly `/token/callback` |
| MonzoOAuth.RedirectURLReachesCallback | monzo_oauth.go:37-39 | the text after the external URL in the redirect URI is the callback path, which a GET routes to the callback handler |
| MonzoOAuth.PrefixedCallbackPathNotFound | monzo_oauth.go:156-179 | a GET whose path is a non-empty prefix followed by the callback path is routed to 404 |
| MonzoOAuth.StartQuery | monzo_oauth.go:47-52 | the authorisation query: `client_id`, `redirect_uri`, `state` and `response_type=code` joined by `&`, values unescaped (its read-back is `StartQueryRoundTrip`) |
| MonzoOAuth.StartLocation | monzo_oauth.go:53 | the redirect target is the authorisation endpoint `https://auth.monzo.com` followed directly by `?`, and its query (after that first `?`) is exactly the start query, so the host and the whole location are fixed |
| MonzoOAuth.StartLocationDetermined | monzo_oauth.go:53 | any string that starts with `https://auth.monzo.com?` and whose query is the start query is the start location itself |
| MonzoOAuth.StartQueryRoundTrip | monzo_oauth.go:47-53 | the authorisation query reads back as exactly client_id, redirect_uri, state and response_type=code, in that order, when no value contains `&` |
| MonzoOAuth.SplitJoin | monzo_oauth.go:47-52 | splitting a `&`-joined list of `&`-free parts gives back the parts |
| MonzoOAuth.SplitPairAtFirstEquals | monzo_oauth.go:47-52 | a `key=value` parameter with an `=`-free key is read back as (key, value) |
| MonzoOAuth.CookieValue | monzo_oauth.go:60-66 | the state cookie is found iff some cookie has that name, and the value found is that of the first cookie with that name |
| MonzoOAuth.CheckCallback | monzo_oauth.go:59-91 | 400 when the state cookie is missing, when `state` is absent or not single, when it differs from the cookie, or when `code` is absent, not single or empty; when all checks pass, the single non-empty code is passed on |
| MonzoOAuth.EchoedStatePassesChecks | monzo_oauth.go:68-91 | a callback echoing the cookie's state in the query, with a non-empty code, passes every check |
| MonzoOAuth.ExchangeFor | monzo_oauth.go:95-101 | the POST form of the code exchange: grant type `authorization_code`, the client id and secret, the redirect URI and the received code |
| MonzoOAuth.ExchangeMatchesStartRedirect | monzo_oauth.go:47-53 | the code exchange carries the same client id and redirect URI that the start redirect's query carried, the grant type `authorization_code` and the received code |
| MonzoOAuth.TruncateToInt | monzo_oauth.go:131-133 | the float-to-integer conversion truncates toward zero |
| MonzoOAuth.ExpiryAfter | monzo_oauth.go:131-133 | the expiry is `now` plus the reported lifetime less 300 seconds, truncated toward zero to whole seconds (rounded down when the difference is positive, up when it is negative) |
| MonzoOAuth.OneHourTokenExpiry | monzo_oauth.go:131-133 | a 3600-second token is recorded as expiring 3300 seconds from now |
| MonzoOAuth.Callback | monzo_oauth.go:59-154 | 400 iff a request check fails; 500 iff the POST fails or its body does not decode; a record is accepted iff the POST returns a decodable body, and it holds the reply's access token, refresh token and user id and expiry `ExpiryAfter(now, expires_in)`; a rejection is 400 or 500, so the status is always 201, 400 or 500 |
| MonzoOAuth.CallbackIgnoresExchangeStatus | monzo_oauth.go:110-129 | two token-endpoint replies that differ only in HTTP status give the same outcome |
| MonzoOAuth.Answer | monzo_oauth.go:240-243 | the refresh call made for a record: the client id and secret with the record's access and refresh tokens |
| MonzoOAuth.AnswerDependsOnTokenPair | monzo_oauth.go:240-243 | the refresh answer depends only on the record's token pair, not on its user id or expiry |
| MonzoOAuth.RefreshTick | monzo_oauth.go:217-260 | keeps the box length; an empty box is a no-op without error; on success the tail moves up and the refreshed head goes last; on failure an error is returned and the box is unchanged |
| MonzoOAuth.RefreshTickPermutes | monzo_oauth.go:233-258 | a successful tick is a permutation of the box, with the head exchanged for its refreshed value |
| MonzoOAuth.Answers | monzo_oauth.go:240-243 | the refreshed values, one per record, keep the box length |
| MonzoOAuth.AnswersAt | monzo_oauth.go:240-243 | the i-th refreshed value is the refresh of the i-th record |
| MonzoOAuth.RoundRobinFrom | monzo_oauth.go:217-260 | successful ticks over `pending + done` leave `done` followed by the refreshed `pending`, in order |
| MonzoOAuth.SubmittedFrom | monzo_oauth.go:233-243 | those ticks send exactly the records of `pending`, in order, to the refresh service |
| MonzoOAuth.RoundRobin | monzo_oauth.go:217-260 | with N successful refreshes on a box of N records, each original record is refreshed exactly once, head first, and the box ends in the original order with every record refreshed |
| MonzoOAuth.FailingHeadStaysAtHead | monzo_oauth.go:240-250 | while the head's refresh fails, the box never changes and every attempt retries the same head record |
| MonzoOAuth.OAuthClient.Listen | monzo_oauth.go:202-206 | the client starts with an empty token box |
| MonzoOAuth.OAuthClient.GetAccessTokens | monzo_oauth.go:181-200 | never errors, changes nothing, and returns one access token per record, in box order |
| MonzoOAuth.OAuthClient.HandleJourneyCallback | monzo_oauth.go:59-154 | answers `Callback`'s status; appends exactly its record at the tail on acceptance and leaves the box unchanged otherwise |
| MonzoOAuth.OAuthClient.ServeHTTP | monzo_oauth.go:156-179 | non-GET is 405 and unknown paths 404; the start path is a 302 to `StartLocation(config, state)` with the state cookie set to `state`; none of these changes the box or redirects elsewhere; the callback path behaves as `HandleJourneyCallback` |
| MonzoOAuth.OAuthClient.RefreshAToken | monzo_oauth.go:217-260 | the box becomes `RefreshTick`'s box and the error is its error; a successful refresh sets the access-token-expiry gauge of the refreshed user to its expiry, and otherwise no metric changes |
| MonzoMetrics.WithCurrentBalance | monzo_metrics.go:91-107 | the (user_id, account_id) series of monzo_current_balance holds the balance, no other series changes, and every other vector is unchanged |
| MonzoMetrics.WithTotalBalance | monzo_metrics.go:109-125 | the same, for monzo_total_balance |
| MonzoMetrics.WithSpendToday | monzo_metrics.go:127-143 | the same, for monzo_spend_today |
| MonzoMetrics.WithPotBalance | monzo_metrics.go:145-163 | the (user_id, pot_id, pot_name) series of monzo_pot_balance holds the balance, with the same frame |
| MonzoMetrics.WithUserLatestCollect | monzo_metrics.go:165-178 | the user's series of monzo_user_latest_collect holds the supplied current unix time, with the same frame |
| MonzoMetrics.WithAccessTokenExpiry | monzo_metrics.go:180-194 | the user's series of monzo_access_token_expiry holds the expiry's unix seconds, with the same frame |
| MonzoMetrics.WithIncrement | monzo_metrics.go:196-211 | the (decimal code, endpoint) counter rises by exactly 1, from 0 when unseen; every other counter series and every other vector is unchanged |
| MonzoMetrics.WithTransactionsAmountToday | monzo_metrics.go:213-232 | the (user_id, account_id, description, category) series holds the summary's amount, with the same frame |
| MonzoMetrics.WithTransactionsReset | monzo_metrics.go:234-238 | the transactions vector has no series left, and every other vector is unchanged |
| MonzoMetrics.CurrentBalanceSetIdempotent | monzo_metrics.go:101-106 | setting a current-balance series twice to the same value equals setting it once |
| MonzoMetrics.TotalBalanceSetIdempotent | monzo_metrics.go:119-124 | the same, for total balance |
| MonzoMetrics.SpendTodaySetIdempotent | monzo_metrics.go:137-142 | the same, for spend today |
| MonzoMetrics.PotBalanceSetIdempotent | monzo_metrics.go:156-162 | the same, for pot balance |
| MonzoMetrics.GaugeLastWriteWins | monzo_metrics.go:101-106 | a second set replaces the first; gauges do not accumulate |
| MonzoMetrics.IncrementTwiceAddsTwo | monzo_metrics.go:205-210 | two increments of one series raise it by two |
| MonzoMetrics.NatDecimal | monzo_metrics.go:208 | the decimal digits of a natural number are non-empty digits without a leading zero |
| MonzoMetrics.DecimalString | monzo_metrics.go:208 | the `%d` rendering is non-empty and starts with `-` iff the number is negative |
| MonzoMetrics.NatDecimalValue | monzo_metrics.go:208 | the digits denote the number they render |
| MonzoMetrics.DecimalRoundTrip | monzo_metrics.go:208 | parsing the `%d` rendering gives back the code |
| MonzoMetrics.DistinctCodesDistinctSeries | monzo_metrics.go:205-210 | distinct response codes are counted in distinct series |
| MonzoMetrics.IncrementLeavesOtherCodes | monzo_metrics.go:196-211 | incrementing one code never moves the count of another code |
| MonzoMetrics.MetricVectors.constructor | monzo_metrics.go:11-77 | every vector starts with no series |
| MonzoMetrics.MetricVectors.SetCurrentBalance | monzo_metrics.go:91-107 | the vectors become `WithCurrentBalance` of the old ones |
| MonzoMetrics.MetricVectors.SetTotalBalance | monzo_metrics.go:109-125 | the vectors become `WithTotalBalance` of the old ones |
| MonzoMetrics.MetricVectors.SetSpendToday | monzo_metrics.go:127-143 | the vectors become `WithSpendToday` of the old ones |
| MonzoMetrics.MetricVectors.SetPotBalance | monzo_metrics.go:145-163 | the vectors become `WithPotBalance` of the old ones |
| MonzoMetrics.MetricVectors.SetUserLatestCollect | monzo_metrics.go:165-178 | the vectors become `WithUserLatestCollect` of the old ones, at the supplied time |
| MonzoMetrics.MetricVectors.SetAccessTokenExpiry | monzo_metrics.go:180-194 | the vectors become `WithAccessTokenExpiry` of the old ones |
| MonzoMetrics.MetricVectors.IncMonzoAPIResponseCode | monzo_metrics.go:196-211 | the vectors become `WithIncrement` of the old ones |
| MonzoMetrics.MetricVectors.SetTransactionsAmountToday | monzo_metrics.go:213-232 | the vectors become `WithTransactionsAmountToday` of the old ones |
| MonzoMetrics.MetricVectors.ResetTransactionsAmountToday | monzo_metrics.go:234-238 | the vectors become `WithTransactionsReset` of the old ones |
| MonzoCollector.PotWrites | monzo_collector.go:44-46 | the pot loop's log: one pot-balance write per pot, in listing order |
| MonzoCollector.WalkAccounts | monzo_collector.go:24-34 | the account loop's log: for each account in order, its three balance writes; the first balance error stops the loop with a panic |
| MonzoCollector.CollectAccounts | monzo_collector.go:17-34 | a failed account listing panics with no writes; otherwise the account loop |
| MonzoCollector.CollectPots | monzo_collector.go:37-47 | a failed pot listing panics with no writes; otherwise the pot loop, which cannot panic |
| MonzoCollector.CollectToken | monzo_collector.go:4-13 | one token: an identity error panics with no writes; otherwise the account walk, then, unless it panicked, the pot walk |
| MonzoCollector.CollectAll | monzo_collector.go:3-15 | the whole walk: the tokens in order, each token's log appended, stopping at the first panic |
| MonzoCollector.CurrentBalanceWriteIsSetter | monzo_collector.go:31 | a current-balance write in the walk's log is exactly `SetCurrentBalance` |
| MonzoCollector.TotalBalanceWriteIsSetter | monzo_collector.go:32 | a total-balance write is exactly `SetTotalBalance` |
| MonzoCollector.SpendTodayWriteIsSetter | monzo_collector.go:33 | a spend-today write is exactly `SetSpendToday` |
| MonzoCollector.PotWriteIsSetter | monzo_collector.go:45 | a pot write is exactly `SetPotBalance` |
| MonzoCollector.ApplyAccountWrites | monzo_collector.go:31-33 | an account's three writes are the three setters in source order |
| MonzoCollector.PanicIsFinal | monzo_collector.go:3-15 | once the walk has panicked, later tokens change nothing |
| MonzoCollector.IdentityErrorStopsWalk | monzo_collector.go:6-10 | an identity error at token k aborts the walk with only tokens 0..k-1 written; no later token is touched |
| MonzoCollector.CollectAllConcat | monzo_collector.go:4-15 | tokens are walked in input order: the walk over `first + second` is the walk over `first` followed by the walk over `second` |
| MonzoCollector.ThenAssociative | monzo_collector.go:4-15 | chaining walks is associative |
| MonzoCollector.WalkAccountsOnlyAccountWrites | monzo_collector.go:24-34 | the account loop writes only account gauges, all labelled with the identity's user id |
| MonzoCollector.PotWritesOnlyPotWrites | monzo_collector.go:44-46 | the pot loop writes one pot-balance series per pot, in order, keyed by (user id, pot id, pot name), with the pot's balance |
| MonzoCollector.TokenWritesOrdered | monzo_collector.go:12-13 | within a token every write carries the identity's user id, and every account write precedes every pot write |
| MonzoCollector.WritesCarryIdentityUser | monzo_collector.go:31-45 | every series the walk writes is labelled with the user id of some token's identity |
| MonzoCollector.AccountsWrittenInOrder | monzo_collector.go:24-34 | with all balances available, account i is written at log positions 3i..3i+2 as current, total and spend today from its own balance |
| MonzoCollector.BalanceErrorStopsAccounts | monzo_collector.go:24-29 | a balance error at account k aborts with exactly the writes of accounts 0..k-1 |
| MonzoCollector.BalanceErrorSkipsPots | monzo_collector.go:12-29 | after a balance error the token's log holds only account writes, no pot writes, and the walk has panicked |
| MonzoCollector.ListErrorsAbort | monzo_collector.go:17-42 | a failed account listing aborts before any write for the token; a failed pot listing aborts after the account writes, with no pot write |
| MonzoCollector.ApplyAllConcat | monzo_collector.go:4-15 | performing two logs in turn is performing their concatenation |
| MonzoCollector.AccountGaugeOverrides | monzo_collector.go:31-33 | each account gauge ends as its old series overridden by the last value the log wrote to each series |
| MonzoCollector.PotGaugeOverrides | monzo_collector.go:45 | the pot gauge ends as its old series overridden by the last value written to each series |
| MonzoCollector.WalkTouchesOnlyBalanceGauges | monzo_collector.go:17-47 | the transactions, latest-collect, token-expiry and response-code vectors are untouched by the walk |
| MonzoCollector.ApplyAllOverrides | monzo_collector.go:17-47 | the registry after the walk is the old one with the four balance gauges overridden by the last values written and nothing else changed |
| MonzoCollector.ApplyAllIdempotent | monzo_collector.go:31-45 | performing a log twice leaves the same registry as performing it once |
| MonzoCollector.CollectAllIdempotent | monzo_collector.go:3-47 | running the walk twice on identical upstream answers leaves the same registry as running it once |
| MonzoCollector.PotsWritten | monzo_collector.go:44-46 | each listed pot's series holds its balance; of pots sharing a series, the last listed wins |
| MonzoCollector.OneAccountOnePotScenario | monzo_collector.go:3-47 | one token with one account and one pot, collected into empty vectors, gives exactly four series, all labelled with the identity's user id |
| MonzoCollector.CollectPotMetrics | monzo_collector.go:36-47 | reports a panic iff the pot listing fails, and leaves the vectors as the pot writes applied to the old ones |
| MonzoCollector.CollectAccountMetrics | monzo_collector.go:17-34 | reports a panic iff the listing or some balance fails, and leaves the vectors as the account loop's writes applied to the old ones |
| MonzoCollector.CollectAllMetrics | monzo_collector.go:3-15 | reports a panic iff the walk panics, and leaves the vectors as the whole walk's log applied to the old ones |

## Left out

- HTTP mechanics: header encoding of the redirect and the cookie (Go's `http.Redirect` percent-escapes bytes outside ASCII in `Location`, for instance), response bodies and the multipart encoding of the POST. The status codes, the redirect location, the state cookie's name and value, and the POST's form fields are modelled.
- Upstream answers are functions of the call's arguments: within one walk, a token or account id listed twice gets the same answer each time, which live calls to the Monzo API need not give.
- `generateRandomState`: cryptographic randomness and hex encoding. The state is a parameter.
- The `sync.Mutex` around the token box: each locked region is one atomic method, and concurrency is not modelled.
- The refresh call `RefreshToken` and the code-exchange POST: their code is not part of this model. They are oracles passed in as function values.
- `monzo_api.go`: HTTP and JSON decoding. Each API call is a `Result` in `Upstream`, so a transport error and a decode error are the same `Err`.
- Logging: every `log.Printf` is left out.
- Floating point: metric values are stored as `float64` in the source and as unbounded integers here. `expires_in` is a `real`, so `float64` rounding is not modelled.
- Integer widths: `int64` amounts and `time.Duration` arithmetic do not overflow here.
- Time: expiries and timestamps are whole unix seconds, so sub-second precision is dropped. `time.Now()` is the parameter `now`.
- URL and header parsing: the request's escaped path, its decoded query map and its parsed cookie list are inputs. URL decoding is not modelled, and neither is the `Cookie` header parsing behind `r.Cookie`, which skips cookies with invalid names or values and unquotes values.
- MonzoOAuth.OAuthClient.RefreshAToken: the refresh call is an oracle assumed to write no metric, in particular no response-code count, so the frame "only the expiry gauge changes on success, nothing on failure" holds under that assumption; the code of `RefreshToken` is not part of this model.
- `RegisterCustomMetrics`: global Prometheus registration. The metric help texts are also left out.
- `main.go`: flags, supervision, the metrics server and the ticker goroutine. The ticker only logs and never calls `RefreshAToken`.
- `metrics.go` and `types.go`: an earlier revision of the same setters and records. The `monzo_metrics.go` model covers them.
- The transactions summary grouping code: not part of this model. Only its setter is modelled.
