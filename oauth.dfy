/**
 * The OAuth side of the exporter (monzo_oauth.go): the HTTP routing of the
 * token journey, the checks on the callback request, the construction of the
 * authorisation redirect, and the token box with its three operations
 * (append on callback, snapshot of the access tokens, refresh-and-rotate).
 *
 * The code-exchange POST and the refresh call are oracles passed in as
 * function values; the clock is the parameter `now` (unix seconds); the
 * random state is the parameter `state`.
 */
module MonzoOAuth {

  import opened MonzoTypes
  import opened MonzoMetrics

  const StateCookieName := "monzo_exporter_state"
  const StartPath := "/token/start"
  const CallbackPath := "/token/callback"
  const AuthorizeURL := "https://auth.monzo.com"
  /** Seconds taken off the lifetime the token endpoint reports. */
  const ExpiryMarginSeconds := 300

  /** The client's fixed configuration. */
  datatype ClientConfig = ClientConfig(clientID: string, clientSecret: string, externalURL: string)

  /** What the handlers look at in an incoming request. `path` is the escaped path. */
  datatype Request = Request(
    verb: string,
    path: string,
    cookies: seq<(string, string)>,
    query: map<string, seq<string>>)

  // ---------------------------------------------------------------------
  // Routing (ServeHTTP).
  // ---------------------------------------------------------------------

  datatype Route = MethodNotAllowed | JourneyStart | JourneyCallback | NotFound

  function RouteOf(verb: string, path: string): (r: Route)
    ensures verb != "GET" ==> r == MethodNotAllowed
    ensures verb == "GET" ==> (r == JourneyStart <==> path == StartPath)
    ensures verb == "GET" ==> (r == JourneyCallback <==> path == CallbackPath)
    ensures verb == "GET" ==> (r == NotFound <==> path != StartPath && path != CallbackPath)
  {
    if verb != "GET" then MethodNotAllowed
    else if path == StartPath then JourneyStart
    else if path == CallbackPath then JourneyCallback
    else NotFound
  }

  // ---------------------------------------------------------------------
  // The journey start: redirect URI and authorisation query.
  // ---------------------------------------------------------------------

  function RedirectURL(externalURL: string): (r: string)
    ensures |r| == |externalURL| + |CallbackPath|
    ensures r[..|externalURL|] == externalURL && r[|externalURL|..] == CallbackPath
  {
    externalURL + CallbackPath
  }

  /** The text after the external URL in the redirect URI is routed to the callback handler. */
  lemma RedirectURLReachesCallback(externalURL: string)
    ensures RouteOf("GET", RedirectURL(externalURL)[|externalURL|..]) == JourneyCallback
  {
  }

  /**
   * The callback is served only at the root: when the external URL carries a
   * path of its own (a trailing `/` included), the request path the redirect
   * leads to is that path followed by `/token/callback`, and it is answered 404.
   */
  lemma PrefixedCallbackPathNotFound(prefix: string)
    requires prefix != []
    ensures RouteOf("GET", prefix + CallbackPath) == NotFound
  {
  }

  function Join(parts: seq<string>, sep: char): string
    decreases |parts|
  {
    if |parts| == 0 then ""
    else if |parts| == 1 then parts[0]
    else parts[0] + [sep] + Join(parts[1..], sep)
  }

  /** Go's `strings.Split` with a one-character separator: every occurrence separates. */
  function Split(s: string, sep: char): (parts: seq<string>)
    ensures |parts| > 0
    decreases |s|
  {
    if |s| == 0 then [""]
    else
      var rest := Split(s[1..], sep);
      if s[0] == sep then [""] + rest else [[s[0]] + rest[0]] + rest[1..]
  }

  /** A query parameter `key=value`, cut at its first `=`; without `=`, the value is empty. */
  function SplitPair(part: string): (kv: (string, string))
    decreases |part|
  {
    if |part| == 0 then ("", "")
    else if part[0] == '=' then ("", part[1..])
    else var kv := SplitPair(part[1..]); ([part[0]] + kv.0, kv.1)
  }

  /** A query string read back as its ordered (key, value) pairs. */
  function ParseQuery(q: string): (pairs: seq<(string, string)>)
    ensures |pairs| == |Split(q, '&')|
  {
    var parts := Split(q, '&');
    seq(|parts|, i requires 0 <= i < |parts| => SplitPair(parts[i]))
  }

  function StartQuery(config: ClientConfig, state: string): string {
    Join(["client_id=" + config.clientID,
          "redirect_uri=" + RedirectURL(config.externalURL),
          "state=" + state,
          "response_type=" + "code"], '&')
  }

  /** The query of a URL: the text after its first `?`, or empty when it has none. */
  function QueryOf(url: string): string
    decreases |url|
  {
    if |url| == 0 then ""
    else if url[0] == '?' then url[1..]
    else QueryOf(url[1..])
  }

  lemma {:induction false} QueryOfAfterBase(base: string, query: string)
    requires '?' !in base
    ensures QueryOf(base + "?" + query) == query
    decreases |base|
  {
    var url := base + "?" + query;
    if |base| == 0 {
      assert url[1..] == query;
    } else {
      assert url[1..] == base[1..] + "?" + query;
      QueryOfAfterBase(base[1..], query);
    }
  }

  /**
   * Where the journey start sends the user: the authorisation endpoint, whose
   * query is the start query. The state also goes into the state cookie.
   */
  function StartLocation(config: ClientConfig, state: string): (location: string)
    ensures |location| > |AuthorizeURL| && location[..|AuthorizeURL| + 1] == AuthorizeURL + "?"
    ensures QueryOf(location) == StartQuery(config, state)
  {
    assert forall i :: 0 <= i < |AuthorizeURL| ==> AuthorizeURL[i] != '?';
    QueryOfAfterBase(AuthorizeURL, StartQuery(config, state));
    AuthorizeURL + "?" + StartQuery(config, state)
  }

  /** The two clauses of `StartLocation` pin the location down completely. */
  lemma StartLocationDetermined(config: ClientConfig, state: string, location: string)
    requires |location| > |AuthorizeURL| && location[..|AuthorizeURL| + 1] == AuthorizeURL + "?"
    requires QueryOf(location) == StartQuery(config, state)
    ensures location == StartLocation(config, state)
  {
    var n := |AuthorizeURL|;
    assert location == AuthorizeURL + "?" + location[n + 1..];
    assert forall i :: 0 <= i < n ==> AuthorizeURL[i] != '?';
    QueryOfAfterBase(AuthorizeURL, location[n + 1..]);
  }

  lemma {:induction false} SplitWithoutSeparator(a: string, sep: char)
    requires sep !in a
    ensures Split(a, sep) == [a]
    decreases |a|
  {
    if |a| > 0 {
      SplitWithoutSeparator(a[1..], sep);
      assert [a[0]] + a[1..] == a;
    }
  }

  lemma {:induction false} SplitAtSeparator(a: string, sep: char, t: string)
    requires sep !in a
    ensures Split(a + [sep] + t, sep) == [a] + Split(t, sep)
    decreases |a|
  {
    var s := a + [sep] + t;
    if |a| == 0 {
      assert s[1..] == t;
    } else {
      assert s[1..] == a[1..] + [sep] + t;
      SplitAtSeparator(a[1..], sep, t);
      assert [a[0]] + a[1..] == a;
    }
  }

  /** Splitting a join gives back the parts, provided no part contains the separator. */
  lemma {:induction false} SplitJoin(parts: seq<string>, sep: char)
    requires |parts| > 0
    requires forall i :: 0 <= i < |parts| ==> sep !in parts[i]
    ensures Split(Join(parts, sep), sep) == parts
    decreases |parts|
  {
    if |parts| == 1 {
      SplitWithoutSeparator(parts[0], sep);
    } else {
      SplitJoin(parts[1..], sep);
      SplitAtSeparator(parts[0], sep, Join(parts[1..], sep));
      assert [parts[0]] + parts[1..] == parts;
    }
  }

  lemma {:induction false} SplitPairAtFirstEquals(key: string, value: string)
    requires '=' !in key
    ensures SplitPair(key + "=" + value) == (key, value)
    decreases |key|
  {
    var s := key + "=" + value;
    if |key| == 0 {
      assert s[1..] == value;
    } else {
      assert s[1..] == key[1..] + "=" + value;
      SplitPairAtFirstEquals(key[1..], value);
      assert [key[0]] + key[1..] == key;
    }
  }

  /** Helper: the start query splits back into its four `key=value` parameters. */
  lemma StartQueryParts(config: ClientConfig, state: string)
    requires '&' !in config.clientID && '&' !in config.externalURL && '&' !in state
    ensures Split(StartQuery(config, state), '&')
         == ["client_id=" + config.clientID, "redirect_uri=" + RedirectURL(config.externalURL),
             "state=" + state, "response_type=" + "code"]
  {
    var redirect := RedirectURL(config.externalURL);
    assert '&' !in redirect by {
      assert redirect == config.externalURL + CallbackPath;
      assert forall i :: 0 <= i < |CallbackPath| ==> CallbackPath[i] != '&';
    }
    var parts := ["client_id=" + config.clientID, "redirect_uri=" + redirect,
                  "state=" + state, "response_type=" + "code"];
    assert '&' !in parts[0] && '&' !in parts[1] && '&' !in parts[2] && '&' !in parts[3];
    SplitJoin(parts, '&');
  }

  /**
   * The authorisation query reads back as exactly the four parameters it was
   * built from, in order, as long as no value contains `&` (the values are not
   * URL-escaped).
   */
  lemma StartQueryRoundTrip(config: ClientConfig, state: string)
    requires '&' !in config.clientID && '&' !in config.externalURL && '&' !in state
    ensures ParseQuery(StartQuery(config, state))
         == [("client_id", config.clientID),
             ("redirect_uri", RedirectURL(config.externalURL)),
             ("state", state),
             ("response_type", "code")]
  {
    var redirect := RedirectURL(config.externalURL);
    var parts := ["client_id=" + config.clientID, "redirect_uri=" + redirect,
                  "state=" + state, "response_type=" + "code"];
    StartQueryParts(config, state);
    assert parts[0] == "client_id" + "=" + config.clientID;
    assert parts[1] == "redirect_uri" + "=" + redirect;
    assert parts[2] == "state" + "=" + state;
    assert parts[3] == "response_type" + "=" + "code";
    SplitPairAtFirstEquals("client_id", config.clientID);
    SplitPairAtFirstEquals("redirect_uri", redirect);
    SplitPairAtFirstEquals("state", state);
    SplitPairAtFirstEquals("response_type", "code");
    var pairs := ParseQuery(StartQuery(config, state));
    assert |pairs| == 4;
    assert pairs[0] == SplitPair(parts[0]) && pairs[1] == SplitPair(parts[1]);
    assert pairs[2] == SplitPair(parts[2]) && pairs[3] == SplitPair(parts[3]);
  }

  // ---------------------------------------------------------------------
  // The journey callback: request checks and the code exchange.
  // ---------------------------------------------------------------------

  /** `Request.Cookie`: the value of the first cookie with that name. */
  function CookieValue(cookies: seq<(string, string)>, name: string): (v: Option<string>)
    ensures v.Some? <==> exists i :: 0 <= i < |cookies| && cookies[i].0 == name
    ensures v.Some? ==> exists i :: 0 <= i < |cookies| && cookies[i] == (name, v.value)
                                   && forall j :: 0 <= j < i ==> cookies[j].0 != name
    decreases |cookies|
  {
    if |cookies| == 0 then None
    else if cookies[0].0 == name then Some(cookies[0].1)
    else
      var v := CookieValue(cookies[1..], name);
      assert forall i :: 1 <= i < |cookies| ==> cookies[i] == cookies[1..][i - 1];
      assert v.Some? ==> exists i :: 1 <= i < |cookies| && cookies[i] == (name, v.value)
                                   && forall j :: 0 <= j < i ==> cookies[j].0 != name by {
        if v.Some? {
          var k :| 0 <= k < |cookies| - 1 && cookies[1..][k] == (name, v.value)
                   && forall j :: 0 <= j < k ==> cookies[1..][j].0 != name;
          assert cookies[k + 1] == (name, v.value);
          assert forall j :: 1 <= j < k + 1 ==> cookies[j].0 != name by {
            forall j | 1 <= j < k + 1 ensures cookies[j].0 != name {
              assert cookies[j] == cookies[1..][j - 1];
            }
          }
        }
      }
      v
  }

  /** The query carries exactly one value under `key`. */
  predicate SingleValue(query: map<string, seq<string>>, key: string) {
    key in query && |query[key]| == 1
  }

  datatype CallbackCheck = BadRequest(message: string) | CodeReceived(code: string)

  /** The four checks the callback makes before contacting the token endpoint, in order. */
  function CheckCallback(req: Request): (c: CallbackCheck)
    ensures CookieValue(req.cookies, StateCookieName).None? ==> c.BadRequest?
    ensures !SingleValue(req.query, "state") ==> c.BadRequest?
    ensures (&& SingleValue(req.query, "state") && CookieValue(req.cookies, StateCookieName).Some?
             && req.query["state"][0] != CookieValue(req.cookies, StateCookieName).value) ==> c.BadRequest?
    ensures !SingleValue(req.query, "code") || req.query["code"][0] == "" ==> c.BadRequest?
    ensures c.CodeReceived? ==> SingleValue(req.query, "code") && c.code == req.query["code"][0] && c.code != ""
    ensures && CookieValue(req.cookies, StateCookieName).Some?
            && SingleValue(req.query, "state")
            && req.query["state"][0] == CookieValue(req.cookies, StateCookieName).value
            && SingleValue(req.query, "code") && req.query["code"][0] != ""
            ==> c.CodeReceived?
  {
    var cookie := CookieValue(req.cookies, StateCookieName);
    if cookie.None? then BadRequest("400 - No " + StateCookieName + " cookie set")
    else if !SingleValue(req.query, "state") then BadRequest("400 - state not retrievable")
    else if req.query["state"][0] != cookie.value then BadRequest("400 - cookie state and Monzo state differ")
    else if !SingleValue(req.query, "code") || req.query["code"][0] == "" then
      BadRequest("400 - Monzo auth code not retrievable")
    else CodeReceived(req.query["code"][0])
  }

  /**
   * A callback that echoes the state the journey start issued, in the cookie
   * and in the query, together with a non-empty code, passes the checks.
   */
  lemma EchoedStatePassesChecks(state: string, code: string, cookies: seq<(string, string)>)
    requires code != ""
    requires CookieValue(cookies, StateCookieName) == Some(state)
    ensures CheckCallback(Request("GET", CallbackPath, cookies, map["state" := [state], "code" := [code]]))
         == CodeReceived(code)
  {
  }

  /** The form fields of the code-exchange POST. */
  datatype ExchangeRequest = ExchangeRequest(
    grantType: string, clientID: string, clientSecret: string, redirectURI: string, code: string)

  /** The POST either fails in transport, or returns a status and a body that may not decode. */
  datatype ExchangeReply = PostFailed | PostReturned(statusCode: int, body: Option<AuthResponse>)

  function ExchangeFor(config: ClientConfig, code: string): ExchangeRequest {
    ExchangeRequest("authorization_code", config.clientID, config.clientSecret, RedirectURL(config.externalURL), code)
  }

  /**
   * The code exchange names the same client and the same redirect URI as the
   * journey start's redirect did, which the authorisation server compares.
   */
  lemma ExchangeMatchesStartRedirect(config: ClientConfig, state: string, code: string)
    requires '&' !in config.clientID && '&' !in config.externalURL && '&' !in state
    ensures var params := ParseQuery(QueryOf(StartLocation(config, state)));
            var exchange := ExchangeFor(config, code);
            && exchange.grantType == "authorization_code" && exchange.code == code
            && |params| == 4
            && params[0] == ("client_id", exchange.clientID)
            && params[1] == ("redirect_uri", exchange.redirectURI)
  {
    StartQueryRoundTrip(config, state);
  }

  /** Go's conversion of a `float64` to an integer type: truncation toward zero. */
  function TruncateToInt(x: real): (n: int)
    ensures x >= 0.0 ==> n as real <= x < n as real + 1.0
    ensures x < 0.0 ==> n as real - 1.0 < x <= n as real
  {
    if x >= 0.0 then x.Floor else -((-x).Floor)
  }

  /** `now` plus the reported lifetime less the margin, in whole seconds. */
  function ExpiryAfter(now: int, expirySeconds: real): (t: int)
    ensures expirySeconds >= ExpiryMarginSeconds as real ==>
              now as real + expirySeconds - ExpiryMarginSeconds as real - 1.0 < t as real
              <= now as real + expirySeconds - ExpiryMarginSeconds as real
    ensures expirySeconds < ExpiryMarginSeconds as real ==>
              now as real + expirySeconds - ExpiryMarginSeconds as real <= t as real
              < now as real + expirySeconds - ExpiryMarginSeconds as real + 1.0
  {
    now + TruncateToInt(expirySeconds - ExpiryMarginSeconds as real)
  }

  /** A token reported to live for an hour is recorded as expiring 3300 seconds from now. */
  lemma OneHourTokenExpiry(now: int)
    ensures ExpiryAfter(now, 3600.0) == now + 3300
  {
  }

  datatype CallbackOutcome = Respond(status: int, message: string) | Accept(record: TokenRecord)

  function StatusOf(o: CallbackOutcome): int {
    if o.Accept? then 201 else o.status
  }

  /** The callback's decision: a rejection with its status, or the record to append. */
  function Callback(config: ClientConfig, req: Request, exchange: ExchangeRequest -> ExchangeReply, now: int)
    : (o: CallbackOutcome)
    ensures CheckCallback(req).BadRequest? <==> (o.Respond? && o.status == 400)
    ensures CheckCallback(req).CodeReceived? ==>
              var reply := exchange(ExchangeFor(config, CheckCallback(req).code));
              && ((o.Respond? && o.status == 500) <==> (reply.PostFailed? || reply.body.None?))
              && (o.Accept? ==>
                    && reply.PostReturned? && reply.body.Some?
                    && o.record.accessToken == reply.body.value.accessToken
                    && o.record.refreshToken == reply.body.value.refreshToken
                    && o.record.userID == reply.body.value.userID
                    && o.record.expiryTime == ExpiryAfter(now, reply.body.value.expirySeconds))
    ensures CheckCallback(req).CodeReceived? ==>
              var reply := exchange(ExchangeFor(config, CheckCallback(req).code));
              (o.Accept? <==> reply.PostReturned? && reply.body.Some?)
    ensures o.Respond? ==> o.status in {400, 500}
    ensures StatusOf(o) in {201, 400, 500}
  {
    match CheckCallback(req)
    case BadRequest(message) => Respond(400, message)
    case CodeReceived(code) =>
      match exchange(ExchangeFor(config, code))
      case PostFailed => Respond(500, "500 - Error making request to Monzo")
      case PostReturned(_, None) => Respond(500, "500 - could not unmarshal JSON from Monzo")
      case PostReturned(_, Some(auth)) =>
        Accept(TokenRecord(auth.accessToken, auth.refreshToken, auth.userID,
                           ExpiryAfter(now, auth.expirySeconds)))
  }

  /**
   * The token endpoint's HTTP status is only logged: two replies that differ
   * only in status lead to the same outcome, so an error status whose body
   * still decodes is accepted.
   */
  lemma CallbackIgnoresExchangeStatus(
    config: ClientConfig, req: Request, e1: ExchangeRequest -> ExchangeReply,
    e2: ExchangeRequest -> ExchangeReply, now: int)
    requires forall x :: e1(x).PostFailed? == e2(x).PostFailed?
    requires forall x :: e1(x).PostReturned? && e2(x).PostReturned? ==> e1(x).body == e2(x).body
    ensures Callback(config, req, e1, now) == Callback(config, req, e2, now)
  {
    if CheckCallback(req).CodeReceived? {
      var x := ExchangeFor(config, CheckCallback(req).code);
      assert e1(x).PostFailed? == e2(x).PostFailed?;
    }
  }

  // ---------------------------------------------------------------------
  // Refresh and rotation of the token box, as functions of its contents.
  // ---------------------------------------------------------------------

  /** The refresh call: (client id, client secret, access token, refresh token) to a new record. */
  type Refresher = (string, string, string, string) -> Result<TokenRecord>

  /** The refresh service's answer for one record. */
  function Answer(config: ClientConfig, refresh: Refresher, t: TokenRecord): Result<TokenRecord> {
    refresh(config.clientID, config.clientSecret, t.accessToken, t.refreshToken)
  }

  /** The refresh call sends only the token pair: records agreeing on it get the same answer. */
  lemma AnswerDependsOnTokenPair(config: ClientConfig, refresh: Refresher, t: TokenRecord, u: TokenRecord)
    requires t.accessToken == u.accessToken && t.refreshToken == u.refreshToken
    ensures Answer(config, refresh, t) == Answer(config, refresh, u)
  {
  }

  datatype Tick = Tick(box: seq<TokenRecord>, error: Option<string>)

  /** One call of `RefreshAToken` on a box holding `box`. */
  function RefreshTick(config: ClientConfig, box: seq<TokenRecord>, refresh: Refresher): (t: Tick)
    ensures |t.box| == |box|
    ensures box == [] ==> t == Tick(box, None)
    ensures box != [] && Answer(config, refresh, box[0]).Ok? ==>
              t.error.None? && t.box[|box| - 1] == Answer(config, refresh, box[0]).value
              && t.box[..|box| - 1] == box[1..]
    ensures box != [] && Answer(config, refresh, box[0]).Err? ==> t.error.Some? && t.box == box
  {
    if box == [] then Tick(box, None)
    else
      match Answer(config, refresh, box[0])
      case Err(e) =>
        Tick(box, Some("Encountered error refreshing token for user " + box[0].userID + " => " + e))
      case Ok(refreshed) => Tick(box[1..] + [refreshed], None)
  }

  /** A successful tick swaps the head for its refreshed value: the box is otherwise a permutation of itself. */
  lemma RefreshTickPermutes(config: ClientConfig, box: seq<TokenRecord>, refresh: Refresher)
    requires box != [] && Answer(config, refresh, box[0]).Ok?
    ensures multiset(RefreshTick(config, box, refresh).box) + multiset{box[0]}
         == multiset(box) + multiset{Answer(config, refresh, box[0]).value}
  {
    assert box == [box[0]] + box[1..];
  }

  /** The box after one tick per refresher, in order. */
  function Ticks(config: ClientConfig, box: seq<TokenRecord>, refreshers: seq<Refresher>): seq<TokenRecord>
    decreases |refreshers|
  {
    if refreshers == [] then box
    else Ticks(config, RefreshTick(config, box, refreshers[0]).box, refreshers[1..])
  }

  /** The record each tick sends to the refresh service, in order. */
  function Submitted(config: ClientConfig, box: seq<TokenRecord>, refreshers: seq<Refresher>): seq<TokenRecord>
    decreases |refreshers|
  {
    if refreshers == [] || box == [] then []
    else [box[0]] + Submitted(config, RefreshTick(config, box, refreshers[0]).box, refreshers[1..])
  }

  /** Every refresher succeeds on the record at the same position. */
  predicate AllAnswered(config: ClientConfig, box: seq<TokenRecord>, refreshers: seq<Refresher>) {
    |refreshers| == |box| && forall i :: 0 <= i < |box| ==> Answer(config, refreshers[i], box[i]).Ok?
  }

  /** The refreshed value of each record, in the order of the records. */
  function Answers(config: ClientConfig, box: seq<TokenRecord>, refreshers: seq<Refresher>): (r: seq<TokenRecord>)
    requires AllAnswered(config, box, refreshers)
    ensures |r| == |box|
    decreases |box|
  {
    if box == [] then []
    else
      AllAnsweredTail(config, box, refreshers);
      [Answer(config, refreshers[0], box[0]).value] + Answers(config, box[1..], refreshers[1..])
  }

  lemma AllAnsweredTail(config: ClientConfig, box: seq<TokenRecord>, refreshers: seq<Refresher>)
    requires box != [] && AllAnswered(config, box, refreshers)
    ensures AllAnswered(config, box[1..], refreshers[1..])
  {
    forall i | 0 <= i < |box| - 1
      ensures Answer(config, refreshers[1..][i], box[1..][i]).Ok?
    {
      assert Answer(config, refreshers[i + 1], box[i + 1]).Ok?;
    }
  }

  /** A successful tick on `pending + done` moves the refreshed head behind `done`. */
  lemma TickMovesHeadBehind(
    config: ClientConfig, pending: seq<TokenRecord>, done: seq<TokenRecord>, refresh: Refresher)
    requires pending != [] && Answer(config, refresh, pending[0]).Ok?
    ensures RefreshTick(config, pending + done, refresh).box
         == pending[1..] + (done + [Answer(config, refresh, pending[0]).value])
  {
    var box := pending + done;
    assert box[0] == pending[0];
    assert box[1..] == pending[1..] + done;
  }

  lemma AnswersUnfold(config: ClientConfig, box: seq<TokenRecord>, refreshers: seq<Refresher>)
    requires box != [] && AllAnswered(config, box, refreshers)
    ensures AllAnswered(config, box[1..], refreshers[1..])
    ensures Answers(config, box, refreshers)
         == [Answer(config, refreshers[0], box[0]).value] + Answers(config, box[1..], refreshers[1..])
  {
    AllAnsweredTail(config, box, refreshers);
  }

  /** Each refreshed value sits at its record's position. */
  lemma {:induction false} AnswersAt(config: ClientConfig, box: seq<TokenRecord>, refreshers: seq<Refresher>)
    requires AllAnswered(config, box, refreshers)
    ensures forall i :: 0 <= i < |box| ==>
              Answers(config, box, refreshers)[i] == Answer(config, refreshers[i], box[i]).value
    decreases |box|
  {
    if box != [] {
      AnswersUnfold(config, box, refreshers);
      AnswersAt(config, box[1..], refreshers[1..]);
      forall i | 1 <= i < |box|
        ensures Answers(config, box, refreshers)[i] == Answer(config, refreshers[i], box[i]).value
      {
        assert Answers(config, box, refreshers)[i] == Answers(config, box[1..], refreshers[1..])[i - 1];
        assert box[1..][i - 1] == box[i] && refreshers[1..][i - 1] == refreshers[i];
      }
    }
  }

  /** One successful tick, then the remaining ticks. */
  lemma TicksStep(config: ClientConfig, pending: seq<TokenRecord>, done: seq<TokenRecord>, refreshers: seq<Refresher>)
    requires pending != [] && |refreshers| == |pending| && Answer(config, refreshers[0], pending[0]).Ok?
    ensures Ticks(config, pending + done, refreshers)
         == Ticks(config, pending[1..] + (done + [Answer(config, refreshers[0], pending[0]).value]), refreshers[1..])
  {
    TickMovesHeadBehind(config, pending, done, refreshers[0]);
  }

  lemma {:induction false} RoundRobinFrom(
    config: ClientConfig, pending: seq<TokenRecord>, done: seq<TokenRecord>, refreshers: seq<Refresher>)
    requires AllAnswered(config, pending, refreshers)
    ensures Ticks(config, pending + done, refreshers) == done + Answers(config, pending, refreshers)
    decreases |pending|
  {
    if pending != [] {
      var v := Answer(config, refreshers[0], pending[0]).value;
      TicksStep(config, pending, done, refreshers);
      AnswersUnfold(config, pending, refreshers);
      RoundRobinFrom(config, pending[1..], done + [v], refreshers[1..]);
      var rest := Answers(config, pending[1..], refreshers[1..]);
      assert (done + [v]) + rest == done + ([v] + rest);
    }
  }

  lemma {:induction false} SubmittedFrom(
    config: ClientConfig, pending: seq<TokenRecord>, done: seq<TokenRecord>, refreshers: seq<Refresher>)
    requires AllAnswered(config, pending, refreshers)
    ensures Submitted(config, pending + done, refreshers) == pending
    decreases |pending|
  {
    if pending != [] {
      var v := Answer(config, refreshers[0], pending[0]).value;
      var next := RefreshTick(config, pending + done, refreshers[0]).box;
      TickMovesHeadBehind(config, pending, done, refreshers[0]);
      AllAnsweredTail(config, pending, refreshers);
      SubmittedFrom(config, pending[1..], done + [v], refreshers[1..]);
      calc {
        Submitted(config, pending + done, refreshers);
        [(pending + done)[0]] + Submitted(config, next, refreshers[1..]);
        { assert next == pending[1..] + (done + [v]); }
        [pending[0]] + pending[1..];
        pending;
      }
    }
  }

  /**
   * Round robin: |box| successful ticks send each record to the refresh
   * service exactly once, head first, and leave the refreshed records in
   * their original order.
   */
  lemma RoundRobin(config: ClientConfig, box: seq<TokenRecord>, refreshers: seq<Refresher>)
    requires AllAnswered(config, box, refreshers)
    ensures Submitted(config, box, refreshers) == box
    ensures |Ticks(config, box, refreshers)| == |box|
    ensures forall i :: 0 <= i < |box| ==>
              Ticks(config, box, refreshers)[i] == Answer(config, refreshers[i], box[i]).value
  {
    RoundRobinFrom(config, box, [], refreshers);
    SubmittedFrom(config, box, [], refreshers);
    AnswersAt(config, box, refreshers);
    assert box + [] == box;
  }

  /**
   * A failed refresh leaves the box as it was, so while the head's refresh
   * keeps failing, every tick retries that same record and no other record
   * is ever refreshed.
   */
  lemma {:induction false} FailingHeadStaysAtHead(config: ClientConfig, box: seq<TokenRecord>, refreshers: seq<Refresher>)
    requires box != []
    requires forall i :: 0 <= i < |refreshers| ==> Answer(config, refreshers[i], box[0]).Err?
    ensures Ticks(config, box, refreshers) == box
    ensures |Submitted(config, box, refreshers)| == |refreshers|
    ensures forall i :: 0 <= i < |refreshers| ==> Submitted(config, box, refreshers)[i] == box[0]
    decreases |refreshers|
  {
    if refreshers != [] {
      assert Answer(config, refreshers[0], box[0]).Err?;
      FailingHeadStaysAtHead(config, box, refreshers[1..]);
    }
  }

  // ---------------------------------------------------------------------
  // The client and its token box, mutated in place.
  // ---------------------------------------------------------------------

  class OAuthClient {
    const config: ClientConfig
    /** The contents of the token box, head first. */
    var tokens: seq<TokenRecord>

    /** The box `listen` installs before serving: empty. */
    constructor Listen(config: ClientConfig)
      ensures this.config == config && tokens == []
    {
      this.config := config;
      tokens := [];
    }

    /** A snapshot of the access tokens, in box order; never fails, changes nothing. */
    method GetAccessTokens() returns (accessTokens: seq<string>, err: Option<string>)
      ensures err.None?
      ensures |accessTokens| == |tokens|
      ensures forall i :: 0 <= i < |tokens| ==> accessTokens[i] == tokens[i].accessToken
    {
      accessTokens := [];
      var i := 0;
      while i < |tokens|
        invariant 0 <= i <= |tokens|
        invariant |accessTokens| == i
        invariant forall j :: 0 <= j < i ==> accessTokens[j] == tokens[j].accessToken
      {
        accessTokens := accessTokens + [tokens[i].accessToken];
        i := i + 1;
      }
      err := None;
    }

    /** Checks the callback, exchanges the code and appends the new record on success. */
    method HandleJourneyCallback(req: Request, exchange: ExchangeRequest -> ExchangeReply, now: int)
      returns (status: int)
      modifies this
      ensures var o := Callback(config, req, exchange, now);
              && status == StatusOf(o)
              && tokens == if o.Accept? then old(tokens) + [o.record] else old(tokens)
    {
      var check := CheckCallback(req);
      if check.BadRequest? {
        return 400;
      }
      var reply := exchange(ExchangeFor(config, check.code));
      if reply.PostFailed? {
        return 500;
      }
      if reply.body.None? {
        return 500;
      }
      var auth := reply.body.value;
      var expiryTime := ExpiryAfter(now, auth.expirySeconds);
      tokens := tokens + [TokenRecord(auth.accessToken, auth.refreshToken, auth.userID, expiryTime)];
      status := 201;
    }

    /**
     * Routes a request. The journey start answers 302, redirecting to
     * `StartLocation(config, state)` and setting the state cookie to `state`.
     */
    method ServeHTTP(req: Request, exchange: ExchangeRequest -> ExchangeReply, now: int, state: string)
      returns (status: int, location: Option<string>, setCookie: Option<(string, string)>)
      modifies this
      ensures RouteOf(req.verb, req.path) == MethodNotAllowed ==> status == 405 && tokens == old(tokens)
      ensures RouteOf(req.verb, req.path) == NotFound ==> status == 404 && tokens == old(tokens)
      ensures RouteOf(req.verb, req.path) == JourneyStart ==>
                && status == 302 && tokens == old(tokens)
                && location == Some(StartLocation(config, state))
                && setCookie == Some((StateCookieName, state))
      ensures RouteOf(req.verb, req.path) != JourneyStart ==> location.None? && setCookie.None?
      ensures RouteOf(req.verb, req.path) == JourneyCallback ==>
                var o := Callback(config, req, exchange, now);
                && status == StatusOf(o)
                && tokens == if o.Accept? then old(tokens) + [o.record] else old(tokens)
    {
      location, setCookie := None, None;
      if req.verb != "GET" {
        return 405, location, setCookie;
      }
      if req.path == StartPath {
        return 302, Some(StartLocation(config, state)), Some((StateCookieName, state));
      }
      if req.path == CallbackPath {
        status := HandleJourneyCallback(req, exchange, now);
        return;
      }
      status := 404;
    }

    /**
     * Refreshes the head record and moves it to the tail, recording its new
     * expiry; on a failed refresh the box and the gauges are left as they were.
     */
    method RefreshAToken(refresh: Refresher, metrics: MetricVectors) returns (err: Option<string>)
      modifies this, metrics
      ensures var t := RefreshTick(config, old(tokens), refresh);
              tokens == t.box && err == t.error
      ensures old(tokens) != [] && Answer(config, refresh, old(tokens)[0]).Ok? ==>
                var refreshed := Answer(config, refresh, old(tokens)[0]).value;
                metrics.Value() == WithAccessTokenExpiry(old(metrics.Value()), refreshed.userID, refreshed.expiryTime)
      ensures old(tokens) == [] || Answer(config, refresh, old(tokens)[0]).Err? ==>
                metrics.Value() == old(metrics.Value())
    {
      if |tokens| == 0 {
        return None;
      }
      var headToken := tokens[0];
      var tailTokens := tokens[1..];
      var answer := refresh(config.clientID, config.clientSecret, headToken.accessToken, headToken.refreshToken);
      if answer.Err? {
        return Some("Encountered error refreshing token for user " + headToken.userID + " => " + answer.error);
      }
      headToken := answer.value;
      metrics.SetAccessTokenExpiry(headToken.userID, headToken.expiryTime);
      tokens := tailTokens + [headToken];
      err := None;
    }
  }
}
