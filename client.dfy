/**
 * The pure decisions of the HTTP client: how an event is stamped before it
 * is sent, how a batch is cut into requests, which failures are retried and
 * how long the client waits, how the query string is put together, and how
 * a response is classified.  The transport itself is a parameter: `attempt`
 * or `deliver` give the outcome of each request.
 */
module Client {
  import opened Common
  import opened Json
  import opened Utils

  datatype Config = Config(
    test: bool,
    debug: bool,
    verbose: bool,
    host: string,
    protocol: string,
    path: string,
    secret: Option<string>,
    apiKey: Option<string>,
    geolocate: bool,
    maxRetries: nat,
    retryBaseDelayMs: nat,
    retryMaxDelayMs: nat)

  /** `Config::default`. */
  const DefaultConfig: Config :=
    Config(false, false, false, "api.mixpanel.com", "https", "", None, None, false, 3, 1000, 10000)

  /** The client: its project token, configuration and the crate version it reports. */
  datatype Mixpanel = Mixpanel(token: string, config: Config, libVersion: string)

  datatype Event = Event(event: string, properties: map<string, Json>)

  /** How a request failed below HTTP. */
  datatype HttpFailure = Connect | Timeout | OtherFailure

  /** The failures `send_request` and `do_send_request` return. */
  datatype ApiError =
    | HttpError(kind: HttpFailure)
    | JsonError
    | ApiClientError(status: nat, message: string)
    | ApiUnexpectedResponse(body: string)
    | ApiPayloadTooLarge
    | ApiRateLimitError(retryAfter: Option<nat>)
    | ApiServerError(status: nat)
    | ApiHttpError(status: nat, body: string)
    | MaxRetriesReached(retries: nat, last: ApiError)

  type Outcome = Result<(), ApiError>

  // ---------------------------------------------------------------- numbers

  predicate IsDigit(c: char) {
    '0' <= c <= '9'
  }

  predicate AllDigits(s: string) {
    forall i :: 0 <= i < |s| ==> IsDigit(s[i])
  }

  /** The value of a string of decimal digits. */
  function DigitsValue(s: string): nat
    requires AllDigits(s)
  {
    if s == [] then 0 else DigitsValue(s[..|s| - 1]) * 10 + (s[|s| - 1] - '0') as nat
  }

  /** `str::parse::<u64>`: an optional `+`, at least one digit, nothing else, and no overflow. */
  function ParseU64(s: string): (r: Option<nat>)
    ensures r.Some? ==> r.value < U64Bound
  {
    var digits := if |s| > 0 && s[0] == '+' then s[1..] else s;
    if |digits| > 0 && AllDigits(digits) && DigitsValue(digits) < U64Bound then Some(DigitsValue(digits))
    else None
  }

  /** The decimal rendering of a number, most significant digit first, no leading zero. */
  function ShowNat(n: nat): (s: string)
    ensures |s| > 0 && AllDigits(s)
  {
    if n < 10 then ['0' + n as char] else ShowNat(n / 10) + ['0' + (n % 10) as char]
  }

  lemma {:induction false} ShowNatValue(n: nat)
    ensures DigitsValue(ShowNat(n)) == n
  {
    var s := ShowNat(n);
    if n >= 10 {
      ShowNatValue(n / 10);
      assert s[..|s| - 1] == ShowNat(n / 10);
    }
  }

  /** Every unsigned 64-bit number, written in decimal, parses back to itself. */
  lemma ParseShowRoundTrip(n: nat)
    requires n < U64Bound
    ensures ParseU64(ShowNat(n)) == Some(n)
  {
    ShowNatValue(n);
  }

  // ---------------------------------------------------------------- events

  const StampKeys: set<string> := {"token", "mp_lib", "$lib_version"}

  /** The three library fields `track` and `track_batch` write over whatever the caller supplied. */
  function Stamp(mp: Mixpanel, props: map<string, Json>): (r: map<string, Json>)
    ensures r.Keys == props.Keys + StampKeys
    ensures r["token"] == Str(mp.token) && r["mp_lib"] == Str("rust") && r["$lib_version"] == Str(mp.libVersion)
    ensures forall k :: k in props && k !in StampKeys ==> r[k] == props[k]
  {
    props["token" := Str(mp.token)]["mp_lib" := Str("rust")]["$lib_version" := Str(mp.libVersion)]
  }

  /**
   * The `time` rule of `track`: an unsigned integer stays, a string that
   * parses as one becomes that number, anything else is left as it was.
   */
  function NormaliseTime(props: map<string, Json>): (r: map<string, Json>)
    ensures r.Keys == props.Keys
    ensures forall k :: k in props && k != "time" ==> r[k] == props[k]
    ensures "time" in props && props["time"].Str? && ParseU64(props["time"].s).Some? ==>
      r["time"] == Int(ParseU64(props["time"].s).value)
    ensures "time" in props && !(props["time"].Str? && ParseU64(props["time"].s).Some?) ==>
      r["time"] == props["time"]
  {
    if "time" in props then
      var t := props["time"];
      if AsU64(t).Some? then props["time" := Int(AsU64(t).value)]
      else if t.Str? && ParseU64(t.s).Some? then props["time" := Int(ParseU64(t.s).value)]
      else props
    else props
  }

  /** Normalising twice is normalising once: a normalised `time` is never a string. */
  lemma NormaliseTimeIdempotent(props: map<string, Json>)
    ensures NormaliseTime(NormaliseTime(props)) == NormaliseTime(props)
  {
    var once := NormaliseTime(props);
    if "time" in props && props["time"].Str? && ParseU64(props["time"].s).Some? {
      assert AsU64(once["time"]).Some?;
    }
  }

  /** An event as it is serialised: `{"event": ..., "properties": {...}}`. */
  function EventJson(e: Event): Json {
    Obj(map["event" := Str(e.event), "properties" := Obj(e.properties)])
  }

  /**
   * The properties `track` sends: the caller's, stamped with the library
   * fields, with `time` normalised.
   */
  function TrackProperties(mp: Mixpanel, props: Option<map<string, Json>>): (sent: map<string, Json>)
    ensures sent.Keys == (if props.Some? then props.value.Keys else {}) + StampKeys
    ensures sent["token"] == Str(mp.token) && sent["mp_lib"] == Str("rust")
    ensures sent["$lib_version"] == Str(mp.libVersion)
    ensures props.Some? ==> forall k :: k in props.value && k !in StampKeys && k != "time" ==>
      sent[k] == props.value[k]
    ensures props.Some? && "time" in props.value ==> sent["time"] == NormaliseTime(props.value)["time"]
  {
    NormaliseTime(Stamp(mp, if props.Some? then props.value else map[]))
  }

  /** `track`: one event, named as given, sent as a GET to `/track` with the stamped properties. */
  function TrackRequest(mp: Mixpanel, event: string, props: Option<map<string, Json>>): (r: Request)
    ensures r.verb == "GET" && r.endpoint == "/track" && r.data.Obj?
    ensures r.data.fields.Keys == {"event", "properties"}
    ensures r.data.fields["event"] == Str(event)
    ensures r.data.fields["properties"] == Obj(TrackProperties(mp, props))
  {
    Request("GET", "/track", EventJson(Event(event, TrackProperties(mp, props))))
  }

  /** `alias`: a `$create_alias` event that carries the original id and the alias besides the stamp. */
  lemma AliasEventProperties(mp: Mixpanel, distinctId: string, alias: string)
    ensures var sent := TrackProperties(mp, Some(map["distinct_id" := Str(distinctId), "alias" := Str(alias)]));
      && sent.Keys == {"distinct_id", "alias"} + StampKeys
      && sent["distinct_id"] == Str(distinctId) && sent["alias"] == Str(alias)
  {
  }

  // ---------------------------------------------------------------- batches

  /** Mixpanel accepts at most this many events per request. */
  const MaxBatchSize: nat := 50

  /** `slice::chunks(n)`: consecutive pieces of `n`, the last one possibly shorter. */
  function Chunks<T>(s: seq<T>, n: nat): seq<seq<T>>
    requires n > 0
    decreases |s|
  {
    if s == [] then [] else if |s| <= n then [s] else [s[..n]] + Chunks(s[n..], n)
  }

  function Flatten<T>(ss: seq<seq<T>>): seq<T> {
    if ss == [] then [] else ss[0] + Flatten(ss[1..])
  }

  /** The chunks, concatenated in order, give back the list. */
  lemma {:induction false} ChunksFlatten<T>(s: seq<T>, n: nat)
    requires n > 0
    ensures Flatten(Chunks(s, n)) == s
    decreases |s|
  {
    if s != [] && |s| > n {
      ChunksFlatten(s[n..], n);
      assert Chunks(s, n) == [s[..n]] + Chunks(s[n..], n);
      assert Flatten(Chunks(s, n)) == s[..n] + Flatten(Chunks(s[n..], n));
    } else if s != [] {
      assert Flatten([s]) == s + Flatten([]);
    }
  }

  /** No chunk is empty or longer than `n`, and all but the last hold exactly `n`. */
  lemma {:induction false} ChunksSizes<T>(s: seq<T>, n: nat)
    requires n > 0
    ensures forall i :: 0 <= i < |Chunks(s, n)| ==> 0 < |Chunks(s, n)[i]| <= n
    ensures forall i :: 0 <= i < |Chunks(s, n)| - 1 ==> |Chunks(s, n)[i]| == n
    decreases |s|
  {
    if s != [] && |s| > n {
      ChunksSizes(s[n..], n);
      var rest := Chunks(s[n..], n);
      assert Chunks(s, n) == [s[..n]] + rest;
      forall i | 0 <= i < |Chunks(s, n)|
        ensures 0 < |Chunks(s, n)[i]| <= n
        ensures i < |Chunks(s, n)| - 1 ==> |Chunks(s, n)[i]| == n
      {
        if i > 0 {
          assert Chunks(s, n)[i] == rest[i - 1];
        }
      }
    }
  }

  /** There are as many chunks as `n` goes into the length, rounded up. */
  lemma {:induction false} ChunksCount<T>(s: seq<T>, n: nat)
    requires n > 0
    ensures |Chunks(s, n)| == 0 <==> s == []
    ensures s != [] ==> (|Chunks(s, n)| - 1) * n < |s| <= |Chunks(s, n)| * n
    decreases |s|
  {
    if s != [] && |s| > n {
      ChunksCount(s[n..], n);
      var c := |Chunks(s[n..], n)|;
      assert |Chunks(s, n)| == c + 1;
      assert (c + 1) * n == c * n + n && c * n == (c - 1) * n + n;
    }
  }

  function StampEvent(mp: Mixpanel, e: Event): Event {
    Event(e.event, Stamp(mp, e.properties))
  }

  /** One `track_batch` request: a POST to `/track` of a chunk of events. */
  function BatchRequest(chunk: seq<Event>): Request {
    Request("POST", "/track", Arr(seq(|chunk|, i requires 0 <= i < |chunk| => EventJson(chunk[i]))))
  }

  /** Every request `track_batch` would make if all succeeded, in order. */
  function BatchRequests(mp: Mixpanel, events: seq<Event>): seq<Request> {
    var stamped := seq(|events|, i requires 0 <= i < |events| => StampEvent(mp, events[i]));
    var chunks := Chunks(stamped, MaxBatchSize);
    seq(|chunks|, i requires 0 <= i < |chunks| => BatchRequest(chunks[i]))
  }

  /**
   * `track_batch`: stamp every event, then send the chunks in order and stop
   * at the first one that fails.  `deliver` gives the outcome of
   * `send_request` for a request; `sent` lists the requests made.
   */
  method TrackBatch(mp: Mixpanel, events: seq<Event>, deliver: Request -> Outcome)
    returns (r: Outcome, sent: seq<Request>)
    ensures var all := BatchRequests(mp, events);
      && |sent| <= |all| && sent == all[..|sent|]
      && (forall i :: 0 <= i < |sent| - 1 ==> deliver(sent[i]).Ok?)
      && (r.Ok? ==> sent == all && forall i :: 0 <= i < |sent| ==> deliver(sent[i]).Ok?)
      && (r.Err? ==> |sent| > 0 && r == deliver(sent[|sent| - 1]))
  {
    var all := BatchRequests(mp, events);
    sent := [];
    var i := 0;
    while i < |all|
      invariant 0 <= i <= |all| && sent == all[..i]
      invariant forall j :: 0 <= j < i ==> deliver(all[j]).Ok?
    {
      sent := sent + [all[i]];
      var res := deliver(all[i]);
      if res.Err? {
        return res, sent;
      }
      i := i + 1;
    }
    r := Ok(());
  }

  // ---------------------------------------------------------------- retries

  /** Only connection and timeout failures, server errors and rate limits are tried again. */
  predicate Retryable(e: ApiError) {
    match e
    case HttpError(kind) => kind == Connect || kind == Timeout
    case ApiServerError(_) => true
    case ApiRateLimitError(_) => true
    case _ => false
  }

  function Pow2(k: nat): (p: nat)
    ensures p >= 1
  {
    if k == 0 then 1 else 2 * Pow2(k - 1)
  }

  lemma {:induction false} Pow2Monotone(i: nat, j: nat)
    requires i <= j
    ensures Pow2(i) <= Pow2(j)
    decreases j
  {
    if i < j {
      Pow2Monotone(i, j - 1);
    }
  }

  function Min(a: nat, b: nat): nat {
    if a <= b then a else b
  }

  /**
   * The wait before retry number `retries + 1`, in milliseconds: the
   * server's `Retry-After` seconds for a rate limit that carries one,
   * otherwise the base delay doubled per retry, capped at the maximum.
   */
  function BackoffMs(config: Config, e: ApiError, retries: nat): (ms: nat)
    ensures e.ApiRateLimitError? && e.retryAfter.Some? ==> ms == e.retryAfter.value * 1000
    ensures !(e.ApiRateLimitError? && e.retryAfter.Some?) ==>
      ms <= config.retryMaxDelayMs && ms <= config.retryBaseDelayMs * Pow2(retries) &&
      (ms == config.retryMaxDelayMs || ms == config.retryBaseDelayMs * Pow2(retries))
  {
    match e
    case ApiRateLimitError(Some(seconds)) => seconds * 1000
    case _ => Min(config.retryBaseDelayMs * Pow2(retries), config.retryMaxDelayMs)
  }

  /** The computed backoff never shrinks from one retry to the next. */
  lemma BackoffMonotone(config: Config, e: ApiError, i: nat, j: nat)
    requires i <= j
    ensures BackoffMs(config, e, i) <= BackoffMs(config, e, j)
  {
    Pow2Monotone(i, j);
    assert config.retryBaseDelayMs * Pow2(i) <= config.retryBaseDelayMs * Pow2(j) by {
      var d := Pow2(j) - Pow2(i);
      assert config.retryBaseDelayMs * Pow2(j) == config.retryBaseDelayMs * Pow2(i) + config.retryBaseDelayMs * d;
    }
  }

  /**
   * With the default configuration every failure that does not carry a
   * `Retry-After` waits 1, 2 and 4 seconds, and never more than 10.
   */
  lemma DefaultBackoff(e: ApiError, retries: nat)
    requires !(e.ApiRateLimitError? && e.retryAfter.Some?)
    ensures retries == 0 ==> BackoffMs(DefaultConfig, e, retries) == 1000
    ensures retries == 1 ==> BackoffMs(DefaultConfig, e, retries) == 2000
    ensures retries == 2 ==> BackoffMs(DefaultConfig, e, retries) == 4000
    ensures BackoffMs(DefaultConfig, e, retries) <= 10000
  {
    if retries <= 2 {
      assert Pow2(1) == 2;
      assert Pow2(2) == 4;
    }
  }

  /**
   * `send_request`: try, and on a failure either give up with
   * `MaxRetriesReached` once `max_retries` retries were spent, return a
   * failure that is not retryable, or wait and try again.  `attempt(n)` is
   * the outcome of try number n (from 0); `waits` lists the waits in
   * milliseconds.
   */
  method SendRequest(config: Config, attempt: nat -> Outcome) returns (r: Outcome, waits: seq<nat>)
    ensures |waits| <= config.maxRetries
    ensures forall i :: 0 <= i < |waits| ==>
      attempt(i).Err? && Retryable(attempt(i).error) && waits[i] == BackoffMs(config, attempt(i).error, i)
    ensures r.Ok? <==> attempt(|waits|).Ok?
    ensures attempt(|waits|).Err? && |waits| == config.maxRetries ==>
      r == Err(MaxRetriesReached(|waits|, attempt(|waits|).error))
    ensures attempt(|waits|).Err? && |waits| < config.maxRetries ==>
      r == attempt(|waits|) && !Retryable(attempt(|waits|).error)
  {
    var retries := 0;
    waits := [];
    while true
      invariant retries == |waits| <= config.maxRetries
      invariant forall i :: 0 <= i < |waits| ==>
        attempt(i).Err? && Retryable(attempt(i).error) && waits[i] == BackoffMs(config, attempt(i).error, i)
      decreases config.maxRetries - retries
    {
      var res := attempt(retries);
      if res.Ok? {
        return res, waits;
      }
      if retries >= config.maxRetries {
        return Err(MaxRetriesReached(retries, res.error)), waits;
      }
      if !Retryable(res.error) {
        return res, waits;
      }
      waits := waits + [BackoffMs(config, res.error, retries)];
      retries := retries + 1;
    }
  }

  // ---------------------------------------------------------------- one request

  function UpperChar(c: char): char {
    if 'a' <= c <= 'z' then (c - 'a' + 'A') as char else c
  }

  /** `str::to_uppercase`, on ASCII letters. */
  function ToUpper(s: string): (r: string)
    ensures |r| == |s|
    ensures forall i :: 0 <= i < |s| ==> r[i] == UpperChar(s[i])
  {
    if s == [] then [] else [UpperChar(s[0])] + ToUpper(s[1..])
  }

  /** The endpoint without one leading `/`. */
  function StripSlash(endpoint: string): (r: string)
    ensures |endpoint| > 0 && endpoint[0] == '/' ==> endpoint == "/" + r
    ensures !(|endpoint| > 0 && endpoint[0] == '/') ==> r == endpoint
  {
    if |endpoint| > 0 && endpoint[0] == '/' then endpoint[1..] else endpoint
  }

  datatype HttpMethod = HttpGet | HttpPost

  /** What `do_send_request` sends: verb, path, query pairs in order, and a body for POST. */
  datatype Prepared = Prepared(verb: HttpMethod, path: string, query: seq<(string, string)>, body: Option<string>)

  /** The query `do_send_request` sends: `ip` and `verbose` always, `data` for GET, `test` in test mode, in that order. */
  function Query(config: Config, method_: string, encoded: string): seq<(string, string)> {
    [("ip", if config.geolocate then "1" else "0"), ("verbose", if config.verbose then "1" else "0")]
    + (if ToUpper(method_) == "GET" then [("data", encoded)] else [])
    + (if config.test then [("test", "1")] else [])
  }

  /** The query pairs of `do_send_request`, appended one by one. */
  method BuildQuery(config: Config, method_: string, encoded: string) returns (query: seq<(string, string)>)
    ensures query == Query(config, method_, encoded)
    ensures |query| >= 2
    ensures query[0] == ("ip", if config.geolocate then "1" else "0")
    ensures query[1] == ("verbose", if config.verbose then "1" else "0")
    ensures (exists i :: 0 <= i < |query| && query[i].0 == "data") <==> ToUpper(method_) == "GET"
    ensures ToUpper(method_) == "GET" ==> query[2] == ("data", encoded)
    ensures (exists i :: 0 <= i < |query| && query[i] == ("test", "1")) <==> config.test
  {
    query := [];
    if config.geolocate {
      query := query + [("ip", "1")];
    } else {
      query := query + [("ip", "0")];
    }
    if config.verbose {
      query := query + [("verbose", "1")];
    } else {
      query := query + [("verbose", "0")];
    }
    if ToUpper(method_) == "GET" {
      query := query + [("data", encoded)];
    }
    if config.test {
      query := query + [("test", "1")];
      assert query[|query| - 1] == ("test", "1");
    }
    if ToUpper(method_) == "GET" {
      assert query[2].0 == "data";
    }
  }

  /**
   * The request `do_send_request` prepares: `urlPath` is the path of the
   * configured base URL, the endpoint loses its leading `/`, the data goes
   * in the query for GET and in a form body for POST, and any other method
   * is refused with a client error of status 0.
   */
  method PrepareRequest(config: Config, urlPath: string, method_: string, endpoint: string, encoded: string)
    returns (r: Result<Prepared, ApiError>)
    ensures r.Err? <==> ToUpper(method_) != "GET" && ToUpper(method_) != "POST"
    ensures r.Err? ==> r.error == ApiClientError(0, "Unsupported HTTP method: " + method_)
    ensures r.Ok? ==> r.value.path == urlPath + StripSlash(endpoint)
    ensures r.Ok? ==> (r.value.verb == HttpGet <==> ToUpper(method_) == "GET")
    ensures r.Ok? ==> (r.value.verb == HttpPost <==> r.value.body == Some("data=" + encoded))
    ensures r.Ok? ==> r.value.body == (if r.value.verb == HttpPost then Some("data=" + encoded) else None)
    ensures r.Ok? ==> r.value.query == Query(config, method_, encoded)
    ensures r.Ok? ==> ((exists i :: 0 <= i < |r.value.query| && r.value.query[i].0 == "data") <==> r.value.verb == HttpGet)
    ensures r.Ok? ==> ((exists i :: 0 <= i < |r.value.query| && r.value.query[i] == ("test", "1")) <==> config.test)
  {
    var path := urlPath + StripSlash(endpoint);
    var query := BuildQuery(config, method_, encoded);
    var upper := ToUpper(method_);
    if upper == "GET" {
      r := Ok(Prepared(HttpGet, path, query, None));
    } else if upper == "POST" {
      r := Ok(Prepared(HttpPost, path, query, Some("data=" + encoded)));
    } else {
      r := Err(ApiClientError(0, "Unsupported HTTP method: " + method_));
    }
  }

  predicate IsSuccess(status: nat) {
    200 <= status < 300
  }

  /**
   * A response outside 2xx: 413 and 429 have their own errors (429 with the
   * `Retry-After` seconds when the header parses), 500 and above are server
   * errors, the rest of 4xx client errors, anything else an HTTP error.
   */
  function ClassifyFailure(status: nat, retryAfter: Option<string>, body: string): (e: ApiError)
    requires !IsSuccess(status)
    ensures e == ApiPayloadTooLarge <==> status == 413
    ensures e.ApiRateLimitError? <==> status == 429
    ensures e.ApiServerError? <==> status >= 500
    ensures e.ApiClientError? <==> 400 <= status < 500 && status != 413 && status != 429
    ensures e.ApiHttpError? <==> status < 400
    ensures e.ApiRateLimitError? ==> e.retryAfter == (if retryAfter.Some? then ParseU64(retryAfter.value) else None)
    ensures e.ApiServerError? ==> e == ApiServerError(status)
    ensures e.ApiClientError? ==> e == ApiClientError(status, body)
    ensures e.ApiHttpError? ==> e == ApiHttpError(status, body)
    ensures Retryable(e) <==> status == 429 || status >= 500
  {
    if status == 413 then ApiPayloadTooLarge
    else if status == 429 then ApiRateLimitError(if retryAfter.Some? then ParseU64(retryAfter.value) else None)
    else if status >= 500 then ApiServerError(status)
    else if status >= 400 then ApiClientError(status, body)
    else ApiHttpError(status, body)
  }

  /**
   * A 2xx response: without `verbose` the body must be exactly `1`; with it
   * the body must be JSON whose `status` is 1 (`parsed` is the body as
   * JSON, None when it does not parse).
   */
  function ClassifySuccess(verbose: bool, status: nat, body: string, parsed: Option<Json>): (r: Outcome)
    ensures !verbose ==> (r.Ok? <==> body == "1")
    ensures !verbose && r.Err? ==> r.error == ApiUnexpectedResponse(body)
    ensures verbose ==>
      (r.Ok? <==> parsed.Some? && Get(parsed.value, "status").Some? && AsU64(Get(parsed.value, "status").value) == Some(1))
    ensures verbose && parsed.None? ==> r == Err(JsonError)
    ensures verbose && r.Err? && r.error.ApiClientError? ==>
      r.error.status == status && Get(parsed.value, "error") == Some(Str(r.error.message))
    ensures verbose && parsed.Some? ==>
      var apiStatus := if Get(parsed.value, "status").Some? then AsU64(Get(parsed.value, "status").value) else None;
      var message := if Get(parsed.value, "error").Some? then AsStr(Get(parsed.value, "error").value) else None;
      && (apiStatus.None? ==> r == Err(ApiUnexpectedResponse("Response missing status: " + body)))
      && (apiStatus.Some? && apiStatus.value != 1 && message.Some? ==> r == Err(ApiClientError(status, message.value)))
      && (apiStatus.Some? && apiStatus.value != 1 && message.None? ==>
            r == Err(ApiUnexpectedResponse("Response status was not 1: " + body)))
  {
    if verbose then
      match parsed
      case None => Err(JsonError)
      case Some(json) =>
        var apiStatus := if Get(json, "status").Some? then AsU64(Get(json, "status").value) else None;
        match apiStatus
        case Some(s) =>
          if s != 1 then
            var message := if Get(json, "error").Some? then AsStr(Get(json, "error").value) else None;
            match message
            case Some(m) => Err(ApiClientError(status, m))
            case None => Err(ApiUnexpectedResponse("Response status was not 1: " + body))
          else Ok(())
        case None => Err(ApiUnexpectedResponse("Response missing status: " + body))
    else if body != "1" then Err(ApiUnexpectedResponse(body))
    else Ok(())
  }

  /** The outcome of one request from the status line, the header and the body. */
  function ClassifyResponse(config: Config, status: nat, retryAfter: Option<string>, body: string, parsed: Option<Json>): (r: Outcome)
    ensures r.Ok? ==> IsSuccess(status)
    ensures IsSuccess(status) ==> r == ClassifySuccess(config.verbose, status, body, parsed)
    ensures !IsSuccess(status) ==> r == Err(ClassifyFailure(status, retryAfter, body))
    ensures r.Err? && Retryable(r.error) ==> !IsSuccess(status)
  {
    if IsSuccess(status) then ClassifySuccess(config.verbose, status, body, parsed)
    else Err(ClassifyFailure(status, retryAfter, body))
  }
}
