/** The low-level client for the external shopping-list HTTP API: base-URL
    normalisation, endpoint joining, and the bounded retry loop. The network is an
    abstract sequence of per-attempt outcomes; sleeps are counted, not timed. */
module HttpClient {
  import opened Values
  import opened Text

  /** The statuses that are retried: 429 Too Many Requests (section 4 of RFC 6585)
      and 500 Internal Server Error (section 15.6.1 of RFC 9110). No other 5xx. */
  const RetryStatuses: seq<int> := [429, 500]

  const DefaultTimeout: int := 30
  const DefaultRateLimitThrottle: int := 5
  const DefaultMaxAttempts: int := 3

  datatype Client = Client(
    baseUrl: string,
    authToken: string,
    timeout: int,
    rateLimitThrottle: int,
    maxAttempts: int)

  /** What goes on the wire for one attempt; every attempt of a call sends the same one. */
  datatype HttpRequest = HttpRequest(httpMethod: string, url: string, payload: Option<Json>)

  datatype Response = Response(status: int, body: Json)

  /** What the transport yields for one attempt: a response (of any status) or a
      non-HTTP exception such as a connection failure or a timeout. */
  datatype AttemptOutcome = Responded(response: Response) | Raised(kind: string)

  // ---------------------------------------------------------------- base URL

  function WithTrailingSlash(s: string): (r: string)
    requires |s| > 0
    ensures |r| > 0 && r[|r| - 1] == '/'
    ensures r == s || r == s + "/"
    ensures s[|s| - 1] == '/' <==> r == s
  {
    if s[|s| - 1] != '/' then s + "/" else s
  }

  /** Normalisation done by the constructor: reject an empty URL, append a missing
      trailing slash, then prepend "https://" when "http" occurs nowhere. */
  function NormaliseBaseUrl(baseUrl: string): (r: Result<string>)
    ensures r.Err? <==> baseUrl == ""
    ensures r.Err? ==> r.fault.ValueError?
    ensures r.Ok? ==> |r.value| > 0 && r.value[|r.value| - 1] == '/'
    ensures r.Ok? ==> Occurs(r.value, "http")
    ensures r.Ok? && Occurs(baseUrl, "http") ==> r.value == WithTrailingSlash(baseUrl)
    ensures r.Ok? && !Occurs(baseUrl, "http") ==> r.value == "https://" + WithTrailingSlash(baseUrl)
  {
    if baseUrl == "" then Err(ValueError("base_url must not be empty"))
    else
      var slashed := WithTrailingSlash(baseUrl);
      SlashKeepsScheme(baseUrl);
      if Occurs(slashed, "http") then Ok(slashed)
      else
        OccursInPrefixed("http", "s://" + slashed);
        assert "https://" + slashed == "http" + ("s://" + slashed);
        Ok("https://" + slashed)
  }

  /** Appending the trailing slash neither creates nor destroys an occurrence of "http". */
  lemma SlashKeepsScheme(s: string)
    requires |s| > 0
    ensures Occurs(WithTrailingSlash(s), "http") <==> Occurs(s, "http")
  {
    if s[|s| - 1] != '/' {
      OccursAppend(s, "http", '/');
    }
  }

  /** Normalising an already normalised URL changes nothing. */
  lemma NormaliseIdempotent(baseUrl: string)
    requires NormaliseBaseUrl(baseUrl).Ok?
    ensures NormaliseBaseUrl(NormaliseBaseUrl(baseUrl).value) == NormaliseBaseUrl(baseUrl)
  {
  }

  /** "https://" is prepended exactly when "http" occurs nowhere in the given URL. */
  lemma SchemeAddedIffMissing(baseUrl: string)
    requires baseUrl != ""
    ensures !Occurs(baseUrl, "http") <==> NormaliseBaseUrl(baseUrl).value == "https://" + WithTrailingSlash(baseUrl)
  {
    var slashed := WithTrailingSlash(baseUrl);
    if Occurs(baseUrl, "http") {
      assert |"https://" + slashed| > |slashed|;
    }
  }

  /** The constructor: normalises the base URL and keeps the other settings. */
  function NewClient(
    baseUrl: string,
    authToken: string,
    timeout: int := DefaultTimeout,
    rateLimitThrottle: int := DefaultRateLimitThrottle,
    maxAttempts: int := DefaultMaxAttempts): (r: Result<Client>)
    ensures r.Err? <==> baseUrl == ""
    ensures r.Ok? ==> Ok(r.value.baseUrl) == NormaliseBaseUrl(baseUrl)
    ensures r.Ok? ==> r.value.authToken == authToken && r.value.timeout == timeout
    ensures r.Ok? ==> r.value.rateLimitThrottle == rateLimitThrottle && r.value.maxAttempts == maxAttempts
  {
    match NormaliseBaseUrl(baseUrl)
    case Err(f) => Err(f)
    case Ok(url) => Ok(Client(url, authToken, timeout, rateLimitThrottle, maxAttempts))
  }

  // ---------------------------------------------------------------- endpoint

  /** Joins an endpoint onto the base URL, rejecting "" and "/" and stripping exactly
      one leading slash. */
  function ResolveUrl(baseUrl: string, endpoint: string): (r: Result<string>)
    ensures r.Err? <==> endpoint == "" || endpoint == "/"
    ensures r.Err? ==> r.fault.ValueError?
    ensures r.Ok? ==> StartsWith(r.value, baseUrl) && |r.value| > |baseUrl|
    ensures r.Ok? && endpoint[0] == '/' ==> "/" + r.value[|baseUrl|..] == endpoint
    ensures r.Ok? && endpoint[0] != '/' ==> r.value[|baseUrl|..] == endpoint
  {
    if endpoint == "" || endpoint == "/" then Err(ValueError("endpoint must not be empty"))
    else
      var path := if endpoint[0] == '/' then endpoint[1..] else endpoint;
      assert |path| > 0 by {
        if endpoint[0] == '/' { assert endpoint != [endpoint[0]]; }
      }
      var url := baseUrl + path;
      assert url[..|baseUrl|] == baseUrl && url[|baseUrl|..] == path;
      Ok(url)
  }

  /** The request every attempt sends: the upper-cased method, the joined URL, the payload. */
  function BuildRequest(c: Client, httpMethod: string, endpoint: string, payload: Option<Json>): (r: Result<HttpRequest>)
    ensures r.Err? <==> endpoint == "" || endpoint == "/"
    ensures r.Ok? ==> Ok(r.value.url) == ResolveUrl(c.baseUrl, endpoint)
    ensures r.Ok? ==> r.value.httpMethod == Upper(httpMethod) && r.value.payload == payload
  {
    match ResolveUrl(c.baseUrl, endpoint)
    case Err(f) => Err(f)
    case Ok(url) => Ok(HttpRequest(Upper(httpMethod), url, payload))
  }

  // ---------------------------------------------------------------- retry loop

  /** `raise_for_status` raises for every 4xx and 5xx status. */
  predicate RaisesForStatus(status: int) {
    400 <= status < 600
  }

  predicate IsRetryStatus(status: int) {
    status in RetryStatuses
  }

  /** The most attempts a call can make: `max_attempts`, but at least one. */
  function AttemptBound(maxAttempts: int): (n: nat)
    ensures n >= 1 && n >= maxAttempts
    ensures maxAttempts >= 1 ==> n == maxAttempts
    ensures maxAttempts < 1 ==> n == 1
  {
    if maxAttempts < 1 then 1 else maxAttempts
  }

  /** After attempt number `attempt` (1-based) yielded `o`, does the loop sleep and try again? */
  predicate Retries(o: AttemptOutcome, attempt: int, maxAttempts: int) {
    && o.Responded?
    && RaisesForStatus(o.response.status)
    && attempt < maxAttempts
    && IsRetryStatus(o.response.status)
  }

  /** How one attempt's outcome surfaces when the loop stops on it. */
  function Surface(o: AttemptOutcome): (r: Result<Response>)
    ensures r.Ok? <==> o.Responded? && !RaisesForStatus(o.response.status)
    ensures r.Ok? ==> r.value == o.response
    ensures o.Responded? && RaisesForStatus(o.response.status) ==> r == Err(HttpFailure(o.response.status))
    ensures o.Raised? ==> r == Err(TransportFault(o.kind))
  {
    match o
    case Raised(kind) => Err(TransportFault(kind))
    case Responded(resp) =>
      if RaisesForStatus(resp.status) then Err(HttpFailure(resp.status)) else Ok(resp)
  }

  datatype Exchange = Exchange(result: Result<Response>, attempts: nat, sleeps: nat)

  /** The attempts `done + 1, done + 2, ...` of the loop, as a recursive definition. */
  function Run(outcomes: seq<AttemptOutcome>, maxAttempts: int, done: nat): (x: Exchange)
    requires done < AttemptBound(maxAttempts) <= |outcomes|
    ensures done < x.attempts <= AttemptBound(maxAttempts)
    ensures x.sleeps == x.attempts - 1
    ensures forall k :: done <= k < x.attempts - 1 ==> Retries(outcomes[k], k + 1, maxAttempts)
    ensures !Retries(outcomes[x.attempts - 1], x.attempts, maxAttempts)
    ensures x.result == Surface(outcomes[x.attempts - 1])
    decreases AttemptBound(maxAttempts) - done
  {
    if Retries(outcomes[done], done + 1, maxAttempts) then Run(outcomes, maxAttempts, done + 1)
    else Exchange(Surface(outcomes[done]), done + 1, done)
  }

  /** `_request`'s loop over the transport's outcomes, one per attempt. The last clause says
      the loop computes `Run`; the clauses before it spell out what that means for the caller
      (attempts, sleeps, why each attempt but the last retried, the surfaced result), so that
      users of the method need not unfold `Run`. */
  method RetryLoop(outcomes: seq<AttemptOutcome>, maxAttempts: int) returns (x: Exchange)
    requires AttemptBound(maxAttempts) <= |outcomes|
    ensures 1 <= x.attempts <= AttemptBound(maxAttempts)
    ensures x.sleeps == x.attempts - 1
    ensures forall k :: 0 <= k < x.attempts - 1 ==> Retries(outcomes[k], k + 1, maxAttempts)
    ensures !Retries(outcomes[x.attempts - 1], x.attempts, maxAttempts)
    ensures x.result == Surface(outcomes[x.attempts - 1])
    ensures x == Run(outcomes, maxAttempts, 0)
  {
    var attempt := 0;
    var sleeps := 0;
    while true
      invariant 0 <= attempt < AttemptBound(maxAttempts)
      invariant sleeps == attempt
      invariant forall k :: 0 <= k < attempt ==> Retries(outcomes[k], k + 1, maxAttempts)
      invariant Run(outcomes, maxAttempts, attempt) == Run(outcomes, maxAttempts, 0)
      decreases AttemptBound(maxAttempts) - attempt
    {
      attempt := attempt + 1;
      var o := outcomes[attempt - 1];
      if o.Responded? && !RaisesForStatus(o.response.status) {
        return Exchange(Ok(o.response), attempt, sleeps);
      }
      if o.Raised? {
        return Exchange(Err(TransportFault(o.kind)), attempt, sleeps);
      }
      if attempt >= maxAttempts {
        return Exchange(Err(HttpFailure(o.response.status)), attempt, sleeps);
      }
      if !IsRetryStatus(o.response.status) {
        return Exchange(Err(HttpFailure(o.response.status)), attempt, sleeps);
      }
      sleeps := sleeps + 1;
    }
  }

  /** A whole `_request` call as a function: endpoint validation, then the retry loop. */
  datatype Call = Call(sent: Option<HttpRequest>, exchange: Exchange)

  function Perform(c: Client, httpMethod: string, endpoint: string, payload: Option<Json>,
                   outcomes: seq<AttemptOutcome>): (r: Call)
    requires AttemptBound(c.maxAttempts) <= |outcomes|
    ensures r.sent.None? <==> endpoint == "" || endpoint == "/"
    ensures r.sent.None? ==> r.exchange == Exchange(Err(ValueError("endpoint must not be empty")), 0, 0)
    ensures r.sent.Some? ==> Ok(r.sent.value) == BuildRequest(c, httpMethod, endpoint, payload)
    ensures r.sent.Some? ==> r.exchange == Run(outcomes, c.maxAttempts, 0)
  {
    match BuildRequest(c, httpMethod, endpoint, payload)
    case Err(f) => Call(None, Exchange(Err(f), 0, 0))
    case Ok(req) => Call(Some(req), Run(outcomes, c.maxAttempts, 0))
  }

  /** `_request` as a method, with the loop written out. */
  method Request(c: Client, httpMethod: string, endpoint: string, payload: Option<Json>,
                 outcomes: seq<AttemptOutcome>) returns (sent: Option<HttpRequest>, x: Exchange)
    requires AttemptBound(c.maxAttempts) <= |outcomes|
    ensures sent.None? <==> endpoint == "" || endpoint == "/"
    ensures sent.None? ==> x.result.Err? && x.result.fault.ValueError? && x.attempts == 0
    ensures sent.Some? ==> sent.value.httpMethod == Upper(httpMethod) && sent.value.payload == payload
    ensures sent.Some? ==> StartsWith(sent.value.url, c.baseUrl)
    ensures sent.Some? ==> 1 <= x.attempts <= AttemptBound(c.maxAttempts) && x.sleeps == x.attempts - 1
    ensures Call(sent, x) == Perform(c, httpMethod, endpoint, payload, outcomes)
  {
    var req := BuildRequest(c, httpMethod, endpoint, payload);
    if req.Err? {
      return None, Exchange(Err(req.fault), 0, 0);
    }
    sent := Some(req.value);
    x := RetryLoop(outcomes, c.maxAttempts);
  }

  // ---------------------------------------------------------------- retry properties

  /** Success on attempt `k` returns that response after exactly `k` requests and `k - 1` sleeps. */
  lemma SuccessOnAttempt(outcomes: seq<AttemptOutcome>, maxAttempts: int, k: nat)
    requires AttemptBound(maxAttempts) <= |outcomes|
    requires 1 <= k <= AttemptBound(maxAttempts)
    requires forall j :: 0 <= j < k - 1 ==> Retries(outcomes[j], j + 1, maxAttempts)
    requires outcomes[k - 1].Responded? && !RaisesForStatus(outcomes[k - 1].response.status)
    ensures Run(outcomes, maxAttempts, 0) == Exchange(Ok(outcomes[k - 1].response), k, k - 1)
  {
    StopsAt(outcomes, maxAttempts, k);
  }

  /** The loop stops at the first attempt that does not retry, whatever that attempt yielded. */
  lemma StopsAt(outcomes: seq<AttemptOutcome>, maxAttempts: int, k: nat)
    requires AttemptBound(maxAttempts) <= |outcomes|
    requires 1 <= k <= AttemptBound(maxAttempts)
    requires forall j :: 0 <= j < k - 1 ==> Retries(outcomes[j], j + 1, maxAttempts)
    requires !Retries(outcomes[k - 1], k, maxAttempts)
    ensures Run(outcomes, maxAttempts, 0).attempts == k
  {
  }

  /** An HTTP error outside {429, 500} is re-raised on the attempt that got it. */
  lemma NonRetryableStatusStops(outcomes: seq<AttemptOutcome>, maxAttempts: int, k: nat)
    requires AttemptBound(maxAttempts) <= |outcomes|
    requires 1 <= k <= AttemptBound(maxAttempts)
    requires forall j :: 0 <= j < k - 1 ==> Retries(outcomes[j], j + 1, maxAttempts)
    requires outcomes[k - 1].Responded? && RaisesForStatus(outcomes[k - 1].response.status)
    requires !IsRetryStatus(outcomes[k - 1].response.status)
    ensures Run(outcomes, maxAttempts, 0) == Exchange(Err(HttpFailure(outcomes[k - 1].response.status)), k, k - 1)
  {
    StopsAt(outcomes, maxAttempts, k);
  }

  /** A connection failure or timeout propagates on the attempt that raised it, without retry. */
  lemma TransportFaultStops(outcomes: seq<AttemptOutcome>, maxAttempts: int, k: nat)
    requires AttemptBound(maxAttempts) <= |outcomes|
    requires 1 <= k <= AttemptBound(maxAttempts)
    requires forall j :: 0 <= j < k - 1 ==> Retries(outcomes[j], j + 1, maxAttempts)
    requires outcomes[k - 1].Raised?
    ensures Run(outcomes, maxAttempts, 0) == Exchange(Err(TransportFault(outcomes[k - 1].kind)), k, k - 1)
  {
    StopsAt(outcomes, maxAttempts, k);
  }

  /** When every attempt gets 429 or 500, exactly max(1, max_attempts) requests are made and
      the last status propagates. */
  lemma AllRetryableExhausts(outcomes: seq<AttemptOutcome>, maxAttempts: int)
    requires AttemptBound(maxAttempts) <= |outcomes|
    requires forall j :: 0 <= j < AttemptBound(maxAttempts) ==>
               outcomes[j].Responded? && IsRetryStatus(outcomes[j].response.status)
    ensures var n := AttemptBound(maxAttempts);
            Run(outcomes, maxAttempts, 0) == Exchange(Err(HttpFailure(outcomes[n - 1].response.status)), n, n - 1)
  {
    var n := AttemptBound(maxAttempts);
    forall j | 0 <= j < n - 1
      ensures Retries(outcomes[j], j + 1, maxAttempts)
    {
      assert outcomes[j].response.status in RetryStatuses;
    }
    assert outcomes[n - 1].response.status in RetryStatuses;
    StopsAt(outcomes, maxAttempts, n);
  }

  // ---------------------------------------------------------------- verb helpers

  datatype Verb = Get | Head | Patch | Post | Put | Delete

  function VerbName(v: Verb): string {
    match v
    case Get => "GET"
    case Head => "HEAD"
    case Patch => "PATCH"
    case Post => "POST"
    case Put => "PUT"
    case Delete => "DELETE"
  }

  /** The helpers `get`, `head`, `patch`, `post`, `put` and `delete`: GET and HEAD take no payload. */
  function Send(c: Client, v: Verb, endpoint: string, payload: Option<Json>,
                outcomes: seq<AttemptOutcome>): (r: Call)
    requires AttemptBound(c.maxAttempts) <= |outcomes|
    ensures r.sent.Some? <==> endpoint != "" && endpoint != "/"
    ensures r.sent.Some? ==> Ok(r.sent.value.url) == ResolveUrl(c.baseUrl, endpoint)
    ensures r.sent.Some? ==> r.sent.value.httpMethod == VerbName(v)
    ensures r.sent.Some? && (v == Get || v == Head) ==> r.sent.value.payload == None
    ensures r.sent.Some? && !(v == Get || v == Head) ==> r.sent.value.payload == payload
    ensures r.exchange == Perform(c, VerbName(v), endpoint, if v == Get || v == Head then None else payload, outcomes).exchange
  {
    UpperIdempotent(VerbName(v));
    assert Upper(VerbName(v)) == VerbName(v);
    Perform(c, VerbName(v), endpoint, if v == Get || v == Head then None else payload, outcomes)
  }
}
