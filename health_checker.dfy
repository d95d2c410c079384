/** `check_health` (monitoring.py:75-114). The request itself is not made
    here: what the transport answered for it (a status code and the elapsed
    time, or a `requests.RequestException`) is an input, and the request the
    checker would issue is part of the result. */
module HealthChecker {
  import opened Values
  import opened Events
  import opened BodyCodec

  const LatencyLimitMs: real := 500.0
  const TimeoutSeconds: nat := 5

  /** What the transport answered: a response after some milliseconds, or an
      exception carrying its message. */
  datatype Outcome = Replied(statusCode: int, elapsedMs: real) | TransportError(error: string)

  datatype Status = Up | Down

  /** The three ways a response is judged. */
  datatype Verdict = Healthy | Slow | BadStatus

  /** The arguments of `requests.request(...)`. */
  datatype Request = Request(verb: Value, url: string, headers: map<string, Value>,
                             payload: Payload, timeoutSeconds: nat)

  /** The result, the request issued (if any), and the log lines. */
  datatype Probe = Probe(status: Status, request: Option<Request>, events: seq<Event>)

  function UrlOf(endpoint: map<string, Value>): Value { Get(endpoint, "url", Null) }
  function NameOf(endpoint: map<string, Value>): Value { Get(endpoint, "name", Str("Unnamed endpoint")) }
  function MethodOf(endpoint: map<string, Value>): Value { Get(endpoint, "method", Str("GET")) }
  function BodyOf(endpoint: map<string, Value>): Value { Get(endpoint, "body", Null) }

  /** What the checker needs of a record it probes: a truthy `url` is a
      string, and `headers` (default `{}`) is a mapping whose `content-type`
      is a string. Records outside this shape make the source raise an
      `AttributeError` that is not caught. */
  predicate Probeable(endpoint: map<string, Value>) {
    var headers := Get(endpoint, "headers", Dict(map[]));
    Truthy(UrlOf(endpoint)) ==> UrlOf(endpoint).Str? && headers.Dict? && HeadersShape(headers.entries)
  }

  function HeadersOf(endpoint: map<string, Value>): (h: map<string, Value>)
    requires Probeable(endpoint) && Truthy(UrlOf(endpoint))
    ensures HeadersShape(h)
  {
    Get(endpoint, "headers", Dict(map[])).entries
  }

  /** monitoring.py:103-111: healthy exactly for a 2xx code within 500 ms;
      otherwise slow exactly when over 500 ms, and a bad status when in time. */
  function Classify(statusCode: int, elapsedMs: real): (v: Verdict)
    ensures v == Healthy <==> 200 <= statusCode < 300 && elapsedMs <= LatencyLimitMs
    ensures v == Slow <==> elapsedMs > LatencyLimitMs
    ensures v == BadStatus <==> elapsedMs <= LatencyLimitMs && !(200 <= statusCode < 300)
  {
    if 200 <= statusCode < 300 && elapsedMs <= LatencyLimitMs then Healthy
    else if elapsedMs > LatencyLimitMs then Slow
    else BadStatus
  }

  /** The result for an answer to a request that was made: UP exactly for a
      2xx code within the latency limit. */
  function StatusOf(outcome: Outcome): (s: Status)
    ensures s == Up <==> outcome.Replied? && 200 <= outcome.statusCode < 300 && outcome.elapsedMs <= LatencyLimitMs
  {
    match outcome
    case TransportError(_) => Down
    case Replied(code, ms) => if Classify(code, ms) == Healthy then Up else Down
  }

  /** The status line logged for an answer to a request to `url`: a warning
      whose kind names the verdict, or the transport error. */
  function StatusEvent(url: string, outcome: Outcome): (e: Event)
    ensures e.level == Warning
    ensures e.message.StatusUp? <==> StatusOf(outcome) == Up
    ensures e.message.StatusDownSlow? <==> outcome.Replied? && outcome.elapsedMs > LatencyLimitMs
    ensures e.message.StatusDownCode? <==>
              outcome.Replied? && outcome.elapsedMs <= LatencyLimitMs && !(200 <= outcome.statusCode < 300)
    ensures e.message.StatusDownError? <==> outcome.TransportError?
    ensures StatusOf(outcome) == Up ==> e.message == StatusUp(url, outcome.elapsedMs)
    ensures outcome.Replied? && outcome.elapsedMs > LatencyLimitMs ==>
              e.message == StatusDownSlow(url, outcome.elapsedMs)
    ensures outcome.Replied? && StatusOf(outcome) == Down && outcome.elapsedMs <= LatencyLimitMs ==>
              e.message == StatusDownCode(url, outcome.statusCode)
    ensures outcome.TransportError? ==> e.message == StatusDownError(url, outcome.error)
  {
    match outcome
    case TransportError(error) => Event(Warning, StatusDownError(url, error))
    case Replied(code, ms) =>
      match Classify(code, ms)
      case Healthy => Event(Warning, StatusUp(url, ms))
      case Slow => Event(Warning, StatusDownSlow(url, ms))
      case BadStatus => Event(Warning, StatusDownCode(url, code))
  }

  /** `check_health(endpoint)`, given the transport's answer. */
  function CheckHealth(endpoint: map<string, Value>, outcome: Outcome, loads: string -> Option<Value>): (p: Probe)
    requires Probeable(endpoint)
    // Up exactly for a 2xx answer within the latency limit to a request that was made.
    ensures p.status == Up <==>
              Truthy(UrlOf(endpoint)) && outcome.Replied? &&
              200 <= outcome.statusCode < 300 && outcome.elapsedMs <= LatencyLimitMs
    // A request is made exactly when there is a URL (see IssuedRequest).
    ensures p.request.None? <==> !Truthy(UrlOf(endpoint))
    ensures !Truthy(UrlOf(endpoint)) ==>
              p == Probe(Down, None, [Event(Error, MissingUrlForEndpoint(NameOf(endpoint)))])
    // With a URL: the body warning (if any), then exactly one status line.
    ensures Truthy(UrlOf(endpoint)) ==>
              && |p.events| >= 1
              && p.events[..|p.events| - 1] == ParseBody(BodyOf(endpoint), HeadersOf(endpoint), loads).events
              && p.events[|p.events| - 1] == StatusEvent(UrlOf(endpoint).s, outcome)
              && (p.events[|p.events| - 1].message.StatusUp? <==> p.status == Up)
  {
    var url := UrlOf(endpoint);
    if !Truthy(url) then
      Probe(Down, None, [Event(Error, MissingUrlForEndpoint(NameOf(endpoint)))])
    else
      var headers := HeadersOf(endpoint);
      var parsed := ParseBody(BodyOf(endpoint), headers, loads);
      var request := Request(MethodOf(endpoint), url.s, headers,
                             SelectPayload(parsed.value, headers), TimeoutSeconds);
      var events := parsed.events + [StatusEvent(url.s, outcome)];
      assert events[..|events| - 1] == parsed.events;
      Probe(StatusOf(outcome), Some(request), events)
  }

  /** A request is made exactly for a record with a URL: with the record's
      method, URL and headers and the 5 s timeout, and with the configured
      body sent as `json=` or `data=` according to the content type. */
  lemma IssuedRequest(endpoint: map<string, Value>, outcome: Outcome, loads: string -> Option<Value>)
    requires Probeable(endpoint) && Truthy(UrlOf(endpoint))
    ensures var request := CheckHealth(endpoint, outcome, loads).request;
      var body, headers := BodyOf(endpoint), HeadersOf(endpoint);
      && request.Some?
      && request.value.verb == MethodOf(endpoint)
      && request.value.url == UrlOf(endpoint).s
      && request.value.headers == headers
      && request.value.timeoutSeconds == TimeoutSeconds
      && (!Truthy(body) ==> request.value.payload == Payload(Null, Null))
      && (Truthy(body) && !IsJsonContent(headers) ==> request.value.payload == Payload(Null, body))
      && (Truthy(body) && IsJsonContent(headers) && body.Str? && loads(body.s).Some? ==>
            request.value.payload == Payload(loads(body.s).value, Null))
      && (Truthy(body) && IsJsonContent(headers) && !(body.Str? && loads(body.s).Some?) ==>
            request.value.payload == Payload(body, Null))
  {
    OutboundPayload(BodyOf(endpoint), HeadersOf(endpoint), loads);
  }

  /** A DOWN answer to a request that was made names its reason: "slow" when
      over the limit, the status code otherwise. */
  lemma DownReason(endpoint: map<string, Value>, code: int, ms: real, loads: string -> Option<Value>)
    requires Probeable(endpoint) && Truthy(UrlOf(endpoint))
    requires CheckHealth(endpoint, Replied(code, ms), loads).status == Down
    ensures var events := CheckHealth(endpoint, Replied(code, ms), loads).events;
      events[|events| - 1].message ==
        if ms > LatencyLimitMs then StatusDownSlow(UrlOf(endpoint).s, ms)
        else StatusDownCode(UrlOf(endpoint).s, code)
  {
  }
}
