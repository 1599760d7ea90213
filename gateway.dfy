/**
 * The gateway: `POST /process-request` checks the API key, applies a fixed-window rate limit
 * kept in a key-value store, replays a cached response for a known request id, and otherwise
 * calls the policy, retriever and processor services in turn, caches the composed response
 * for 24 hours, and writes exactly one audit record per request.
 *
 * The store is a map from keys to values with an expiry time, read against an explicit
 * clock. The three services are reached through `Reply` values given as parameters, and the
 * gateway records each call it issues, so that "no call was made" can be stated.
 */
module Gateway {
  import opened Wrappers
  import opened Payloads
  import Text

  /** Seconds a rate-limit window lasts, from the first request in it. */
  const RateWindow: int := 60
  /** Seconds a cached response is kept. */
  const CacheLifetime: int := 24 * 3600

  function RateKey(apiKey: string): string {
    "rl:" + apiKey
  }

  function CacheKey(requestId: string): string {
    "resp:" + requestId
  }

  predicate IsRateKey(key: string) {
    "rl:" <= key
  }

  predicate IsCacheKey(key: string) {
    "resp:" <= key
  }

  /** Rate keys and cache keys are told apart by their prefixes, so they never collide. */
  lemma KeyKinds(apiKey: string, requestId: string)
    ensures IsRateKey(RateKey(apiKey)) && !IsCacheKey(RateKey(apiKey))
    ensures IsCacheKey(CacheKey(requestId)) && !IsRateKey(CacheKey(requestId))
    ensures RateKey(apiKey) != CacheKey(requestId)
  {
    assert RateKey(apiKey)[1] == 'l';
    assert CacheKey(requestId)[1] == 'e';
  }

  datatype Request = Request(requestId: string, query: string)

  /** The composed reply; `summary` and `label` are whatever the processor sent, if anything. */
  datatype Response = Response(requestId: string, summary: Option<string>, labelText: Option<string>, traceId: string)

  // ---------------------------------------------------------------------------
  // The key-value store
  // ---------------------------------------------------------------------------

  /** A rate-limit counter or a cached response. */
  datatype Value = Counter(count: int) | Cached(response: Response)

  datatype Entry = Entry(value: Value, expiresAt: int)

  type Store = map<string, Entry>

  /** GET: the value under `key`, unless it is missing or has expired at `now`. */
  function Get(store: Store, key: string, now: int): Option<Value> {
    if key in store && now < store[key].expiresAt then Some(store[key].value) else None
  }

  /** A written entry reads back until its expiry time and as absent from then on; every
    * other key reads as before. */
  lemma GetAfterWrite(store: Store, key: string, e: Entry, other: string, now: int)
    ensures Get(store[key := e], key, now) == (if now < e.expiresAt then Some(e.value) else None)
    ensures other != key ==> Get(store[key := e], other, now) == Get(store, other, now)
  {
  }

  /** The highest value a counter reaches: the first request of a window always passes. */
  function Bound(limit: int): int {
    if limit < 1 then 1 else limit
  }

  /** What the gateway needs of the store: rate keys hold positive counters (what `int()` can
    * read back from SET 1 and INCR), and cache keys hold responses. A counter may exceed the
    * limit, for instance after `RATE_LIMIT` was lowered while the store kept its data. */
  ghost predicate WellTyped(store: Store) {
    forall key :: key in store ==>
      (IsRateKey(key) ==> store[key].value.Counter? && 1 <= store[key].value.count) &&
      (IsCacheKey(key) ==> store[key].value.Cached?)
  }

  /** Every counter is at most `Bound(limit)`: what a store only this gateway writes keeps. */
  ghost predicate CountersBounded(store: Store, limit: int) {
    forall key :: key in store && IsRateKey(key) && store[key].value.Counter? ==>
      store[key].value.count <= Bound(limit)
  }

  // ---------------------------------------------------------------------------
  // Statuses, audit records, downstream calls
  // ---------------------------------------------------------------------------

  datatype Status =
    | MissingApiKey | RateLimited | OkCached | PolicyError | PolicyDenied
    | RetrieverError | ProcessorError | Ok

  /** The status string written to the audit log. */
  function Tag(s: Status): string {
    match s
    case MissingApiKey => "missing_api_key"
    case RateLimited => "rate_limited"
    case OkCached => "ok_cached"
    case PolicyError => "policy_error"
    case PolicyDenied => "policy_denied"
    case RetrieverError => "retriever_error"
    case ProcessorError => "processor_error"
    case Ok => "ok"
  }

  /** The HTTP status the client sees. */
  function Code(s: Status): int {
    match s
    case MissingApiKey => 401
    case RateLimited => 429
    case OkCached => 200
    case PolicyError => 503
    case PolicyDenied => 403
    case RetrieverError => 502
    case ProcessorError => 502
    case Ok => 200
  }

  /** Why a downstream call failed: an exception it raised, or a non-2xx status. */
  datatype Failure = Exception(message: string) | HttpStatus(code: int)

  /** The field an audit record carries beyond the common ones. */
  datatype Extra = NoExtra | StatusDetail(text: string) | ErrorText(failure: Failure) | PolicyResponse(text: string)

  datatype AuditEntry = AuditEntry(
    traceId: string, requestId: string, query: string, status: Status, timestamp: int, extra: Extra)

  /** What a downstream call gave back: an exception (transport error, timeout, bad JSON) or a
    * reply with its HTTP status and decoded body. */
  datatype Reply<T> = Raised(message: string) | Replied(code: int, body: T)

  /** The processor's decoded reply; a missing field reads as `None` (`dict.get`). */
  datatype ProcessorBody = ProcessorBody(summary: Option<string>, labelText: Option<string>)

  /** The retriever's decoded JSON: an object, whose "documents" field may be absent, or any
    * other JSON value, on which `.get` raises the error text carried here. */
  datatype RetrievedBody = Object(documents: Option<seq<Document>>) | NotObject(getError: string)

  /** The replies the three services would give to this request. */
  datatype Downstream = Downstream(
    policy: Reply<string>, retriever: Reply<RetrievedBody>, processor: Reply<ProcessorBody>)

  /** A request the gateway sent to a service. */
  datatype Call =
    | PolicyCall(requestId: string, query: string, traceId: string)
    | RetrieverCall(requestId: string, query: string, traceId: string)
    | ProcessorCall(requestId: string, documents: seq<Document>, traceId: string)

  /** What the client receives: the JSON response, or an HTTP error with its detail message. */
  datatype HttpReply = Json(response: Response) | HttpError(code: int, detail: string)

  function HttpCode(r: HttpReply): int {
    if r.Json? then 200 else r.code
  }

  /** `raise_for_status()` passes exactly the 2xx statuses. */
  predicate Is2xx(code: int) {
    200 <= code < 300
  }

  /** `RATE_LIMIT` when the environment does not set it. */
  const DefaultRateLimit: int := 5

  /** The detail of the 429 reply, naming the limit per minute. */
  function RateLimitDetail(limit: int): string {
    "Rate limit exceeded (" + Text.Decimal(limit) + "/min)"
  }

  lemma DefaultRateLimitDetail()
    ensures RateLimitDetail(DefaultRateLimit) == "Rate limit exceeded (5/min)"
    ensures RateLimitDetail(12) == "Rate limit exceeded (12/min)"
  {
  }

  /** Everything one request can change or leave behind. */
  datatype State = State(store: Store, audit: seq<AuditEntry>, sent: seq<Call>)

  // ---------------------------------------------------------------------------
  // The specification of one request
  // ---------------------------------------------------------------------------

  /** `check_rate_limit`: whether the request may go on, and the store afterwards. */
  function RateCheck(limit: int, store: Store, apiKey: string, now: int): (res: (bool, Store))
    requires WellTyped(store)
    ensures WellTyped(res.1)
    ensures CountersBounded(store, limit) ==> CountersBounded(res.1, limit)
  {
    var key := RateKey(apiKey);
    KeyKinds(apiKey, "");
    match Get(store, key, now)
    case None => (true, store[key := Entry(Counter(1), now + RateWindow)])
    case Some(current) =>
      if current.count >= limit then (false, store)
      else (true, store[key := Entry(Counter(current.count + 1), store[key].expiresAt)])
  }

  /** `process_request` for one request arriving at time `now` with trace id `traceId`. */
  function Handle(limit: int, s: State, req: Request, apiKey: Option<string>, traceId: string,
                  now: int, env: Downstream): (res: (State, HttpReply))
    requires WellTyped(s.store)
    ensures WellTyped(res.0.store)
    ensures CountersBounded(s.store, limit) ==> CountersBounded(res.0.store, limit)
  {
    var audited := (status: Status, extra: Extra) =>
      s.audit + [AuditEntry(traceId, req.requestId, req.query, status, now, extra)];
    if apiKey.None? || apiKey.value == "" then
      (s.(audit := audited(MissingApiKey, NoExtra)), HttpError(401, "Missing X-API-KEY header"))
    else
      var (allowed, store) := RateCheck(limit, s.store, apiKey.value, now);
      if !allowed then
        (State(store, audited(RateLimited, NoExtra), s.sent), HttpError(429, RateLimitDetail(limit)))
      else
        KeyKinds(apiKey.value, req.requestId);
        match Get(store, CacheKey(req.requestId), now)
        case Some(cached) =>
          (State(store, audited(OkCached, StatusDetail("returned cached response")), s.sent),
           Json(cached.response))
        case None =>
          var sent1 := s.sent + [PolicyCall(req.requestId, req.query, traceId)];
          match env.policy
          case Raised(e) =>
            (State(store, audited(PolicyError, ErrorText(Exception(e))), sent1),
             HttpError(503, "Policy service unavailable"))
          case Replied(policyCode, policyText) =>
            if policyCode != 200 then
              (State(store, audited(PolicyDenied, PolicyResponse(policyText)), sent1),
               HttpError(403, "Policy denied the request"))
            else
              var sent2 := sent1 + [RetrieverCall(req.requestId, req.query, traceId)];
              match env.retriever
              case Raised(e) =>
                (State(store, audited(RetrieverError, ErrorText(Exception(e))), sent2),
                 HttpError(502, "Retriever service error"))
              case Replied(retrieverCode, retrieved) =>
                if !Is2xx(retrieverCode) then
                  (State(store, audited(RetrieverError, ErrorText(HttpStatus(retrieverCode))), sent2),
                   HttpError(502, "Retriever service error"))
                else
                  match retrieved
                  case NotObject(e) =>
                    (State(store, audited(ProcessorError, ErrorText(Exception(e))), sent2),
                     HttpError(502, "Processor service error"))
                  case Object(documents) =>
                    var sent3 := sent2 + [ProcessorCall(req.requestId, documents.GetOr([]), traceId)];
                    match env.processor
                    case Raised(e) =>
                      (State(store, audited(ProcessorError, ErrorText(Exception(e))), sent3),
                       HttpError(502, "Processor service error"))
                    case Replied(processorCode, processed) =>
                      if !Is2xx(processorCode) then
                        (State(store, audited(ProcessorError, ErrorText(HttpStatus(processorCode))), sent3),
                         HttpError(502, "Processor service error"))
                      else
                        var response := Response(req.requestId, processed.summary, processed.labelText, traceId);
                        var cacheEntry := Entry(Cached(response), now + CacheLifetime);
                        (State(store[CacheKey(req.requestId) := cacheEntry], audited(Ok, NoExtra), sent3),
                         Json(response))
  }

  // ---------------------------------------------------------------------------
  // The gateway process: the store, the audit log and the calls it has sent
  // ---------------------------------------------------------------------------

  class Gateway {
    const rateLimit: int
    var store: Store
    var audit: seq<AuditEntry>
    var sent: seq<Call>

    ghost predicate Valid()
      reads this
    {
      WellTyped(store)
    }

    function Snapshot(): State
      reads this
    {
      State(store, audit, sent)
    }

    constructor (rateLimit: int)
      ensures this.rateLimit == rateLimit
      ensures store == map[] && audit == [] && sent == []
      ensures Valid()
    {
      this.rateLimit := rateLimit;
      store := map[];
      audit := [];
      sent := [];
    }

    /** `write_audit`: one line appended to the log. */
    method WriteAudit(entry: AuditEntry)
      modifies this`audit
      ensures audit == old(audit) + [entry]
    {
      audit := audit + [entry];
    }

    /** Sends a request to a service; its reply is one of the `Downstream` values. */
    method Post(call: Call)
      modifies this`sent
      ensures sent == old(sent) + [call]
    {
      sent := sent + [call];
    }

    /** `check_rate_limit`: a GET, then either a SET with a 60-second expiry or an INCR,
      * which keeps the key's expiry. */
    method CheckRateLimit(apiKey: string, now: int) returns (allowed: bool)
      requires Valid()
      modifies this`store
      ensures Valid()
      ensures (allowed, store) == RateCheck(rateLimit, old(store), apiKey, now)
    {
      var key := RateKey(apiKey);
      KeyKinds(apiKey, "");
      var current := Get(store, key, now);
      if current.None? {
        store := store[key := Entry(Counter(1), now + RateWindow)];
        return true;
      }
      if current.value.count >= rateLimit {
        return false;
      }
      store := store[key := Entry(Counter(current.value.count + 1), store[key].expiresAt)];
      return true;
    }

    /** `process_request` */
    method ProcessRequest(req: Request, apiKey: Option<string>, traceId: string, now: int,
                          env: Downstream) returns (reply: HttpReply)
      requires Valid()
      modifies this
      ensures Valid()
      ensures (Snapshot(), reply) == Handle(rateLimit, old(Snapshot()), req, apiKey, traceId, now, env)
      ensures |audit| == |old(audit)| + 1
    {
      var entry := AuditEntry(traceId, req.requestId, req.query, Ok, now, NoExtra);

      if apiKey.None? || apiKey.value == "" {
        WriteAudit(entry.(status := MissingApiKey));
        return HttpError(401, "Missing X-API-KEY header");
      }

      var allowed := CheckRateLimit(apiKey.value, now);
      if !allowed {
        WriteAudit(entry.(status := RateLimited));
        return HttpError(429, RateLimitDetail(rateLimit));
      }

      var cacheKey := CacheKey(req.requestId);
      KeyKinds(apiKey.value, req.requestId);
      var cached := Get(store, cacheKey, now);
      if cached.Some? {
        WriteAudit(entry.(status := OkCached, extra := StatusDetail("returned cached response")));
        return Json(cached.value.response);
      }

      Post(PolicyCall(req.requestId, req.query, traceId));
      if env.policy.Raised? {
        WriteAudit(entry.(status := PolicyError, extra := ErrorText(Exception(env.policy.message))));
        return HttpError(503, "Policy service unavailable");
      }
      if env.policy.code != 200 {
        WriteAudit(entry.(status := PolicyDenied, extra := PolicyResponse(env.policy.body)));
        return HttpError(403, "Policy denied the request");
      }

      Post(RetrieverCall(req.requestId, req.query, traceId));
      var failure: Option<Failure> := None;
      if env.retriever.Raised? {
        failure := Some(Exception(env.retriever.message));
      } else if !Is2xx(env.retriever.code) {
        failure := Some(HttpStatus(env.retriever.code));
      }
      if failure.Some? {
        WriteAudit(entry.(status := RetrieverError, extra := ErrorText(failure.value)));
        return HttpError(502, "Retriever service error");
      }
      if env.retriever.body.NotObject? {
        WriteAudit(entry.(status := ProcessorError, extra := ErrorText(Exception(env.retriever.body.getError))));
        return HttpError(502, "Processor service error");
      }
      var documents := env.retriever.body.documents.GetOr([]);

      Post(ProcessorCall(req.requestId, documents, traceId));
      if env.processor.Raised? {
        failure := Some(Exception(env.processor.message));
      } else if !Is2xx(env.processor.code) {
        failure := Some(HttpStatus(env.processor.code));
      }
      if failure.Some? {
        WriteAudit(entry.(status := ProcessorError, extra := ErrorText(failure.value)));
        return HttpError(502, "Processor service error");
      }
      var processed := env.processor.body;

      var response := Response(req.requestId, processed.summary, processed.labelText, traceId);
      store := store[cacheKey := Entry(Cached(response), now + CacheLifetime)];

      WriteAudit(entry);
      return Json(response);
    }
  }
}
