/**
 * Properties of the gateway's request handling, stated on `Handle` and `RateCheck`, which
 * `Gateway.ProcessRequest` and `Gateway.CheckRateLimit` are proved to implement.
 */
module GatewayProperties {
  import opened Wrappers
  import opened Payloads
  import opened Gateway
  import opened Arith
  import Text
  import Policy

  /** The live counter for `apiKey` at `now`, 0 when there is none. */
  function Count(store: Store, apiKey: string, now: int): int {
    match Get(store, RateKey(apiKey), now)
    case Some(Counter(n)) => n
    case _ => 0
  }

  /** The store after `Handle`, and its reply. */
  function After(limit: int, s: State, req: Request, apiKey: Option<string>, traceId: string,
                 now: int, env: Downstream): State
    requires WellTyped(s.store)
  {
    Handle(limit, s, req, apiKey, traceId, now, env).0
  }

  function ReplyOf(limit: int, s: State, req: Request, apiKey: Option<string>, traceId: string,
                   now: int, env: Downstream): HttpReply
    requires WellTyped(s.store)
  {
    Handle(limit, s, req, apiKey, traceId, now, env).1
  }

  /** The audit record this request writes. */
  function Record(req: Request, traceId: string, now: int, status: Status, extra: Extra): AuditEntry {
    AuditEntry(traceId, req.requestId, req.query, status, now, extra)
  }

  /** The key is present and the rate check lets the request through. */
  predicate Admitted(limit: int, store: Store, apiKey: Option<string>, now: int)
    requires WellTyped(store)
  {
    apiKey.Some? && apiKey.value != "" && RateCheck(limit, store, apiKey.value, now).0
  }

  /** The store once the rate check of an admitted request has run. */
  function Counted(limit: int, store: Store, apiKey: Option<string>, now: int): Store
    requires WellTyped(store) && apiKey.Some?
  {
    RateCheck(limit, store, apiKey.value, now).1
  }

  /** Admitted, and no live cached response for the request id. */
  predicate Miss(limit: int, store: Store, req: Request, apiKey: Option<string>, now: int)
    requires WellTyped(store)
  {
    Admitted(limit, store, apiKey, now) && Get(store, CacheKey(req.requestId), now).None?
  }

  // ---------------------------------------------------------------------------
  // The rate limiter
  // ---------------------------------------------------------------------------

  /** A request passes exactly when the live counter is below `max(limit, 1)`; passing adds
    * one to the counter (a new window starts at 1 and lasts 60 seconds, an existing one keeps
    * its expiry), refusing leaves the store as it was, and no other key changes. */
  lemma RateCheckCounts(limit: int, store: Store, apiKey: string, now: int)
    requires WellTyped(store)
    ensures var (allowed, store') := RateCheck(limit, store, apiKey, now);
      && (allowed <==> Count(store, apiKey, now) < Bound(limit))
      && (allowed ==> Count(store', apiKey, now) == Count(store, apiKey, now) + 1)
      && (!allowed ==> store' == store)
      && (Get(store, RateKey(apiKey), now).None? ==>
            store'[RateKey(apiKey)] == Entry(Counter(1), now + RateWindow))
      && (Get(store, RateKey(apiKey), now).Some? ==>
            store'[RateKey(apiKey)].expiresAt == store[RateKey(apiKey)].expiresAt)
      && store' - {RateKey(apiKey)} == store - {RateKey(apiKey)}
  {
    KeyKinds(apiKey, "");
  }

  /** The outcomes of a run of rate checks for one key at the given times. */
  function RateRun(limit: int, store: Store, apiKey: string, times: seq<int>): (seq<bool>, Store)
    requires WellTyped(store)
    decreases |times|
  {
    if times == [] then ([], store)
    else
      var (allowed, next) := RateCheck(limit, store, apiKey, times[0]);
      var (rest, final) := RateRun(limit, next, apiKey, times[1..]);
      ([allowed] + rest, final)
  }

  /** Inside a live window holding count `c`, the i-th further request passes exactly when
    * `c + i` is below the bound; the counter climbs to the bound and no further, and a counter
    * already at or above the bound stays where it is. */
  lemma {:induction false} WindowContinues(limit: int, store: Store, apiKey: string, times: seq<int>,
                                           c: int, expiry: int)
    requires WellTyped(store)
    requires RateKey(apiKey) in store && store[RateKey(apiKey)] == Entry(Counter(c), expiry)
    requires forall i :: 0 <= i < |times| ==> times[i] < expiry
    ensures var (allowed, final) := RateRun(limit, store, apiKey, times);
      && |allowed| == |times|
      && (forall i :: 0 <= i < |times| ==> allowed[i] == (c + i < Bound(limit)))
      && RateKey(apiKey) in final
      && final[RateKey(apiKey)] == Entry(Counter(Max(c, Min(c + |times|, Bound(limit)))), expiry)
    decreases |times|
  {
    KeyKinds(apiKey, "");
    assert 1 <= c;
    if times != [] {
      var (allowed0, next) := RateCheck(limit, store, apiKey, times[0]);
      var c' := if c < Bound(limit) then c + 1 else c;
      assert next[RateKey(apiKey)] == Entry(Counter(c'), expiry);
      WindowContinues(limit, next, apiKey, times[1..], c', expiry);
      var (rest, final) := RateRun(limit, next, apiKey, times[1..]);
      assert RateRun(limit, store, apiKey, times) == ([allowed0] + rest, final);
    }
  }

  /** Within one window opened by a request at `times[0]`, the first `max(limit, 1)` requests
    * pass and every later one is refused; the counter never exceeds `max(limit, 1)`. */
  lemma WindowBurst(limit: int, store: Store, apiKey: string, times: seq<int>)
    requires WellTyped(store)
    requires |times| > 0 && Get(store, RateKey(apiKey), times[0]).None?
    requires forall i :: 0 <= i < |times| ==> times[i] < times[0] + RateWindow
    ensures var (allowed, final) := RateRun(limit, store, apiKey, times);
      && |allowed| == |times|
      && (forall i :: 0 <= i < |times| ==> allowed[i] == (i < Bound(limit)))
      && RateKey(apiKey) in final
      && final[RateKey(apiKey)].value == Counter(Min(|times|, Bound(limit)))
  {
    var expiry := times[0] + RateWindow;
    var (allowed0, next) := RateCheck(limit, store, apiKey, times[0]);
    assert next[RateKey(apiKey)] == Entry(Counter(1), expiry);
    WindowContinues(limit, next, apiKey, times[1..], 1, expiry);
    var (rest, final) := RateRun(limit, next, apiKey, times[1..]);
    assert RateRun(limit, store, apiKey, times) == ([allowed0] + rest, final);
    assert Max(1, Min(1 + |times[1..]|, Bound(limit))) == Min(|times|, Bound(limit));
  }

  // ---------------------------------------------------------------------------
  // One request, exit by exit
  // ---------------------------------------------------------------------------

  /** An absent or empty API key: 401, one audit record, the store untouched, no call made. */
  lemma MissingKeyRejected(limit: int, s: State, req: Request, apiKey: Option<string>,
                           traceId: string, now: int, env: Downstream)
    requires WellTyped(s.store)
    requires apiKey.None? || apiKey.value == ""
    ensures ReplyOf(limit, s, req, apiKey, traceId, now, env) == HttpError(401, "Missing X-API-KEY header")
    ensures After(limit, s, req, apiKey, traceId, now, env) ==
      State(s.store, s.audit + [Record(req, traceId, now, MissingApiKey, NoExtra)], s.sent)
  {
  }

  /** A refused rate check: 429 naming the limit, the store untouched, no call made. */
  lemma RateLimitedRejected(limit: int, s: State, req: Request, apiKey: Option<string>,
                            traceId: string, now: int, env: Downstream)
    requires WellTyped(s.store)
    requires apiKey.Some? && apiKey.value != ""
    requires Count(s.store, apiKey.value, now) >= Bound(limit)
    ensures ReplyOf(limit, s, req, apiKey, traceId, now, env) == HttpError(429, RateLimitDetail(limit))
    ensures After(limit, s, req, apiKey, traceId, now, env) ==
      State(s.store, s.audit + [Record(req, traceId, now, RateLimited, NoExtra)], s.sent)
  {
    RateCheckCounts(limit, s.store, apiKey.value, now);
  }

  /** A live cached response is returned as it was stored; no service is called, the cache
    * entry stays as it was, and only the rate counter has moved. */
  lemma CacheHitReplays(limit: int, s: State, req: Request, apiKey: Option<string>,
                        traceId: string, now: int, env: Downstream, cached: Response)
    requires WellTyped(s.store)
    requires Admitted(limit, s.store, apiKey, now)
    requires Get(s.store, CacheKey(req.requestId), now) == Some(Cached(cached))
    ensures ReplyOf(limit, s, req, apiKey, traceId, now, env) == Json(cached)
    ensures After(limit, s, req, apiKey, traceId, now, env) ==
      State(Counted(limit, s.store, apiKey, now),
            s.audit + [Record(req, traceId, now, OkCached, StatusDetail("returned cached response"))],
            s.sent)
    ensures After(limit, s, req, apiKey, traceId, now, env).store[CacheKey(req.requestId)] ==
      s.store[CacheKey(req.requestId)]
  {
    KeyKinds(apiKey.value, req.requestId);
  }

  /** The policy call raised: 503, `policy_error` with the error text, nothing called after it. */
  lemma PolicyUnavailable(limit: int, s: State, req: Request, apiKey: Option<string>,
                          traceId: string, now: int, env: Downstream)
    requires WellTyped(s.store)
    requires Miss(limit, s.store, req, apiKey, now)
    requires env.policy.Raised?
    ensures ReplyOf(limit, s, req, apiKey, traceId, now, env) == HttpError(503, "Policy service unavailable")
    ensures After(limit, s, req, apiKey, traceId, now, env) ==
      State(Counted(limit, s.store, apiKey, now),
            s.audit + [Record(req, traceId, now, PolicyError, ErrorText(Exception(env.policy.message)))],
            s.sent + [PolicyCall(req.requestId, req.query, traceId)])
  {
    KeyKinds(apiKey.value, req.requestId);
  }

  /** The policy answered with anything but 200: 403, `policy_denied` with its reply text. */
  lemma PolicyRefuses(limit: int, s: State, req: Request, apiKey: Option<string>,
                      traceId: string, now: int, env: Downstream)
    requires WellTyped(s.store)
    requires Miss(limit, s.store, req, apiKey, now)
    requires env.policy.Replied? && env.policy.code != 200
    ensures ReplyOf(limit, s, req, apiKey, traceId, now, env) == HttpError(403, "Policy denied the request")
    ensures After(limit, s, req, apiKey, traceId, now, env) ==
      State(Counted(limit, s.store, apiKey, now),
            s.audit + [Record(req, traceId, now, PolicyDenied, PolicyResponse(env.policy.body))],
            s.sent + [PolicyCall(req.requestId, req.query, traceId)])
  {
    KeyKinds(apiKey.value, req.requestId);
  }

  /** The retriever raised or answered outside 2xx: 502, `retriever_error`, no processor call. */
  lemma RetrieverFails(limit: int, s: State, req: Request, apiKey: Option<string>,
                       traceId: string, now: int, env: Downstream)
    requires WellTyped(s.store)
    requires Miss(limit, s.store, req, apiKey, now)
    requires env.policy.Replied? && env.policy.code == 200
    requires env.retriever.Raised? || !Is2xx(env.retriever.code)
    ensures ReplyOf(limit, s, req, apiKey, traceId, now, env) == HttpError(502, "Retriever service error")
    ensures After(limit, s, req, apiKey, traceId, now, env) ==
      State(Counted(limit, s.store, apiKey, now),
            s.audit + [Record(req, traceId, now, RetrieverError,
                              ErrorText(if env.retriever.Raised? then Exception(env.retriever.message)
                                        else HttpStatus(env.retriever.code)))],
            s.sent + [PolicyCall(req.requestId, req.query, traceId),
                      RetrieverCall(req.requestId, req.query, traceId)])
  {
    KeyKinds(apiKey.value, req.requestId);
  }

  /** The retriever's JSON is not an object: reading its "documents" raises inside the
    * processor step, so the client gets 502 and `processor_error` with that error text, and the
    * processor is never called. */
  lemma RetrievedNotObject(limit: int, s: State, req: Request, apiKey: Option<string>,
                           traceId: string, now: int, env: Downstream)
    requires WellTyped(s.store)
    requires Miss(limit, s.store, req, apiKey, now)
    requires env.policy.Replied? && env.policy.code == 200
    requires env.retriever.Replied? && Is2xx(env.retriever.code) && env.retriever.body.NotObject?
    ensures ReplyOf(limit, s, req, apiKey, traceId, now, env) == HttpError(502, "Processor service error")
    ensures After(limit, s, req, apiKey, traceId, now, env) ==
      State(Counted(limit, s.store, apiKey, now),
            s.audit + [Record(req, traceId, now, ProcessorError,
                              ErrorText(Exception(env.retriever.body.getError)))],
            s.sent + [PolicyCall(req.requestId, req.query, traceId),
                      RetrieverCall(req.requestId, req.query, traceId)])
  {
    KeyKinds(apiKey.value, req.requestId);
  }

  /** The processor raised or answered outside 2xx: 502, `processor_error`, nothing cached. It
    * was sent the retrieved documents, or none when the reply had no "documents". */
  lemma ProcessorFails(limit: int, s: State, req: Request, apiKey: Option<string>,
                       traceId: string, now: int, env: Downstream)
    requires WellTyped(s.store)
    requires Miss(limit, s.store, req, apiKey, now)
    requires env.policy.Replied? && env.policy.code == 200
    requires env.retriever.Replied? && Is2xx(env.retriever.code) && env.retriever.body.Object?
    requires env.processor.Raised? || !Is2xx(env.processor.code)
    ensures ReplyOf(limit, s, req, apiKey, traceId, now, env) == HttpError(502, "Processor service error")
    ensures After(limit, s, req, apiKey, traceId, now, env) ==
      State(Counted(limit, s.store, apiKey, now),
            s.audit + [Record(req, traceId, now, ProcessorError,
                              ErrorText(if env.processor.Raised? then Exception(env.processor.message)
                                        else HttpStatus(env.processor.code)))],
            s.sent + [PolicyCall(req.requestId, req.query, traceId),
                      RetrieverCall(req.requestId, req.query, traceId),
                      ProcessorCall(req.requestId, env.retriever.body.documents.GetOr([]), traceId)])
  {
    KeyKinds(apiKey.value, req.requestId);
  }

  /** Every stage succeeded: 200 with the processor's summary and label, the request id and the
    * fresh trace id; that response is cached under `resp:<request_id>` for 24 hours. */
  lemma FullSuccess(limit: int, s: State, req: Request, apiKey: Option<string>,
                    traceId: string, now: int, env: Downstream)
    requires WellTyped(s.store)
    requires Miss(limit, s.store, req, apiKey, now)
    requires env.policy.Replied? && env.policy.code == 200
    requires env.retriever.Replied? && Is2xx(env.retriever.code) && env.retriever.body.Object?
    requires env.processor.Replied? && Is2xx(env.processor.code)
    ensures var response :=
      Response(req.requestId, env.processor.body.summary, env.processor.body.labelText, traceId);
      && ReplyOf(limit, s, req, apiKey, traceId, now, env) == Json(response)
      && After(limit, s, req, apiKey, traceId, now, env) ==
         State(Counted(limit, s.store, apiKey, now)[CacheKey(req.requestId) :=
                 Entry(Cached(response), now + CacheLifetime)],
               s.audit + [Record(req, traceId, now, Ok, NoExtra)],
               s.sent + [PolicyCall(req.requestId, req.query, traceId),
                         RetrieverCall(req.requestId, req.query, traceId),
                         ProcessorCall(req.requestId, env.retriever.body.documents.GetOr([]), traceId)])
  {
    KeyKinds(apiKey.value, req.requestId);
  }

  // ---------------------------------------------------------------------------
  // Every request
  // ---------------------------------------------------------------------------

  /** Every request appends exactly one audit record, with its request id, query, trace id and
    * time; the HTTP status the client sees is the one that record's status maps to. The calls
    * made are a prefix of policy, retriever, processor, and only the request's own rate and
    * cache keys can change. */
  lemma OneRecordPerRequest(limit: int, s: State, req: Request, apiKey: Option<string>,
                            traceId: string, now: int, env: Downstream)
    requires WellTyped(s.store)
    ensures var (s', reply) := Handle(limit, s, req, apiKey, traceId, now, env);
      && |s'.audit| == |s.audit| + 1
      && s'.audit[..|s.audit|] == s.audit
      && s'.audit[|s.audit|].requestId == req.requestId
      && s'.audit[|s.audit|].query == req.query
      && s'.audit[|s.audit|].traceId == traceId
      && s'.audit[|s.audit|].timestamp == now
      && HttpCode(reply) == Code(s'.audit[|s.audit|].status)
      && s.sent <= s'.sent
      && |s'.sent| <= |s.sent| + 3
      && (|s'.sent| > |s.sent| ==> s'.sent[|s.sent|] == PolicyCall(req.requestId, req.query, traceId))
      && (|s'.sent| > |s.sent| + 1 ==> s'.sent[|s.sent| + 1] == RetrieverCall(req.requestId, req.query, traceId))
      && (|s'.sent| > |s.sent| + 2 ==>
            s'.sent[|s.sent| + 2].ProcessorCall? && s'.sent[|s.sent| + 2].requestId == req.requestId &&
            s'.sent[|s.sent| + 2].traceId == traceId)
  {
    if apiKey.None? || apiKey.value == "" {
      MissingKeyRejected(limit, s, req, apiKey, traceId, now, env);
    } else if !RateCheck(limit, s.store, apiKey.value, now).0 {
      RateCheckCounts(limit, s.store, apiKey.value, now);
      RateLimitedRejected(limit, s, req, apiKey, traceId, now, env);
    } else if Get(s.store, CacheKey(req.requestId), now).Some? {
      var cached := Get(s.store, CacheKey(req.requestId), now).value;
      assert cached.Cached?;
      CacheHitReplays(limit, s, req, apiKey, traceId, now, env, cached.response);
    } else if env.policy.Raised? {
      PolicyUnavailable(limit, s, req, apiKey, traceId, now, env);
    } else if env.policy.code != 200 {
      PolicyRefuses(limit, s, req, apiKey, traceId, now, env);
    } else if env.retriever.Raised? || !Is2xx(env.retriever.code) {
      RetrieverFails(limit, s, req, apiKey, traceId, now, env);
    } else if env.retriever.body.NotObject? {
      RetrievedNotObject(limit, s, req, apiKey, traceId, now, env);
    } else if env.processor.Raised? || !Is2xx(env.processor.code) {
      ProcessorFails(limit, s, req, apiKey, traceId, now, env);
    } else {
      FullSuccess(limit, s, req, apiKey, traceId, now, env);
    }
  }

  /** The store changes at the request's rate key and cache key only. */
  lemma OnlyOwnKeysChange(limit: int, s: State, req: Request, apiKey: Option<string>,
                          traceId: string, now: int, env: Downstream)
    requires WellTyped(s.store)
    requires apiKey.Some?
    ensures After(limit, s, req, apiKey, traceId, now, env).store - {RateKey(apiKey.value), CacheKey(req.requestId)}
            == s.store - {RateKey(apiKey.value), CacheKey(req.requestId)}
  {
    KeyKinds(apiKey.value, req.requestId);
    RateCheckCounts(limit, s.store, apiKey.value, now);
  }

  /** Each exit has its own audit status; the two policy failures reach the client as different
    * HTTP statuses. */
  lemma StatusesDistinct(a: Status, b: Status)
    ensures Tag(a) == Tag(b) ==> a == b
    ensures Code(PolicyDenied) != Code(PolicyError)
  {
    if a != b {
      match a
      case MissingApiKey => assert Tag(a)[0] == 'm';
      case RateLimited => assert Tag(a)[0] == 'r' && Tag(a)[1] == 'a';
      case OkCached => assert |Tag(a)| == 9;
      case PolicyError => assert Tag(a)[7] == 'e';
      case PolicyDenied => assert Tag(a)[7] == 'd';
      case RetrieverError => assert Tag(a)[0] == 'r' && Tag(a)[1] == 'e';
      case ProcessorError => assert Tag(a)[0] == 'p' && Tag(a)[1] == 'r';
      case Ok => assert |Tag(a)| == 2;
    }
  }

  // ---------------------------------------------------------------------------
  // Across requests
  // ---------------------------------------------------------------------------

  /** Once a request has gone all the way through, a later request with the same request id,
    * within 24 hours and past the rate check, whatever its query, gets the same response back
    * and calls no service. */
  lemma ReplayAfterSuccess(limit: int, s: State, first: Request, key1: Option<string>, trace1: string,
                           now1: int, env1: Downstream, second: Request, key2: Option<string>,
                           trace2: string, now2: int, env2: Downstream)
    requires WellTyped(s.store)
    requires Miss(limit, s.store, first, key1, now1)
    requires ReplyOf(limit, s, first, key1, trace1, now1, env1).Json?
    requires second.requestId == first.requestId
    requires now2 < now1 + CacheLifetime
    requires Admitted(limit, After(limit, s, first, key1, trace1, now1, env1).store, key2, now2)
    ensures var s1 := After(limit, s, first, key1, trace1, now1, env1);
      && ReplyOf(limit, s1, second, key2, trace2, now2, env2) == ReplyOf(limit, s, first, key1, trace1, now1, env1)
      && After(limit, s1, second, key2, trace2, now2, env2).sent == s1.sent
  {
    var s1 := After(limit, s, first, key1, trace1, now1, env1);
    var r1 := ReplyOf(limit, s, first, key1, trace1, now1, env1);
    KeyKinds(key1.value, first.requestId);
    KeyKinds(key2.value, first.requestId);
    assert s1.store[CacheKey(first.requestId)] == Entry(Cached(r1.response), now1 + CacheLifetime);
    CacheHitReplays(limit, s1, second, key2, trace2, now2, env2, r1.response);
  }

  // ---------------------------------------------------------------------------
  // With the policy service itself behind the gateway
  // ---------------------------------------------------------------------------

  /** The reply the policy service gives the gateway for this request. */
  function PolicyServiceReply(req: Request, traceId: string): Reply<string> {
    match Policy.Decide(Policy.PolicyRequest(req.requestId, req.query, Some(traceId)))
    case Allowed => Replied(200, "{\"allowed\":true}")
    case Denied(code, detail) => Replied(code, "{\"detail\":\"" + detail + "\"}")
  }

  /** A query mentioning "forbidden" in any case never reaches the retriever or the processor;
    * once admitted without a cached response it is refused with 403. */
  lemma ForbiddenStopsAtPolicy(limit: int, s: State, req: Request, apiKey: Option<string>,
                               traceId: string, now: int, env: Downstream)
    requires WellTyped(s.store)
    requires env.policy == PolicyServiceReply(req, traceId)
    requires Text.Contains(Text.Lower(req.query), "forbidden")
    ensures var (s', reply) := Handle(limit, s, req, apiKey, traceId, now, env);
      && s.sent <= s'.sent
      && (forall c :: c in s'.sent[|s.sent|..] ==> c.PolicyCall?)
      && (Miss(limit, s.store, req, apiKey, now) ==> reply == HttpError(403, "Policy denied the request"))
  {
    Text.ContainsAt(Text.Lower(req.query), "forbidden");
    var d := Policy.Decide(Policy.PolicyRequest(req.requestId, req.query, Some(traceId)));
    assert d.Denied? && d.code == 403;
    OneRecordPerRequest(limit, s, req, apiKey, traceId, now, env);
    if Miss(limit, s.store, req, apiKey, now) {
      PolicyRefuses(limit, s, req, apiKey, traceId, now, env);
    }
  }
}
