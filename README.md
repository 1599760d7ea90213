# Microservices API gateway, modelled in Dafny

The system is a small pipeline of four HTTP services.

- The **gateway** takes `POST /process-request` with a request id and a query. It does the following in order:
  1. Checks that an `X-API-KEY` header is present.
  2. Applies a per-key rate limit, kept as a counter in Redis under `rl:<key>` that expires after 60 seconds.
  3. Replays a cached response for a request id it has already answered, stored under `resp:<request_id>` for 24 hours.
  4. Asks the **policy** service whether the query is allowed.
  5. Asks the **retriever** for documents.
  6. Asks the **processor** to summarise and label them.
  7. Caches the composed response and returns it.

  Every exit writes exactly one audit record, carrying a status string and, on some exits, an extra field.
- The **policy** service refuses with 403 any query that contains "forbidden" in any letter case.
- The **retriever** scores five built-in documents by how many distinct lower-cased words they share with the query. It returns up to three documents with a positive score, best first. When nothing matches, it returns the first three documents.
- The **processor** handles its list of documents as follows:
  1. It rejects an empty list with 400.
  2. It keeps the text before the first `.` of every document, dropping empty ones, and strips each piece.
  3. It joins the pieces with spaces and cuts the result to 300 characters, ending in `...`.
  4. It labels the summary by the first keyword group found: `vitamin` gives "nutrition", then `sweet`/`sugar` give "taste", then `potassium` gives "mineral", and otherwise the label is "general".

The model has the following parts:

- `wrappers.dfy` defines `Option`, the `Document` type (a string-to-string map) and, in module `Arith`, `Min` and `Max`.
- `text.dfy` defines the Python string operations the services use, restricted to ASCII: `lower`, `in`, `split()`, `strip()`, `split(".")[0]`, `" ".join` and `str(int)`.
- `policy.dfy`, `retriever.dfy` and `processor.dfy` hold one service each.
- `gateway.dfy` has two parts:
  - The pure specification `Handle` of one request, over the store, the audit log and the list of downstream calls made.
  - A class `Gateway` whose fields are those three things. Its imperative `ProcessRequest` and `CheckRateLimit` are proved equal to the specification.
- `gateway_properties.dfy` proves what a request does on each exit. It also proves the rate-limit window behaviour and the replay of a cached response. It ends by composing the gateway with the policy service.
- `scenarios.dfy` works out the apples document.

The model handles the outside world in these ways:

- The replies of the three services are parameters, in a `Downstream` value. Each reply either raises an exception with a message or answers with a status code and a body.
- Redis is a map from keys to a value with an expiry time. Rate keys hold positive counters and cache keys hold responses. A counter may be above the limit; such a request is simply refused. That a store written only by this gateway keeps every counter at most `max(limit, 1)` is proved separately.
- The clock is a parameter `now`, read once per request. The fresh trace id is a parameter `traceId`.
- The audit file is a sequence of records that is appended to.
- `RATE_LIMIT` is the gateway's constructor parameter.

The first stored document mentions vitamin C, yet summarised alone it is labelled "taste": only the text before its first `.` reaches the label check (`Scenarios.ApplesSummary`).

## Model

| member | source | states |
|---|---|---|
| Text.ContainsAt | microservices-gateway/policy/main.py:15 | `sub in s` holds exactly when `sub` occurs at some index of `s` |
| Text.ContainsTransitive | microservices-gateway/processor/main.py:32 | a substring of a substring is a substring |
| Text.WordsAreWords | microservices-gateway/retriever/main.py:27 | every word `split()` returns is non-empty and holds no whitespace |
| Text.WordsSeparated | microservices-gateway/retriever/main.py:29 | `split()` of two texts joined by one whitespace character is the concatenation of their words |
| Text.WordsOfWord | microservices-gateway/retriever/main.py:29 | a non-empty text with no whitespace splits into itself alone |
| Text.WordsOfSpace | microservices-gateway/retriever/main.py:29 | a text of whitespace alone splits into no words |
| Text.StripIsTrimmedSlice | microservices-gateway/processor/main.py:24 | `strip()` is a slice of its input that drops only whitespace at both ends and keeps non-whitespace at both of its own ends |
| Text.StripUnpadded | microservices-gateway/processor/main.py:24 | a text without whitespace at either end strips to itself |
| Text.BeforeDotIsFirstPiece | microservices-gateway/processor/main.py:22 | `text.split(".")[0]` is a prefix of the text with no `.`, and is the whole text or followed by `.` |
| Text.BeforeDotOfSentence | microservices-gateway/processor/main.py:22 | for `p + "." + rest` with no `.` in `p`, the first piece is `p` |
| Text.JoinContainsParts | microservices-gateway/processor/main.py:25 | every joined part occurs in the joined text |
| Text.LowerConcat | microservices-gateway/policy/main.py:15 | lower-casing distributes over concatenation |
| Text.Lower | microservices-gateway/policy/main.py:15 | `str.lower` on ASCII, character by character; its properties are `Text.LowerConcat` and `Text.LowerMissing` |
| Text.LowerMissing | microservices-gateway/processor/main.py:31-32 | a letter absent from a text in both cases is absent from its lower-cased form |
| Text.Contains | microservices-gateway/policy/main.py:15 | `sub in s`; `Text.ContainsAt` ties it to an occurrence at some index |
| Text.Words | microservices-gateway/retriever/main.py:27 | `split()` with no separator; `Text.WordsAreWords`, `Text.WordsSeparated` and `Text.WordsOfWord` pin it down |
| Text.Strip | microservices-gateway/processor/main.py:24 | `strip()`; `Text.StripIsTrimmedSlice` pins it down |
| Text.BeforeDot | microservices-gateway/processor/main.py:22 | `split(".")[0]`; `Text.BeforeDotIsFirstPiece` pins it down |
| Text.Join | microservices-gateway/processor/main.py:25 | `sep.join(parts)`; `Text.JoinContainsParts` states that every part occurs in the result |
| Policy.Decide | microservices-gateway/policy/main.py:12-18 | denied with 403 exactly when "forbidden" occurs at some index of the lower-cased query; allowed otherwise |
| Policy.CaseInsensitive | microservices-gateway/policy/main.py:15 | queries that agree after lower-casing get the same decision |
| Policy.EmptyQueryAllowed | microservices-gateway/policy/main.py:13 | the empty query is allowed |
| Policy.DeniedUnderExtension | microservices-gateway/policy/main.py:15 | a denied query stays denied with any text before or after it |
| Retriever.WordSet | microservices-gateway/retriever/main.py:27-29 | `set(s.lower().split())`, the distinct words of the lower-cased text; `Retriever.WordSetWords` states what its members are |
| Retriever.WordSetWords | microservices-gateway/retriever/main.py:27-29 | every member of a word set is a word of the lower-cased text, non-empty and free of whitespace; a whitespace-only text has no words |
| Retriever.ScoreAll | microservices-gateway/retriever/main.py:26-31 | one score per document, in dataset order, each the number of distinct lower-cased query words in that document's text |
| Retriever.SortByScore | microservices-gateway/retriever/main.py:33 | the scored list is reordered by non-increasing score and is a permutation of the input |
| Retriever.SortStable | microservices-gateway/retriever/main.py:33 | documents with equal scores keep their dataset order, as `nlargest` does |
| Retriever.Largest | microservices-gateway/retriever/main.py:33 | `heapq.nlargest(n, scores, key=score)`: the first `n` entries of the stable sort by score |
| Retriever.Chosen | microservices-gateway/retriever/main.py:33-34 | the positive entries among the three largest; `Retriever.ChosenShape` and the lemmas after it state what is chosen |
| Retriever.Results | microservices-gateway/retriever/main.py:33-37 | the chosen documents, or the first three of the dataset when none is chosen; `Retriever.ResultsShape` and the two lemmas after it state the cases |
| Retriever.ChosenCount | microservices-gateway/retriever/main.py:33-34 | exactly `min(3, p)` entries are chosen, where `p` is the number of entries that score above zero |
| Retriever.ChosenShape | microservices-gateway/retriever/main.py:33-34 | exactly `min(3, p)` entries are chosen, `p` being the number scoring above zero; each is in the scored list with a positive score; they are best first |
| Retriever.ChosenTiesInOrder | microservices-gateway/retriever/main.py:33-34 | the chosen documents of any one score are a prefix of the documents with that score, in dataset order |
| Retriever.NothingBetterOmitted | microservices-gateway/retriever/main.py:33-34 | no document left out scores higher than one chosen |
| Retriever.SomethingChosen | microservices-gateway/retriever/main.py:33-34 | when some document has a positive score, something is chosen |
| Retriever.PositiveMembers | microservices-gateway/retriever/main.py:34 | the filter keeps exactly the members with a positive score and no more entries than it was given; a non-increasing input gives a non-increasing output |
| Retriever.PositiveConcat | microservices-gateway/retriever/main.py:34 | the filter distributes over concatenation, so the kept entries stay in input order |
| Retriever.PositiveCountSorted | microservices-gateway/retriever/main.py:33-34 | sorting by score keeps the number of entries that score above zero |
| Retriever.PositivePrefixCount | microservices-gateway/retriever/main.py:33-34 | in a list sorted best first, a prefix of length `m` holds `min(m, p)` of its `p` positive entries |
| Retriever.ResultsShape | microservices-gateway/retriever/main.py:33-37 | one to three results for a non-empty dataset, all taken from the dataset |
| Retriever.FallbackWhenNothingMatches | microservices-gateway/retriever/main.py:36-37 | when every score is 0, the result is the first three documents of the dataset |
| Retriever.MatchesWhenSomethingScores | microservices-gateway/retriever/main.py:33-34 | when some score is positive, the result is the chosen documents, all with positive scores |
| Retriever.Retrieve | microservices-gateway/retriever/main.py:22-38 | echoes the request and trace ids; the documents are the specified results over the built-in dataset, one to three of them, each from the dataset |
| Processor.Contribution | microservices-gateway/processor/main.py:21-24 | what one pass of the loop appends: nothing when the text before the first `.` is empty, otherwise that text stripped; `Processor.ContributionShape` states its shape |
| Processor.ContributionShape | microservices-gateway/processor/main.py:21-24 | one document adds at most one sentence, none exactly when its pre-dot text is empty, and that sentence holds no `.`; a lone document's sentence list is its contribution |
| Processor.Sentences | microservices-gateway/processor/main.py:19-24 | the stripped text before the first `.` of each document whose pre-dot text is not empty, in document order; `Processor.SentencesConcat` and `Processor.SentencesBounded` state its shape |
| Processor.Summary | microservices-gateway/processor/main.py:25-27 | the sentences joined by spaces and cut to 300 characters; `Processor.Truncate`, `Processor.SentencesInSummary` and `Processor.SingleSentence` state what it holds |
| Processor.SentencesConcat | microservices-gateway/processor/main.py:19-24 | the sentences of two document lists joined are the sentences of each, in order |
| Processor.SentencesBounded | microservices-gateway/processor/main.py:19-24 | at most one sentence per document; none when every pre-dot text is empty |
| Processor.Truncate | microservices-gateway/processor/main.py:26-27 | the summary has at most 300 characters; a short one is unchanged; a long one keeps its first 297 characters and ends in `...` |
| Processor.VitaminCMentionsVitamin | microservices-gateway/processor/main.py:32 | the `"vitamin c"` test never decides anything the `"vitamin"` test did not |
| Processor.Label | microservices-gateway/processor/main.py:30-37 | each of the four labels is given exactly when its keyword group is the first found, in priority order |
| Processor.Process | microservices-gateway/processor/main.py:12-39 | 400 exactly for an empty document list; otherwise echoes the ids, the summary is the specified one of at most 300 characters, and the label is the one specified for that summary |
| Processor.SentencesInSummary | microservices-gateway/processor/main.py:25-27 | when the summary is not cut, every sentence appears in it |
| Processor.SingleSentence | microservices-gateway/processor/main.py:19-27 | a lone document whose text is a clean first sentence followed by `.` is summarised as exactly that sentence |
| Processor.ApplesLabel | microservices-gateway/processor/main.py:34-35 | "Apples are red and sweet" is labelled "taste" |
| Scenarios.ApplesSummary | microservices-gateway/retriever/main.py:10 | the first stored document is summarised alone as "Apples are red and sweet" and labelled "taste" |
| Gateway.KeyKinds | microservices-gateway/gateway/main.py:38 | rate keys and cache keys have distinct prefixes and never collide |
| Gateway.Get | microservices-gateway/gateway/main.py:39 | Redis GET, as at lines 39 and 73: the stored value while `now` is before the key's expiry time, absent once `now` reaches it or when the key was never written; `Gateway.GetAfterWrite` states how it reads a write |
| Gateway.GetAfterWrite | microservices-gateway/gateway/main.py:39 | a written entry reads back until its expiry time and as absent from then on; every other key reads as before |
| Gateway.RateLimitDetail | microservices-gateway/gateway/main.py:69 | the 429 detail `Rate limit exceeded (<limit>/min)`, with the limit in decimal; `Gateway.DefaultRateLimitDetail` works it out |
| Gateway.DefaultRateLimitDetail | microservices-gateway/gateway/main.py:18 | with the default `RATE_LIMIT` of 5 the detail is `Rate limit exceeded (5/min)`; a two-digit limit such as 12 is written out in full |
| Gateway.RateCheck | microservices-gateway/gateway/main.py:36-50 | the rate check keeps the store well typed (positive counters under rate keys, responses under cache keys), and keeps every counter at most `max(limit, 1)` when it was so before |
| Gateway.Handle | microservices-gateway/gateway/main.py:52-130 | one request keeps the store well typed, and keeps every counter at most `max(limit, 1)` when it was so before; what it does on each exit is stated by the `GatewayProperties` lemmas |
| Gateway.Gateway.CheckRateLimit | microservices-gateway/gateway/main.py:36-50 | the imperative GET/SET/INCR sequence gives the specified verdict and store and keeps the store well typed |
| Gateway.Gateway.WriteAudit | microservices-gateway/gateway/main.py:28-31 | `write_audit`: appends exactly the given entry to the log; only `audit` may change |
| Gateway.Gateway.Post | microservices-gateway/gateway/main.py:83-110 | each of the three `client.post` calls appends exactly that call to the list of calls made; only `sent` may change; the reply is taken from the `Downstream` parameter |
| Gateway.Gateway.ProcessRequest | microservices-gateway/gateway/main.py:52-130 | the imperative handler produces the specified store, audit log, calls and reply, keeps the store well typed and appends exactly one audit record |
| GatewayProperties.RateCheckCounts | microservices-gateway/gateway/main.py:36-50 | a request passes exactly when the live counter is below `max(limit, 1)`. Passing adds one to the counter; a new window starts at 1 with a 60-second expiry, and an existing one keeps its expiry. Refusing changes nothing, and no other key changes |
| GatewayProperties.WindowContinues | microservices-gateway/gateway/main.py:44-50 | inside a live window at count `c`, the i-th further request passes exactly when `c + i` is below the bound; the counter climbs to `min(c + n, bound)`, or stays at `c` when `c` is already at or above the bound, and the expiry is unchanged |
| GatewayProperties.WindowBurst | microservices-gateway/gateway/main.py:36-50 | within 60 seconds of opening a window, the first `max(limit, 1)` requests pass and every later one is refused |
| GatewayProperties.MissingKeyRejected | microservices-gateway/gateway/main.py:59-63 | an absent or empty key gives 401 and a `missing_api_key` record; the store is untouched and no call is made |
| GatewayProperties.RateLimitedRejected | microservices-gateway/gateway/main.py:65-69 | a full window gives 429 with the limit in the detail and a `rate_limited` record; the store is untouched and no call is made |
| GatewayProperties.CacheHitReplays | microservices-gateway/gateway/main.py:71-78 | a live cached response is returned unchanged with an `ok_cached` record and its status detail; no call is made, and only the rate counter moves |
| GatewayProperties.PolicyUnavailable | microservices-gateway/gateway/main.py:80-87 | a policy call that raises gives 503 and a `policy_error` record with the error text; only the policy was called |
| GatewayProperties.PolicyRefuses | microservices-gateway/gateway/main.py:88-91 | a policy reply other than 200 gives 403 and a `policy_denied` record with the reply text; only the policy was called |
| GatewayProperties.RetrieverFails | microservices-gateway/gateway/main.py:93-103 | a retriever call that raises or answers outside 2xx gives 502 and a `retriever_error` record; the processor is not called |
| GatewayProperties.RetrievedNotObject | microservices-gateway/gateway/main.py:105-115 | a retriever reply whose JSON is not an object makes reading "documents" raise inside the processor step: 502 and a `processor_error` record with that error text, and the processor is never called |
| GatewayProperties.ProcessorFails | microservices-gateway/gateway/main.py:105-115 | a processor call that raises or answers outside 2xx gives 502 and a `processor_error` record; nothing is cached; the processor was sent the retrieved documents, or none |
| GatewayProperties.FullSuccess | microservices-gateway/gateway/main.py:117-130 | the reply is the processor's summary and label with the request and trace ids; it is cached under `resp:<request_id>` for 24 hours; the record is `ok`; all three services were called in order |
| GatewayProperties.OneRecordPerRequest | microservices-gateway/gateway/main.py:52-130 | every request appends exactly one audit record with its ids, query and time; the HTTP status matches the record's status; the calls made are a prefix of policy, retriever, processor |
| GatewayProperties.OnlyOwnKeysChange | microservices-gateway/gateway/main.py:38 | a request changes the store at its own rate key and cache key only |
| GatewayProperties.StatusesDistinct | microservices-gateway/gateway/main.py:61 | distinct exits write distinct status strings; the two policy failures reach the client as different HTTP statuses |
| GatewayProperties.ReplayAfterSuccess | microservices-gateway/gateway/main.py:71-78 | after a request goes all the way through, a later request with the same id within 24 hours gets the identical response and calls no service |
| GatewayProperties.PolicyServiceReply | microservices-gateway/policy/main.py:12-18 | the reply the policy service gives: 200 with `{"allowed":true}`, or its 403 with the detail, as decided by `Policy.Decide` |
| GatewayProperties.ForbiddenStopsAtPolicy | microservices-gateway/gateway/main.py:80-91 | with the real policy service, a query containing "forbidden" never reaches the retriever or processor, and is refused with 403 once admitted without a cached response |

## Left out

- HTTP transport, FastAPI routing, `/health` endpoints and JSON encoding are not modelled. A cached response is stored and returned as the response value itself, not as JSON text.
- Request validation by pydantic is not modelled. A body without `documents` is refused with 422 before `process` runs, so only the empty list reaches the 400 exit.
- Timeouts and connection failures of `httpx` are not modelled separately: every failure is a `Raised` reply carrying its message.
- The audit `error` text for a retriever or processor reply outside 2xx is kept as the status code alone (`HttpStatus(code)`). The source writes `str(e)` of httpx's `HTTPStatusError`, a message that also names the reason phrase and the URL.
- A retriever reply whose `documents` is JSON `null` is read as absent, so the processor is modelled as sent `[]`. The source would forward `null`, which the processor refuses with 422 rather than 400. The gateway's outcome, a `processor_error` record and 502, is the same either way.
- A processor reply that is not a JSON object is not modelled. Reading `summary` from it would raise outside any `try`: an unhandled 500 with no audit record. `summary` and `label` are taken as possibly absent strings.
- Redis failures are not modelled. Such a failure would be an unhandled 500 with no audit record.
- The non-atomic GET-then-INCR is not modelled. Requests are handled one at a time, so concurrent requests racing on one counter are out of scope.
- The store is typed: rate keys hold positive counters and cache keys hold responses. The gateway keeps this invariant itself. A store written by someone else is excluded if it holds a counter that is not a positive integer (where `int()` would raise, or INCR would start below 1) or a cached value that is not a response.
- Each request reads the clock once. The source reads it separately for the audit timestamp and for each Redis expiry.
- `uuid4` trace ids are a parameter, so their uniqueness is not modelled.
- The audit file, `LOG_PATH` and the other environment settings are not modelled. The audit log is an in-memory sequence, and the rate limit is a constructor argument.
- Text handling covers ASCII only. Unicode case mapping and Unicode whitespace are not modelled.
- Document fields that are not strings are not modelled, in either the retriever or the processor. Documents are string-to-string maps.
