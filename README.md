# HealthGuard AI query path in Dafny

HealthGuard AI answers free-text health questions with three back-end services
and a public gateway in front of them:

- the **hospital service** searches a fixed table of hospitals and looks one up by id;
- the **insurance service** searches a fixed table of plans, with keyword
  overrides for "cheap" and "best" questions, looks a plan up by id and lists
  the plans whose network includes a hospital;
- the **orchestrator** ("RAG" service) keeps a health flag per data service. It
  fans a query out to the healthy services only, treats any failure as "no
  result", and synthesizes one answer with a confidence score;
- the **gateway** guards each downstream service with a circuit breaker. It
  relays the orchestrator's answer and, when the orchestrator gives nothing,
  calls the two data services itself and builds a short fallback answer.

Modules:

| module | file | what it holds |
|---|---|---|
| `Wrappers` | `wrappers.dfy` | `Option`, `Result` |
| `Text` | `text.dfy` | ASCII lower-casing, Python's substring test `a in b` and `any(w in s ...)` |
| `Seqs` | `seqs.dfy` | filtering, first match, Python's `sorted` |
| `Wire` | `wire.dfy` | JSON replies and call outcomes |
| `Render` | `render.dfy` | answers as sequences of lines, the section loop |
| `Breakers` | `breakers.dfy` | one circuit breaker as a state machine on values |
| `Gateway` | `gateway.dfy` | class `GatewayState`: the breaker table and the gateway's routes |
| `Rag` | `rag.dfy` | class `RagService`: health flags, `generate_response`, `process_query` |
| `Hospitals` | `hospitals.dfy` | hospital table, search, lookup |
| `Insurance` | `insurance.dfy` | plan table, search with overrides, lookup, compatible plans |

Conventions:

- Time is a whole number of seconds passed in as `now`. One gateway request
  reads the clock once for all three of its calls.
- Confidences and ratings are integers in tenths: 0.7 is `7`, a 4.5 rating is `45`.
- A JSON reply is `Empty` (`{}`, which Python treats as false) or a `Body` with
  an optional `status` and a `data` list of records. A record maps field names
  to values, and reading a field it lacks is the `KeyError` the Python code
  would raise.
- An HTTP call is replaced by its `Outcome`: a parsed body, or a timeout, a
  connection error, an error status, or an unexpected exception.
- A `/health` probe is replaced by a `Probe`.
- Where the orchestrator's tasks run inside `asyncio.gather`, each task's
  result is a `Settlement`.
- Answer text is a sequence of `Line`s. Each line records what it is about
  (header, bullet for a record, advisory, canned message), not its wording.

The code is followed where the written design differs from it:

- "emergency" is only a hospital keyword, not an insurance one.
- The gateway's fallback calls the hospital service and then the insurance
  service, one after the other, not in parallel.

## Model

| member | source | states |
|---|---|---|
| Text.Lower | hospital_server.py:81 | lower-casing keeps the length, maps each character on its own and leaves no upper-case letter |
| Text.ContainsIffOccurs | hospital_server.py:86 | the substring test holds exactly when the needle occurs at some position of the haystack |
| Text.EmptyContained | hospital_server.py:86 | the empty query occurs in every string |
| Text.AnyContainedIff | hospital_server.py:87 | `any(w in s for w in words)` holds exactly when some word of the list occurs in `s` |
| Seqs.FilterMembers | hospital_server.py:84-89 | a filtered list holds exactly the elements of the list that pass the test |
| Seqs.FilterSubseq | hospital_server.py:84-89 | a filtered list keeps table order (it is a subsequence) |
| Seqs.FilterAll | hospital_server.py:84-89 | a filter that every element passes returns the whole list |
| Seqs.FirstWhere | hospital_server.py:114 | `next(...)` yields the index of the first element passing the test, or none exactly when no element passes |
| Seqs.InsertBySorted | insurance_server.py:110 | inserting into a sorted list keeps it sorted by the key |
| Seqs.SortBySorted | insurance_server.py:110 | `sorted(..., key=...)` returns a list sorted by the key |
| Seqs.SortBy | insurance_server.py:110 | sorting returns a permutation of its input |
| Seqs.SmallestByKey | insurance_server.py:110 | `sorted(...)[:n]` holds `n` table elements, none taken more often than it occurs, in key order, and every element left out has a key at least that of the last one kept |
| Render.SectionShape | rag_server.py:134-151 | a section has one header when the list is non-empty and at most `cap` bullets, with nothing about the other service; it fails exactly when a listed record lacks a field |
| Render.RenderSection | main.py:221-235 | the append loop fails exactly when a listed record lacks a field, and otherwise appends the header and one bullet per listed record |
| Breakers.PermitsWhenClosed | main.py:63-66 | a closed breaker permits the call and stays as it was |
| Breakers.CooldownReset | main.py:68-78 | an open breaker permits exactly when more than 60 seconds have passed since the last failure, and is then fully reset; otherwise it refuses and nothing changes |
| Breakers.FailureCounts | main.py:80-88 | a failure adds exactly one to the count, stamps the time, and opens the breaker once the count reaches three, never closing it |
| Breakers.SuccessResets | main.py:90-96 | a success resets a breaker that had failures and leaves one without failures alone |
| Breakers.TransitionsKeepInv | main.py:52-96 | every transition keeps "open implies at least three failures and a failure time" |
| Breakers.FailureRunState | main.py:80-88 | after a run of failures the count has grown by its length, the last time is stamped, and the breaker is open exactly when it was open or the count reached three |
| Breakers.ThreeFailuresRefuse | main.py:58-78 | three failures from a fresh breaker make it refuse every call until more than 60 seconds after the last one |
| Breakers.FewFailuresStayClosed | main.py:58-88 | fewer than three failures from a fresh breaker leave it closed and permitting |
| Gateway.CallOutcomes | main.py:98-135 | a refused call changes nothing and yields nothing; a success records a success and yields the body; each failure kind records exactly one failure and yields nothing |
| Gateway.CallKeepsInv | main.py:98-135 | a call keeps the breaker invariant |
| Gateway.BuildFallback | main.py:213-251 | the fallback built with the section loops is the fallback response the route specifies |
| Gateway.FallbackOutcome | main.py:217-264 | the fallback is an error, the fixed apology with confidence 0, exactly when a listed record lacks a field and is degraded otherwise; confidence is 0.7 exactly when a service answered "success", and otherwise 0.1 with the unavailable message; `sources` holds exactly the services that succeeded, each mapped to its reply |
| Gateway.FallbackAtMostTwo | main.py:221-235 | the fallback lists at most two records per service, one header per service that answered with records, nothing about a service that did not |
| Gateway.GatewayState.constructor | main.py:52-56 | every breaker starts closed with no failures |
| Gateway.GatewayState.ShouldCallService | main.py:61-78 | the answer is the breaker's permit; only the named breaker changes, by the gate's own reset |
| Gateway.GatewayState.RecordServiceFailure | main.py:80-88 | only the named breaker changes, by one failure; the invariant is kept |
| Gateway.GatewayState.RecordServiceSuccess | main.py:90-96 | only the named breaker changes, by the success rule; the invariant is kept |
| Gateway.GatewayState.CallService | main.py:98-135 | the result and the named breaker's new state are those of a gated call with the given outcome; the other breakers are untouched |
| Gateway.GatewayState.ResetCircuitBreakers | main.py:305-313 | afterwards every breaker is closed with no failures and no failure time |
| Gateway.GatewayState.ProcessQuery | main.py:192-264 | a truthy orchestrator reply is relayed and only the orchestrator's breaker changes; otherwise the hospital and insurance breakers are stepped too and the response is the fallback built from their results |
| Gateway.RagRefusedFallsBack | main.py:199-251 | with the orchestrator's breaker refusing, a successful hospital reply with well-formed records gives a degraded answer with confidence 0.7 |
| Rag.IsHospitalQuery | rag_server.py:127 | a hospital query is one in which some hospital keyword occurs |
| Rag.IsInsuranceQuery | rag_server.py:128 | an insurance query is one in which some insurance keyword occurs |
| Rag.SafeServiceCall | rag_server.py:96-120 | a call yields a result exactly when it responded, and the result is the parsed body; all four failure kinds yield none |
| Rag.RagService.constructor | rag_server.py:40-46 | the hospital and insurance flags start false and the orchestrator's own flag true |
| Rag.RagService.RefreshServiceStatus | rag_server.py:253-256 | each data flag becomes whether its health probe answered 200; the orchestrator's flag is untouched |
| Rag.RagService.GenerateResponse | rag_server.py:123-169 | the answer and confidence built step by step are those of the synthesis rule, under the current health flags |
| Rag.RagService.ProcessQuery | rag_server.py:173-238 | the response is the specified one: unhealthy services skipped, raised tasks read as no result, a synthesis error turned into the apology |
| Rag.ConfidenceLevels | rag_server.py:130-169 | the final confidence is always 0.1, 0.2, 0.3, 0.4 or 0.9 |
| Rag.ConfidenceFromContributions | rag_server.py:133-167 | once a section is written, confidence is 0.9 with the advisory exactly when both services contributed, and 0.4 without it when one did |
| Rag.SectionsShown | rag_server.py:133-151 | a service's header appears exactly when it contributed and the intent does not exclude it; at most three records are listed per service |
| Rag.NoSectionDegraded | rag_server.py:153-162 | with no section written the answer is the canned message chosen by the health flags alone, with confidence 0.1, 0.2 or 0.3 |
| Rag.CannedMeansNoSection | rag_server.py:133-162 | the answer is a canned message exactly when no section is written |
| Rag.KeyErrorIff | rag_server.py:138-151 | synthesis raises exactly when a listed record lacks a field it reads |
| Rag.UnhealthyNotCalled | rag_server.py:179-190 | an unhealthy service's task result has no influence on the response |
| Rag.ResponseShape | rag_server.py:193-238 | status is "error", with confidence 0 and the apology, exactly when synthesis raised; otherwise each source is available exactly when a result exists and is a placeholder exactly when the result is missing or empty, and otherwise carries the result itself |
| Rag.BothDownAnswer | rag_server.py:153-156 | with both data services unhealthy the answer is the both-down apology with confidence 0.1 |
| Rag.HospitalOnlyAnswer | rag_server.py:133-142 | well-formed hospital records alone give confidence 0.4 and list the first hospital unless the query is only about insurance |
| Hospitals.SearchHospitals | hospital_server.py:81-93 | the search loop returns the specified result |
| Hospitals.SearchShape | hospital_server.py:84-93 | the search is never empty and keeps table order; it returns exactly the matching hospitals when one matches, and the whole table otherwise |
| Hospitals.EmptyQueryMatchesAll | hospital_server.py:81-93 | the empty query returns the whole table |
| Hospitals.CardiologyQuery | hospital_server.py:85-89 | a query mentioning cardiology that matches no other hospital returns only City General Hospital |
| Hospitals.GetHospital | hospital_server.py:114-116 | a found hospital is the first in the table with the id; not-found (404) happens exactly when no hospital has it |
| Insurance.SearchInsurance | insurance_server.py:97-116 | the search loop and overrides return the specified result |
| Insurance.PlainSearch | insurance_server.py:99-116 | without an override word the search returns exactly the matching plans in table order, or the whole table when none matches |
| Insurance.TwoDistinct | insurance_server.py:31-76 | each plan occurs once in the table, so two plans taken from it without repetition are different plans |
| Insurance.BudgetOverride | insurance_server.py:108-110 | a budget word returns two different plans of the table, the two cheapest, in ascending premium order |
| Insurance.QualityOverride | insurance_server.py:111-112 | without a budget word, a quality word returns two different plans of the table, the two best-rated, in descending rating order |
| Insurance.SearchShape | insurance_server.py:99-116 | the search is never empty and returns only plans of the table |
| Insurance.GetInsurance | insurance_server.py:137-139 | a found plan is the first in the table with the id; not-found (404) happens exactly when no plan has it |
| Insurance.CompatibleInsurance | insurance_server.py:156-159 | the compatible plans are exactly those whose network lists the hospital, in table order, possibly none |

## Left out

- HTTP serving is not modelled: FastAPI routing, request and response models, CORS, timestamps, logging and the static frontend.
- Network calls are not modelled. Each HTTP call is replaced by its outcome, given as a parameter, and URLs and timeouts do not appear.
- Concurrency is not modelled: the monitoring loop and its 30-second sleep, `create_task`, `gather` and the simulated processing delays. Their results are given as parameters.
- Concurrent gateway requests are not modelled as interleaving inside one call: `CallService` runs its gate and its record in one step. Two requests could both pass a breaker with two failures, one failing and opening it, the other then succeeding and closing it again; the bundled call cannot produce that order. Each of `ShouldCallService`, `RecordServiceFailure` and `RecordServiceSuccess` keeps `Valid()` on its own, so the breaker invariant holds under any interleaving of them.
- Rag.RagService.ProcessQuery: the orchestrator reads its health flags once when it dispatches the tasks and again, after awaiting them, to choose the degraded message. The model uses one pair of flags for both, so a flag change during the await is not captured.
- The clock is a parameter. One gateway request uses a single reading for its three calls.
- Floating-point confidences and ratings are integer tenths. The only arithmetic on them (0.4 + 0.4, + 0.2, capped at 0.9) is exact in tenths.
- Python's full Unicode `lower()` is replaced by ASCII lower-casing.
- The exact wording and number formatting of answer lines are left out. A line records only its kind and the record it shows.
- Health endpoints are not modelled: the gateway's `health_check`, the services' `/health` and the orchestrator's `/status`.
- The gateway's `/api/status` and direct search endpoints are not modelled. The services' `get_all_*` listings are not modelled either.
- JSON replies that are not objects are not modelled, and neither are the types of record values.
- Error sources that carry `str(e)` carry no text in the model.
- The search and lookup handlers' 500 paths are left out: over the constant tables nothing in them can raise.
- Seqs.SortBy: no lemma states that elements with equal keys keep their input order, as Python's sort does; the plan table has no two equal premiums or ratings, so the overrides do not depend on it.
