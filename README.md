# musubi-eval, modelled in Dafny

musubi-eval benchmarks an external vector/hybrid search backend. It reads a scenario
configuration, loads a JSON Lines dataset of documents and labelled queries, uploads the
documents, waits for the backend's ingestion job, warms up search, and then runs every query
under every search parameter set. For each set it reports mean recall, MRR, nDCG and latency
percentiles. A tuner repeats single-parameter runs over Optuna trials and scores each one.
Two scripts build a benchmark subset from Natural Questions and validate a dataset.

This project models that decision logic in Dafny and proves what it promises. Each module
follows one source file:

| module | file | form |
|---|---|---|
| `Values` | Python value semantics shared by all the code: `str()`, truthiness, `dict.get`, `strip()`, `split()`, `join()`, `lower()`, slicing, `in`, iteration | pure |
| `Domain` | `musubi_eval/domain/models.py`, `musubi_eval/config.py` records; `mean` | pure |
| `Util` | `musubi_eval/util.py`: percentiles, the backoff delay | pure |
| `Transport` | the HTTP session, `random.uniform` and `time.sleep` as a class `Wire` with a log and a clock; `sleep_backoff` | imperative |
| `Ports` | `musubi_eval/application/ports.py`: the search gateway with its clock, as a class `World` that records every call | imperative |
| `MusubiHttp` | `musubi_eval/infrastructure/musubi_http.py`: the retry loop and `_extract_ids` | mixed |
| `Client` | `musubi_eval/client.py`: the older client, which retries everything, and its wall-clock waiter | mixed |
| `RunScenario` | `musubi_eval/application/run_scenario.py`: the waiter, the payloads, warm-up, the runner | mixed |
| `Tuning` | `musubi_eval/application/tune_params.py`: penalty, constraint, score, trial bookkeeping | mixed |
| `NqSubset` | `scripts/build_nq_subset.py`: passage extraction, example parsing, selection, ids | mixed |
| `ValidateDataset` | `scripts/validate_dataset.py`: the four checks, the statistics, `validate` | mixed |
| `Dataset` | `musubi_eval/dataset.py`: row conversion and the JSONL loops | mixed |
| `Config` | `musubi_eval/config.py`: `load_scenario` over the decoded YAML value | mixed |

Decoded JSON and YAML values are the datatype `Values.Json`. Every Python exception the code
raises or lets through is a constructor of `Values.Error`, carried by `Values.Result`. Loops
in the source are Dafny methods with `while` loops. Each such method is proved equal to a
specification function, and lemmas state what that function promises. The backend, the clock
and random jitter are oracles held by the classes `Ports.World` and `Transport.Wire`. The
backend's replies, the jitter and the time each call takes are functions of the history so
far, and every call is appended to a ghost log. A method's contract describes its events in
that log. Two assumptions about time restrict the oracles: every call takes at least a fixed
positive time, and a single clock serves `time.time`, `perf_counter` and `sleep`. Both are
listed under "## Left out".

## Model

| member | source | states |
|---|---|---|
| Values.PyStr | musubi_eval/dataset.py:37-38 | str() of a string is the string itself, and str() of any other value is never empty |
| Values.RStripSlashes | musubi_eval/config.py:141 | rstrip("/") removes exactly the trailing slashes: the result is a prefix, does not end in '/', and only slashes were cut |
| Values.LStrip | musubi_eval/dataset.py:24 | the result is a suffix of the input that does not start with whitespace |
| Values.RStrip | musubi_eval/dataset.py:24 | the result is a prefix of the input that does not end with whitespace |
| Values.SplitWords | scripts/build_nq_subset.py:53 | every piece of str.split() is a non-empty run without whitespace |
| Values.SplitJoin | scripts/build_nq_subset.py:54 | splitting a single-space join of words gives back exactly the words |
| Values.Pad5 | scripts/build_nq_subset.py:139-140 | `{idx:05d}` is at least five characters long and all digits |
| Values.Pad5RoundTrip | scripts/build_nq_subset.py:139-140 | the padded id reads back as the index it encodes |
| Values.DecimalRoundTrip | scripts/build_nq_subset.py:139-140 | the decimal digits of n denote n |
| Values.Lower | musubi_eval/application/run_scenario.py:34 | lower() keeps the length |
| Values.LowerChars | musubi_eval/application/run_scenario.py:34 | lower() maps ASCII capitals to small letters and keeps every other character |
| Values.OptionalObject | musubi_eval/dataset.py:39 | `row.get(key)` of an optional mapping is None exactly when absent or null, and the map itself when it is an object |
| Values.PySlice | scripts/build_nq_subset.py:38 | a slice is never longer than the sequence, and with 0 <= i <= j <= len(s) it is exactly the elements i..j |
| Domain.MeanExamples | tests/test_metrics.py:13-15 | mean([]) is 0.0 and mean([1, 2, 3]) is 2.0 |
| Domain.MeanConstant | tests/test_metrics.py:13-15 | the mean of values all equal to c is c |
| Domain.MeanBounds | musubi_eval/application/run_scenario.py:154-159 | the mean of values within [lo, hi] lies within [lo, hi] |
| Util.Sort | musubi_eval/util.py:29 | sorted() returns the same values, as a multiset, in ascending order |
| Util.SortedMinMax | musubi_eval/util.py:29 | the first sorted value is the smallest sample and the last is the largest |
| Util.PyIndex | musubi_eval/util.py:39-40 | an index within range reads the element; one out of range raises IndexError |
| Util.PercentilesNoData | musubi_eval/util.py:27-28 | without samples every requested key is present and maps to None |
| Util.PercentilesKeys | musubi_eval/util.py:43 | the keys are exactly `p{int(p)}` of the requested percentiles |
| Util.PercentilesOfValues | musubi_eval/util.py:43 | every reported value is percentile_value of one of the requested p |
| Util.PercentilesSingle | musubi_eval/util.py:33-34 | with one sample every percentile, in range or not, is that sample |
| Util.PercentileInterpolates | musubi_eval/util.py:35-41 | with n >= 2 and 0 <= p <= 100: lo = floor(p/100·(n-1)), hi = min(lo+1, n-1), frac in [0, 1), and the result is the interpolation of sorted[lo] and sorted[hi] |
| Util.PercentileBetween | musubi_eval/util.py:32-41 | for 0 <= p <= 100 the result exists and lies between the smallest and the largest sample |
| Util.PercentileEnds | musubi_eval/util.py:35-41 | p0 is the smallest sample and p100 the largest |
| Util.PercentileAboveHundred | musubi_eval/util.py:36-39 | for two or more samples, every p whose rank int(p/100*(n-1)) reaches n indexes past the end and raises IndexError, and every such p is above 100 |
| Util.PercentilesInRange | musubi_eval/util.py:26-43 | with samples and every p in [0, 100], every key maps to a number between the smallest and the largest sample |
| Util.BackoffDelayProduct | musubi_eval/util.py:17 | the base delay is min(max_sec, base_sec · 2^max(0, attempt-1)) |
| Util.BackoffDelayFirst | musubi_eval/util.py:17 | the first attempt waits base_sec when that is under the cap |
| Util.BackoffDelayMonotone | musubi_eval/util.py:17 | the base delay never decreases as the attempt grows and never exceeds max_sec |
| Util.BackoffNonNegative | musubi_eval/util.py:17 | non-negative settings give a non-negative delay |
| Util.JitteredDelayBounds | musubi_eval/util.py:18 | a jitter in [0.8, 1.2] puts the slept delay within [0.8, 1.2] times the base delay |
| Transport.Wire.Send | musubi_eval/infrastructure/musubi_http.py:25-30 | one request: the exchange is the network's answer to the log so far, the clock advances by the time it took, and the log gains exactly that request |
| Transport.Wire.Sleep | musubi_eval/util.py:19 | time.sleep refuses a negative duration and otherwise advances the clock by exactly that duration |
| Transport.SleepBackoff | musubi_eval/util.py:15-19 | sleep_backoff draws one jitter and sleeps the capped exponential delay times it, which lies within [0.8, 1.2] of the base delay |
| Transport.BackoffPauseBounds | musubi_eval/util.py:17-18 | the pause of sleep_backoff lies within [0.8, 1.2] times the non-negative capped delay |
| Ports.World.Request | musubi_eval/application/ports.py:7-17 | a gateway call returns the backend's answer to the history, takes at least the shortest call time, and is recorded with its reply |
| Ports.World.Search | musubi_eval/application/ports.py:19-20 | a search returns the ranked ids, or the backend's exception, and is recorded with its reply |
| Ports.World.Sleep | musubi_eval/application/run_scenario.py:41 | the injected sleep refuses a negative interval and otherwise advances the clock by it |
| MusubiHttp.BodyPreview | musubi_eval/infrastructure/musubi_http.py:34-35 | the preview is the first 300 characters of the stripped body, and the whole stripped body when it is no longer |
| MusubiHttp.Classify | musubi_eval/infrastructure/musubi_http.py:31-47 | a 4xx fails at once with its status; a 5xx is retried with the "server error" message and preview; a transport failure is retried; below 400 it succeeds unless a JSON body fails to decode, returning the decoded body for a JSON content type and `{"text": body}` otherwise |
| MusubiHttp.Retry | musubi_eval/infrastructure/musubi_http.py:23-53 | the retried request only extends the log; with max_attempts < 1 nothing is sent and RuntimeError("unreachable") is raised; otherwise the clock advances by at least one request |
| MusubiHttp.Retrying | musubi_eval/infrastructure/musubi_http.py:23-53 | the attempt loop leaves exactly the log, clock and result of the specification Retry |
| MusubiHttp.AttemptsHead | musubi_eval/infrastructure/musubi_http.py:31-52 | after one request: a success returns its body, a 4xx is raised, a retryable error on the last attempt is raised, and a negative backoff pause raises the sleep's error |
| MusubiHttp.AttemptsAlternate | musubi_eval/infrastructure/musubi_http.py:23-52 | requests and pauses alternate, every request but the last was retryable, and there are at most max_attempts requests |
| MusubiHttp.AttemptsPauses | musubi_eval/infrastructure/musubi_http.py:52 | the pause after attempt a lies within [0.8, 1.2] times the capped delay of attempt a |
| MusubiHttp.AttemptsLast | musubi_eval/infrastructure/musubi_http.py:43-50 | the last request decides the result: its body on success, its error otherwise |
| MusubiHttp.AttemptsBounded | musubi_eval/infrastructure/musubi_http.py:23-52 | at most max_attempts requests and max_attempts - 1 pauses, and a 4xx is always the last request and the raised error |
| MusubiHttp.CountAlternating | musubi_eval/infrastructure/musubi_http.py:23-52 | an alternating log of length n holds (n+1)/2 requests and n/2 pauses |
| MusubiHttp.ResponseItems | musubi_eval/infrastructure/musubi_http.py:73-81 | a bare list is used as it is; otherwise the first truthy of `results`, `documents`, `hits`, else the empty list |
| MusubiHttp.IdsOf | musubi_eval/infrastructure/musubi_http.py:82-88 | never more ids than items |
| MusubiHttp.IdsOfAppend | musubi_eval/infrastructure/musubi_http.py:83-87 | extraction keeps order: the ids of a concatenation are the concatenated ids |
| MusubiHttp.IdsOfEach | musubi_eval/infrastructure/musubi_http.py:84-87 | when every item contributes, the ids are the items' ids position by position; when none does, there are none |
| MusubiHttp.ExtractIds | musubi_eval/infrastructure/musubi_http.py:72-88 | the extraction loop returns the ids of the response items, or the error of reading them |
| MusubiHttp.MusubiHttpClient.constructor | musubi_eval/infrastructure/musubi_http.py:13-17 | the base url is stored with its trailing slashes removed |
| MusubiHttp.MusubiHttpClient.Request | musubi_eval/infrastructure/musubi_http.py:19-53 | _request is the retried request to base_url + path, judged by Classify |
| MusubiHttp.MusubiHttpClient.Health | musubi_eval/infrastructure/musubi_http.py:55-56 | a retried GET /health |
| MusubiHttp.MusubiHttpClient.DocumentsBatch | musubi_eval/infrastructure/musubi_http.py:58-59 | a retried POST /documents/batch with the documents under "documents" |
| MusubiHttp.MusubiHttpClient.IngestionStart | musubi_eval/infrastructure/musubi_http.py:61-62 | a retried POST /ingestion/jobs |
| MusubiHttp.MusubiHttpClient.IngestionGet | musubi_eval/infrastructure/musubi_http.py:64-65 | a retried GET /ingestion/jobs/<id> |
| MusubiHttp.MusubiHttpClient.Search | musubi_eval/infrastructure/musubi_http.py:67-69 | a retried POST /search, then the ids extracted from its reply |
| Client.LegacyClassify | musubi_eval/client.py:30-41 | nothing is fatal: a 5xx gives a bare "server error", a 4xx an HTTP error, a transport failure a connection error, all retried; below 400 the response is delivered for decoding |
| Client.ClassifiersAgreeBelow400 | musubi_eval/client.py:30-35 | both clients judge every response below 400 and every transport failure alike |
| Client.LegacyExhausts | musubi_eval/client.py:22-41 | when no attempt ever succeeds, the old client spends all max_attempts requests with a pause between each two, and raises |
| Client.MusubiClient.constructor | musubi_eval/client.py:14-18 | the base url is stored with its trailing slashes removed |
| Client.MusubiClient.Request | musubi_eval/client.py:20-42 | _request is the retried request judged by LegacyClassify |
| Client.MusubiClient.Health | musubi_eval/client.py:44-45 | a retried GET /health |
| Client.MusubiClient.DocumentsBatch | musubi_eval/client.py:47-48 | a retried POST /documents/batch |
| Client.MusubiClient.IngestionStart | musubi_eval/client.py:50-51 | a retried POST /ingestion/jobs |
| Client.MusubiClient.IngestionLast | musubi_eval/client.py:53-54 | a retried GET /ingestion/last |
| Client.MusubiClient.IngestionGet | musubi_eval/client.py:56-57 | a retried GET /ingestion/jobs/<id> |
| Client.MusubiClient.Search | musubi_eval/client.py:59-60 | the raw decoded reply of a retried POST /search, not normalised |
| Client.WaitRoundMeaning | musubi_eval/client.py:72-80 | a poll goes on exactly when it delivered an object whose state is neither ready nor failed and the elapsed time is within the timeout |
| Client.LegacyWaitOutcome | musubi_eval/client.py:69-80 | a returned status is an object in a ready state; a failure carries a status in a failed state; a timeout comes only after more than timeout_sec |
| Client.LegacyWaitGrows | musubi_eval/client.py:69-80 | the wait only appends to the log and never moves the clock back |
| Client.RetryWaitOutcome | musubi_eval/client.py:63-80 | over the client's retried GET of the job, wait_ready keeps the promises of LegacyWaitOutcome |
| Client.LegacyIngestionWaiter.Poll | musubi_eval/client.py:72-80 | one pass of the loop: poll, decide, and sleep poll_interval_sec exactly when the wait goes on |
| Client.LegacyIngestionWaiter.WaitReady | musubi_eval/client.py:69-80 | the loop leaves exactly the log, clock and result of the specification LegacyWait |
| RunScenario.JobStateFallback | musubi_eval/application/run_scenario.py:34 | the state is the lower-cased str() of `state` when truthy, else of `status` when truthy, else "" |
| RunScenario.PollStep | musubi_eval/application/run_scenario.py:35-41 | a poll finishes with its status exactly when the state is ready/completed/done/success; a failed/error state raises with the status; otherwise it times out exactly when now - start > timeout, and sleeps again when not |
| RunScenario.TerminalStateBeatsTimeout | musubi_eval/application/run_scenario.py:35-40 | a ready or failed state on a poll wins over the timeout on that same poll |
| RunScenario.DocumentPayload | musubi_eval/application/run_scenario.py:46 | the payload has `id` and `text`, and `metadata` exactly when the document has metadata |
| RunScenario.BuildDocumentsPayload | musubi_eval/application/run_scenario.py:44-48 | one payload per document, in order |
| RunScenario.DocumentsPayloadRoundTrip | musubi_eval/application/run_scenario.py:44-48 | every document can be read back from its payload |
| RunScenario.MergeFilters | musubi_eval/application/run_scenario.py:57-60 | the merged filter has the union of the keys, and the query-level value wins on a conflict |
| RunScenario.SearchPayload | musubi_eval/application/run_scenario.py:51-67 | `text` and `k` always; `ef` and `alpha` exactly when not None; `filter` exactly when one side has a non-empty filter, and then their merge; no other key |
| RunScenario.SearchPayloadSingleFilter | musubi_eval/application/run_scenario.py:61-64 | when only one side has a non-empty filter it is sent as it is |
| RunScenario.JobId | musubi_eval/application/run_scenario.py:105-106 | the job id is str() of `id` when truthy, else of `job_id` when truthy, and "" exactly when neither is |
| RunScenario.IngestionWaiter.WaitReady | musubi_eval/application/run_scenario.py:30-41 | the events are polls of the job, each judged by PollStep, with a sleep of exactly poll_interval_sec between two; the result is the verdict of the last poll |
| RunScenario.IngestionWaiter.PollRound | musubi_eval/application/run_scenario.py:33-41 | one round ends the wait with its trace complete, or adds one continued poll and its sleep with less time left |
| RunScenario.ScenarioRunner.WaitSearchReady | musubi_eval/application/run_scenario.py:126-139 | nothing without queries; otherwise searches `{text: first query, k: 1}` until one does not raise, sleeping 1.0 after each failure, and raises once a failure comes at or after start + 60 |
| RunScenario.ScenarioRunner.RunQuery | musubi_eval/application/run_scenario.py:165-180 | one search with the query's own payload, its latency in milliseconds from the clock around it, and the metrics of its ranked ids |
| RunScenario.ScenarioRunner.RunParam | musubi_eval/application/run_scenario.py:141-163 | every query searched in order with the set's payload, then the aggregation; the first search that raises ends the set |
| RunScenario.LatencyPercentiles | musubi_eval/application/run_scenario.py:149 | the latency percentiles are percentiles(latencies, [50, 95]) with keys exactly p50 and p95 |
| RunScenario.AggregateNoQueries | musubi_eval/application/run_scenario.py:146-163 | a set without queries reports zero means and p50/p95 of None |
| RunScenario.AggregateLatencyRange | musubi_eval/application/run_scenario.py:149-161 | with queries, p50 and p95 are numbers within the observed latencies |
| RunScenario.AggregateMeanBounds | musubi_eval/application/run_scenario.py:154-159 | metrics within [0, 1] average within [0, 1], and non-negative latencies to a non-negative mean |
| RunScenario.ScenarioRunner.StartIngestion | musubi_eval/application/run_scenario.py:97-104 | health, then documents_batch with the documents payload, then ingestion_start, stopping at the first that raises |
| RunScenario.ScenarioRunner.PrepareIndex | musubi_eval/application/run_scenario.py:97-112 | the set-up calls in order, an empty job id raising before any poll, the wait for the job, then the warm-up |
| RunScenario.ScenarioRunner.AwaitIndex | musubi_eval/application/run_scenario.py:111-112 | wait_ready for the job, then, unless it raised, the search warm-up |
| RunScenario.ScenarioRunner.RunParams | musubi_eval/application/run_scenario.py:114 | one _run_param block per search parameter set, in order, ending at the first that raises |
| RunScenario.ScenarioRunner.Run | musubi_eval/application/run_scenario.py:85-124 | the datasets are read first; then preparation and the parameter sets, with the first exception ending the scenario; the report echoes the configuration |
| RunScenario.ScenarioRunner.ParamTraceCompleted | musubi_eval/application/run_scenario.py:141-163 | a completed set made one search per query and reports every query in order under the set's own name and parameters |
| RunScenario.ScenarioRunner.ReportCoversScenario | musubi_eval/application/run_scenario.py:114-124 | a report holds one run per parameter set, in order, each over every query, and echoes base_url, paths and parameters |
| Tuning.ConstraintPenalty | musubi_eval/application/tune_params.py:15-22 | +1e6 for "minimize", -1e6 for any other direction |
| Tuning.PenaltyIsWorst | musubi_eval/application/tune_params.py:15-22 | the penalty is positive exactly when minimising and negative otherwise |
| Tuning.ObjectiveScoreNoPenalty | musubi_eval/application/tune_params.py:41-46 | without a latency penalty the score is the metric |
| Tuning.ObjectiveScoreMonotone | musubi_eval/application/tune_params.py:41-46 | with a non-negative penalty a better metric never scores lower and a slower p95 never scores higher |
| Tuning.CheckConstraint | musubi_eval/application/tune_params.py:49-55 | violated exactly when there is a limit and the p95 is strictly above it |
| Tuning.AtLimitIsNoViolation | musubi_eval/application/tune_params.py:55 | a p95 exactly at the limit is not a violation |
| Tuning.TrialParam | musubi_eval/application/tune_params.py:135 | the trial's parameters are named trial_<number> and carry the suggested k, ef and alpha |
| Tuning.MetricValue | musubi_eval/application/tune_params.py:145 | an objective metric other than the three reported ones reads as 0.0 |
| Tuning.P95Of | musubi_eval/application/tune_params.py:146 | an absent or None p95 reads as 0.0 |
| Tuning.P95OfNoQueries | musubi_eval/application/tune_params.py:146 | a run without queries records a p95 of 0.0 |
| Tuning.TrialOfScored | musubi_eval/application/tune_params.py:143-171 | the recorded trial is completed, flagged exactly when its p95 breaks the limit, carries the suggestion and copies the run's metrics |
| Tuning.ViolatedTrialScoresPenalty | musubi_eval/application/tune_params.py:148-155 | a violated trial scores exactly the direction's penalty, any other the objective score; no limit means no violation |
| Tuning.TrialToDict | musubi_eval/application/tune_params.py:188-205 | the nested entry has exactly the keys number, params, metrics, latency_ms, score, constraint_violated and status |
| Tuning.TrialDictRoundTrip | musubi_eval/application/tune_params.py:188-205 | every field of the trial can be read back from its entry unchanged |
| Tuning.TrialDicts | musubi_eval/application/tune_params.py:111 | one entry per trial, in order |
| Tuning.HistoryStep | musubi_eval/application/tune_params.py:171 | appending the trial of the next suggestion keeps the history numbered and scored |
| Tuning.ParamTuner.EnsureIngestion | musubi_eval/application/tune_params.py:116-123 | nothing once the index is prepared; otherwise both datasets are read and the index prepared, and the flag is set only when that succeeds |
| Tuning.ParamTuner.Objective | musubi_eval/application/tune_params.py:125-186 | prepares the index if needed, runs the trial's parameters over the queries, and appends exactly one scored trial; an exception leaves the history as it was |
| Tuning.ParamTuner.Run | musubi_eval/application/tune_params.py:72-114 | the history and flag are reset, one trial per suggestion is numbered from 0, the index is prepared at most once, and n_trials is the history's length; with no trial at all, asking for the best trial raises ValueError |
| NqSubset.TokenParts | scripts/build_nq_subset.py:38-43 | the kept token texts are truthy and no more than the tokens |
| NqSubset.JoinTexts | scripts/build_nq_subset.py:44 | the join succeeds exactly when every part is a string |
| NqSubset.ExtractPassageText | scripts/build_nq_subset.py:31-44 | the loop over tokens[start:end] returns the specification PassageText |
| NqSubset.PassageTextWords | scripts/build_nq_subset.py:37-44 | when every kept token is one word, splitting the passage gives exactly the kept tokens in order |
| NqSubset.DocumentTextPassageWords | scripts/build_nq_subset.py:47-54 | the fallback passage is exactly the words start..end of the text, single-spaced and already stripped |
| NqSubset.FirstLongAnswerMeaning | scripts/build_nq_subset.py:68-73 | no annotations means skip, and only the first annotation's long answer is read |
| NqSubset.SpanMeaning | scripts/build_nq_subset.py:74-79 | an unset index reads as -1 and a bool as 0 or 1; a negative start skips the example whatever the other indices are, and a start that is not a number raises TypeError; a span is kept exactly when start and end are ints with 0 <= start < end and candidate >= 0 |
| NqSubset.SpanExamples | scripts/build_nq_subset.py:74-79 | `{"start_token": -1, "end_token": null}` is skipped, and `start_token: false, end_token: 3, candidate_index: 0` keeps tokens 0 to 3 |
| NqSubset.ExamplePassageMeaning | scripts/build_nq_subset.py:81-87 | a non-empty token list wins over the document text, and an example with neither is skipped |
| NqSubset.ParseAccepted | scripts/build_nq_subset.py:57-98 | a candidate has a non-empty stripped question, a non-empty stripped passage from the first annotation's span, and the example's page id, title and url |
| NqSubset.ParseSkips | scripts/build_nq_subset.py:64-79 | a blank question, no annotations, or a rejected span skips the example |
| NqSubset.ParseSkipsPassage | scripts/build_nq_subset.py:81-91 | no passage source, or a passage that strips to nothing, skips the example |
| NqSubset.ParseDocumentText | scripts/build_nq_subset.py:84-91 | an example that falls back to its text yields exactly the words of its span |
| NqSubset.PageIdRule | scripts/build_nq_subset.py:93-96 | str(example_id) when truthy, else the url when truthy, else the title; an example_id of 0 falls back to the url |
| NqSubset.Select | scripts/build_nq_subset.py:123-132 | the selection loop returns the specification SelectFrom |
| NqSubset.SelectKeepsOrder | scripts/build_nq_subset.py:126-129 | the selection is a subsequence of the candidates |
| NqSubset.SelectBound | scripts/build_nq_subset.py:131-132 | at most num_queries are taken, and one when num_queries < 1 because the bound is checked after the take |
| NqSubset.SelectCapped | scripts/build_nq_subset.py:127-130 | no page gets more than max_passages_per_page entries |
| NqSubset.SelectGreedy | scripts/build_nq_subset.py:126-132 | unless the loop stopped at num_queries, every page gets as many of its candidates as the cap allows |
| NqSubset.SelectProperties | scripts/build_nq_subset.py:123-132 | from an empty counter: order kept, at most num_queries, at most the cap per page, and min(cap, candidates of the page) per page when fewer than num_queries were taken |
| NqSubset.DocIdInjective | scripts/build_nq_subset.py:139-140 | distinct positions get distinct document ids and distinct query ids |
| NqSubset.FreshDocId | scripts/build_nq_subset.py:142 | the id of a later position is never among the ids already added |
| NqSubset.AssignIds | scripts/build_nq_subset.py:134-164 | every selected candidate gets one document and one query, with the ids of its position; the doc_id_set check never skips one |
| NqSubset.OutputPaired | scripts/build_nq_subset.py:156-162 | query i's positive_ids is exactly [document i's id], and no two documents or queries share an id |
| NqSubset.BuildFromCandidates | scripts/build_nq_subset.py:123-164 | selection then id assignment: as many documents as queries, one pair per selected candidate |
| ValidateDataset.MessageMentions | scripts/validate_dataset.py:42-116 | each message names the missing key, the word "duplicate", the unknown positive id, or the missing file |
| ValidateDataset.CheckRequiredKeys | scripts/validate_dataset.py:32-43 | the nested loop returns the specification RequiredKeyIssues |
| ValidateDataset.RequiredKeysMeaning | scripts/validate_dataset.py:38-43 | an error for row i and key k exactly when k is required and row i lacks it |
| ValidateDataset.RequiredKeysOrdered | scripts/validate_dataset.py:39-40 | errors come row by row |
| ValidateDataset.RequiredKeysNone | scripts/validate_dataset.py:32-43 | no errors exactly when every row has every required key |
| ValidateDataset.CheckDuplicateIds | scripts/validate_dataset.py:46-61 | the loop returns the specification DuplicateIdIssues |
| ValidateDataset.DuplicateScanFails | scripts/validate_dataset.py:55 | the scan raises exactly when some id is a list or an object, which cannot be a key |
| ValidateDataset.DuplicateIdsMeaning | scripts/validate_dataset.py:52-61 | an error for row i exactly when an earlier row has an equal id (absent reads as ""), naming the first such row; at most one per row, in row order |
| ValidateDataset.DuplicateIdsNone | scripts/validate_dataset.py:46-61 | no errors exactly when no two ids are equal |
| ValidateDataset.CheckPositiveIdsReference | scripts/validate_dataset.py:64-77 | the nested loop returns the specification ReferenceIssues |
| ValidateDataset.UnknownIdsMeaning | scripts/validate_dataset.py:71-76 | one error per positive id no document has, in order; raises exactly when one is a list or an object |
| ValidateDataset.ReferencesMeaning | scripts/validate_dataset.py:69-77 | raises exactly when some query's positive ids are not iterable or hold a list or object; otherwise one error per unknown positive id, query by query |
| ValidateDataset.ReferencesNone | scripts/validate_dataset.py:64-77 | no reference errors exactly when every positive id names a document |
| ValidateDataset.DocKeysMeaning | scripts/validate_dataset.py:130 | doc_ids holds exactly the ids of the documents that have one |
| ValidateDataset.LengthsMeaning | scripts/validate_dataset.py:85-87 | one length per row, in order; raises exactly when some value has no length |
| ValidateDataset.SummaryBounds | scripts/validate_dataset.py:89-96 | no values give all zeros; otherwise min and max are values of the list and min <= mean <= max |
| ValidateDataset.ComputeStatsMeaning | scripts/validate_dataset.py:98-104 | the counts are the row counts, and each summary is over one value per row |
| ValidateDataset.Validate | scripts/validate_dataset.py:107-134 | the existence checks, the loads, then the checks in their fixed order, as the specification ValidateOf |
| ValidateDataset.ValidateMissingFiles | scripts/validate_dataset.py:115-120 | a missing file gives only the file-not-found errors, documents first, and no statistics |
| ValidateDataset.ValidateClean | scripts/validate_dataset.py:107-134 | when both files load and nothing raises, there is no error exactly when the dataset is clean |
| Dataset.LoadDocuments | musubi_eval/dataset.py:30-42 | the loop over the lines returns the specification Loaded with DocumentOfRow |
| Dataset.LoadQueries | musubi_eval/dataset.py:45-59 | the loop over the lines returns the specification Loaded with QueryOfRow |
| Dataset.NonBlank | musubi_eval/dataset.py:23-26 | the yielded lines are never empty and no more than the input lines |
| Dataset.LoadedRecords | musubi_eval/dataset.py:22-27 | the load is the records of the stripped non-blank lines |
| Dataset.LoadedMeaning | musubi_eval/dataset.py:22-59 | every non-blank line yields exactly one record, in order; the load fails exactly when some line does not decode or convert, with the failure of the first |
| Dataset.LoadedSkipsBlank | musubi_eval/dataset.py:24-26 | a blank or whitespace-only line anywhere changes nothing |
| Dataset.DocumentRowMeaning | musubi_eval/dataset.py:33-41 | a row without `id` or `text` raises the "must include" ValueError; id and text are their str(); metadata is None exactly when absent or null |
| Dataset.QueryRowMeaning | musubi_eval/dataset.py:48-57 | a row without `id`, `query` or `positive_ids` raises the "must include" ValueError; positive ids are the row's list stringified, same order and length; filter is None exactly when absent or null |
| Dataset.Stringify | musubi_eval/dataset.py:50 | one str() per id, in order |
| Dataset.PayloadLoadsBack | musubi_eval/dataset.py:30-42 | a document as run() uploads it loads back as the same document |
| Dataset.NqRowsLoad | musubi_eval/dataset.py:30-59 | the rows the NQ builder writes load, the query naming exactly its document |
| Config.ParseIntRoundTrip | musubi_eval/config.py:96 | int() reads back what str() writes for an integer |
| Config.ParseFloatOfInteger | musubi_eval/config.py:105-114 | float() reads an integer's decimal string as that number |
| Config.ParseParams | musubi_eval/config.py:89-101 | the loop over search.params returns the specification ParamsFrom |
| Config.NumberedMeaning | musubi_eval/config.py:90-101 | the entries become parameter sets one for one and in order, entry j numbered j + 1; the loop fails exactly when an entry does, with the first failure |
| Config.ParamOfMeaning | musubi_eval/config.py:91-100 | an entry without k raises "missing required key: k"; the name is str() of its own when truthy and param_<i> otherwise; k is int(k); ef and alpha are passed through |
| Config.LoadScenario | musubi_eval/config.py:75-152 | the lookups in the source's order, with the parameter loop, as the specification ScenarioOf |
| Config.MissingRequiredKeys | musubi_eval/config.py:69-87 | each absent required key raises "missing required key: <key>" in the order base_url, datasets, documents, queries, search, params; a non-list or empty params raises the non-empty-list ValueError; an empty document lacks base_url |
| Config.SettingsDefaults | musubi_eval/config.py:103-145 | an absent retry or ingestion section gives 3 / 0.5 / 5.0 or 1.0 / 600.0, an absent timeout_sec 30.0, and a document with none of the optional keys loads exactly these defaults |
| Config.ScenarioMeaning | musubi_eval/config.py:89-141 | base_url is the configured one with exactly its trailing slashes removed, and the parameter sets are those of the entries, one for one and in order |
| Config.MinimalScenario | musubi_eval/config.py:75-152 | a document with only the required keys loads with param_1 and all the defaults |

## Left out

- HTTP transport, file reads and writes, and JSON/YAML decoding. Responses, files and the
  decoder are parameters or oracles. `Dataset` takes the lines of a file and a decoder, and
  `Config` takes the decoded YAML value.
- Optuna (`TPESampler`, `study.optimize`, `suggest_int` / `suggest_float`, best-trial
  selection). `Tuning.ParamTuner.Run` takes the suggested values as a sequence, and its report
  has no best trial.
- The metric formulas (`recall_at_k`, `mrr`, `ndcg_at_k`, `compute_query_metrics`) live in
  musubi_eval/domain/metrics.py, which is not part of this model. The runner holds them as an
  opaque function. `mean` follows its documented behaviour.
- `prepare_index` and `run_single_param`, which tune_params.py calls, do not exist on the
  runner shown. `RunScenario.ScenarioRunner.PrepareIndex` models the health-to-warm-up part of
  `run`, and `RunParam` stands for `_run_param`.
- Randomness and real time. The jitter, the clock and the request durations are oracles. The
  candidate shuffle of build_nq_subset.py is left out, and selection starts from the
  candidates in shuffled order.
- Floating point. Percentiles, means, scores and delays are real numbers. The `round(..., 2)`
  of the statistics mean is not modelled.
- The serialisers, reporting, the CLI and pipeline wiring, logging setup, `load_jsonl` of
  validate_dataset.py and `main` of both scripts.
- Tuning-configuration loading, which config.py does not define. The tuner takes its settings
  as a value.
- Values.PyStr: floats, lists and dicts render as the placeholder "?" rather than Python's
  repr.
- Values.Iterate: iterating a dict (its keys) is refused with a TypeError, because a map does
  not keep insertion order.
- Values.Lower: only ASCII letters are lower-cased.
- Config.ParseInt: int() of a string accepts only surrounding whitespace, a sign and decimal
  digits; underscores and other bases are not modelled.
- Config.ParseFloat: float() of a string accepts only a sign and digits with at most one
  decimal point; exponents, inf and nan are not modelled.
- Config.LoadScenario: the output, evidently and mlflow sections and log_level are only
  required to be mappings (sections) or ignored (log_level). Their values feed reporting,
  which is not modelled.
- Config.ParamOf: a `filter` that is neither null nor a mapping is refused with a TypeError.
  This is a difference from the source. The model follows the declared type
  `Optional[Dict[str, Any]]` (musubi_eval/config.py:51, musubi_eval/domain/models.py:26). The
  source stores any value unchecked. `_search_payload` (run_scenario.py:61-64) then sends a
  truthy non-mapping filter as it is, and treats a falsy one (`""`, `0`, `[]`) as absent.
- Config.ParamOf: a truthy `name` that is not a string is stored as its str(), because
  `SearchParam.name` is a string, following the `name: str` annotation
  (musubi_eval/domain/models.py:22). The source stores the raw value, so `name: 5` stays the
  int 5 there, and a list or dict name becomes the placeholder "?" here.
- Values.OptionalObject, Dataset.DocumentOfRow and Dataset.QueryOfRow: a `metadata` or
  `filter` that is neither null nor a mapping is refused with a TypeError. This is a
  difference from the source. The model follows the declared type `Optional[Dict[str, Any]]`
  (musubi_eval/domain/models.py:9 and :17). The source stores any value:
  `_build_documents_payload` (run_scenario.py:46) uploads any non-None metadata unchanged, and
  `_search_payload` sends a truthy non-mapping filter.
- Dataset.LoadDocuments: `splitlines()` is modelled by taking the file as a sequence of lines.
- Config.MissingRequiredKeys: the message names the bare key ("documents"), as the code does,
  not the dotted path.
- NqSubset.FirstLongAnswerMeaning: only the first annotation is read, as the code does.
  tests/test_nq_build.py:104-114 expects a fallback to the second one.
- NqSubset.Span: a kept span whose start or end is a float raises TypeError at once. The
  source compares floats like numbers and fails only when it slices with them. So an example
  with such a span and neither `document_tokens` nor `document_text` is skipped by the source
  and is an error here.
- RunScenario.IngestionWaiter.WaitReady and Client.LegacyIngestionWaiter.WaitReady: they
  terminate because every backend call takes at least `minTook` > 0 seconds
  (`Ports.World.Valid`, `Transport.Wire.Valid`). With `poll_interval_sec` of 0 this is what
  moves the clock towards the timeout. The source's `while True` loops (run_scenario.py:33-41,
  client.py:72-80) have no such guarantee against a clock that does not advance.
- Ports.World and Transport.Wire: one clock serves `time.time`, `perf_counter` and `sleep`,
  and only calls and sleeps advance it. In the source these are separate clocks, and time also
  passes between calls.
- MusubiHttp.Delivered: a JSON response body that does not decode is retried. This follows
  requests 2.27 and later, where `response.json()` raises a JSONDecodeError, which is a
  RequestException without a response. Older versions of requests raise a plain ValueError,
  which the retry loop of musubi_http.py does not catch.
- NqSubset.PageIdRule: an example_id of 0 falls back to the url, as the code does.
  tests/test_nq_build.py:125-130 expects "0".
