/** Scenario orchestration (musubi_eval/application/run_scenario.py): polling the ingestion
    job, warming up search, the request payloads, and one benchmark run per search
    parameter set. */
module RunScenario {
  import opened Values
  import opened Domain
  import opened Util
  import opened Ports

  // ---------------------------------------------------------------- ingestion status

  const ReadyStates: set<string> := {"ready", "completed", "done", "success"}
  const FailedStates: set<string> := {"failed", "error"}

  /** The job state a status reply reports: `state`, else `status`, else "", as str() and
      lower-cased. */
  function JobState(status: map<string, Json>): string {
    Lower(PyStr(Or(Or(Get(status, "state"), Get(status, "status")), JStr(""))))
  }

  /** The state is read from `state` when that is truthy, else from `status` when that is
      truthy, else it is "". */
  lemma JobStateFallback(status: map<string, Json>)
    ensures Truthy(Get(status, "state")) ==> JobState(status) == Lower(PyStr(status["state"]))
    ensures !Truthy(Get(status, "state")) && Truthy(Get(status, "status")) ==>
      JobState(status) == Lower(PyStr(status["status"]))
    ensures !Truthy(Get(status, "state")) && !Truthy(Get(status, "status")) ==> JobState(status) == ""
  {
  }

  /** What one poll of the waiting loop decides. */
  datatype Step = Finish(status: map<string, Json>) | Fail(error: Error) | Continue

  /** The decision after a poll that returned `status`, `elapsed` seconds after the wait
      began. */
  function PollStep(status: map<string, Json>, elapsed: real, timeout: real): (step: Step)
    ensures step.Finish? <==> JobState(status) in ReadyStates
    ensures step.Finish? ==> step.status == status
    ensures JobState(status) in FailedStates ==> step == Fail(IngestionFailed(JObj(status)))
    ensures JobState(status) !in ReadyStates + FailedStates ==>
      (step == Fail(IngestionTimedOut) <==> elapsed > timeout) &&
      (step == Continue <==> elapsed <= timeout)
  {
    var state := JobState(status);
    if state in ReadyStates then Finish(status)
    else if state in FailedStates then Fail(IngestionFailed(JObj(status)))
    else if elapsed > timeout then Fail(IngestionTimedOut)
    else Continue
  }

  /** A terminal state on a poll wins over the timeout on that same poll. */
  lemma TerminalStateBeatsTimeout(status: map<string, Json>, elapsed: real, timeout: real)
    requires JobState(status) in ReadyStates + FailedStates
    requires elapsed > timeout
    ensures PollStep(status, elapsed, timeout) != Fail(IngestionTimedOut)
  {
    if JobState(status) in FailedStates {
      assert "failed" != "ready" && "error" != "ready";
    }
  }

  // ---------------------------------------------------------------- payloads

  /** One document as sent to documents_batch. */
  function DocumentPayload(d: Document): (m: map<string, Json>)
    ensures m.Keys == {"id", "text"} + (if d.metadata.Some? then {"metadata"} else {})
    ensures m["id"] == JStr(d.id) && m["text"] == JStr(d.text)
    ensures d.metadata.Some? ==> m["metadata"] == JObj(d.metadata.value)
  {
    var base := map["id" := JStr(d.id), "text" := JStr(d.text)];
    if d.metadata.Some? then base["metadata" := JObj(d.metadata.value)] else base
  }

  /** The list sent to documents_batch: one payload per document, in order. */
  function BuildDocumentsPayload(documents: seq<Document>): (r: seq<map<string, Json>>)
    ensures |r| == |documents|
    ensures forall i :: 0 <= i < |documents| ==> r[i] == DocumentPayload(documents[i])
  {
    seq(|documents|, i requires 0 <= i < |documents| => DocumentPayload(documents[i]))
  }

  /** Reads a document back from its payload. */
  function DocumentFromPayload(m: map<string, Json>): Option<Document> {
    if "id" in m && m["id"].JStr? && "text" in m && m["text"].JStr? then
      if "metadata" in m then
        if m["metadata"].JObj? then Some(Document(m["id"].s, m["text"].s, Some(m["metadata"].fields)))
        else None
      else Some(Document(m["id"].s, m["text"].s, None))
    else None
  }

  /** The payload loses nothing: every document can be read back from it. */
  lemma DocumentsPayloadRoundTrip(documents: seq<Document>)
    ensures forall i :: 0 <= i < |documents| ==>
      DocumentFromPayload(BuildDocumentsPayload(documents)[i]) == Some(documents[i])
  {
    forall i | 0 <= i < |documents|
      ensures DocumentFromPayload(BuildDocumentsPayload(documents)[i]) == Some(documents[i])
    {
      var d := documents[i];
      var m := DocumentPayload(d);
      assert "id" in m && "text" in m;
      if d.metadata.None? {
        assert "metadata" !in m;
      }
    }
  }

  /** The flat filter merge: the union of the keys, the query-level value winning. */
  function MergeFilters(paramFilter: map<string, Json>, queryFilter: map<string, Json>): (m: map<string, Json>)
    ensures m.Keys == paramFilter.Keys + queryFilter.Keys
    ensures forall k :: k in queryFilter ==> m[k] == queryFilter[k]
    ensures forall k :: k in paramFilter && k !in queryFilter ==> m[k] == paramFilter[k]
  {
    paramFilter + queryFilter
  }

  /** A filter that is present and non-empty; an empty map counts as absent. */
  predicate HasFilter(f: Option<map<string, Json>>) {
    f.Some? && f.value != map[]
  }

  function FilterOf(f: Option<map<string, Json>>): map<string, Json> {
    if f.Some? then f.value else map[]
  }

  /** The body of one search request. */
  function SearchPayload(query: string, param: SearchParam, extraFilter: Option<map<string, Json>>): (m: map<string, Json>)
    ensures "text" in m && m["text"] == JStr(query)
    ensures "k" in m && m["k"] == JInt(param.k)
    ensures ("ef" in m <==> param.ef != JNull) && ("ef" in m ==> m["ef"] == param.ef)
    ensures ("alpha" in m <==> param.alpha != JNull) && ("alpha" in m ==> m["alpha"] == param.alpha)
    ensures ("filter" in m <==> HasFilter(param.filter) || HasFilter(extraFilter))
    ensures "filter" in m ==> m["filter"] == JObj(MergeFilters(FilterOf(param.filter), FilterOf(extraFilter)))
    ensures m.Keys <= {"text", "k", "ef", "alpha", "filter"}
  {
    var base := map["text" := JStr(query), "k" := JInt(param.k)];
    var withEf := if param.ef != JNull then base["ef" := param.ef] else base;
    var withAlpha := if param.alpha != JNull then withEf["alpha" := param.alpha] else withEf;
    if HasFilter(param.filter) && HasFilter(extraFilter) then
      withAlpha["filter" := JObj(param.filter.value + extraFilter.value)]
    else if HasFilter(param.filter) then
      assert FilterOf(param.filter) + FilterOf(extraFilter) == param.filter.value;
      withAlpha["filter" := JObj(param.filter.value)]
    else if HasFilter(extraFilter) then
      assert FilterOf(param.filter) + FilterOf(extraFilter) == extraFilter.value;
      withAlpha["filter" := JObj(extraFilter.value)]
    else
      withAlpha
  }

  /** When only one side has a filter it is sent as it is. */
  lemma SearchPayloadSingleFilter(query: string, param: SearchParam, extraFilter: Option<map<string, Json>>)
    ensures HasFilter(param.filter) && !HasFilter(extraFilter) ==>
      SearchPayload(query, param, extraFilter)["filter"] == JObj(param.filter.value)
    ensures !HasFilter(param.filter) && HasFilter(extraFilter) ==>
      SearchPayload(query, param, extraFilter)["filter"] == JObj(extraFilter.value)
  {
    if HasFilter(param.filter) && !HasFilter(extraFilter) {
      assert FilterOf(param.filter) + FilterOf(extraFilter) == param.filter.value;
    }
    if !HasFilter(param.filter) && HasFilter(extraFilter) {
      assert FilterOf(param.filter) + FilterOf(extraFilter) == extraFilter.value;
    }
  }

  /** The warm-up request: the first query's text with k = 1. */
  function WarmupPayload(q: Query): map<string, Json> {
    map["text" := JStr(q.query), "k" := JInt(1)]
  }

  // ---------------------------------------------------------------- job id

  /** The job id of an ingestion_start reply: `id`, else `job_id`, else "", as str(). */
  function JobId(job: map<string, Json>): (id: string)
    ensures Truthy(Get(job, "id")) ==> id == PyStr(job["id"])
    ensures !Truthy(Get(job, "id")) && Truthy(Get(job, "job_id")) ==> id == PyStr(job["job_id"])
    ensures id == "" <==> !Truthy(Get(job, "id")) && !Truthy(Get(job, "job_id"))
  {
    PyStr(Or(Or(Get(job, "id"), Get(job, "job_id")), JStr("")))
  }

  // ---------------------------------------------------------------- traces

  predicate IsPoll(e: Event, jobId: string) {
    e.Called? && e.call == IngestionGet(jobId)
  }

  /** The verdict on one poll: an exception of ingestion_get ends the wait with that error,
      a status is judged by PollStep at the time the poll returned. */
  function StepOf(e: Event, start: real, timeout: real): Step
    requires e.Called?
  {
    if e.reply.Err? then Fail(e.reply.error) else PollStep(e.reply.value, e.ended - start, timeout)
  }

  /** A poll that neither finished nor failed: the loop sleeps and polls again. */
  predicate PollContinues(e: Event, start: real, timeout: real) {
    e.Called? && StepOf(e, start, timeout) == Continue
  }

  /** Polls of jobId that all continued, each followed by a sleep of `poll` seconds. */
  predicate PollPrefix(seg: seq<Event>, jobId: string, start: real, poll: real, timeout: real) {
    && |seg| % 2 == 0
    && (forall i :: 0 <= i < |seg| && i % 2 == 0 ==> IsPoll(seg[i], jobId) && PollContinues(seg[i], start, timeout))
    && (forall i :: 0 <= i < |seg| && i % 2 == 1 ==> seg[i] == Slept(poll))
  }

  /** What wait_ready returns after its last poll: the status on a ready state, the failure
      on a failed state, a timeout or an exception of ingestion_get; a poll that would have
      continued ends the wait only when sleep refuses a negative interval. */
  function PollResult(e: Event, start: real, poll: real, timeout: real): Result<map<string, Json>>
    requires e.Called?
  {
    match StepOf(e, start, timeout)
    case Finish(s) => Ok(s)
    case Fail(x) => Err(x)
    case Continue => Err(NegativeSleep(poll))
  }

  /** The events of one wait_ready, started at `start`, that returned r. */
  predicate PollTrace(seg: seq<Event>, jobId: string, start: real, poll: real, timeout: real, r: Result<map<string, Json>>) {
    && |seg| >= 1
    && PollPrefix(seg[..|seg| - 1], jobId, start, poll, timeout)
    && IsPoll(seg[|seg| - 1], jobId)
    && (PollContinues(seg[|seg| - 1], start, timeout) ==> poll < 0.0)
    && r == PollResult(seg[|seg| - 1], start, poll, timeout)
  }

  lemma PollPrefixExtend(seg: seq<Event>, c: Event, jobId: string, start: real, poll: real, timeout: real)
    requires PollPrefix(seg, jobId, start, poll, timeout)
    requires IsPoll(c, jobId) && PollContinues(c, start, timeout)
    ensures PollPrefix(seg + [c, Slept(poll)], jobId, start, poll, timeout)
  {
    var s := seg + [c, Slept(poll)];
    assert s[|seg|] == c && s[|seg| + 1] == Slept(poll);
    forall i | 0 <= i < |seg|
      ensures s[i] == seg[i]
    {
    }
  }

  /** Failed searches of the warm-up payload before the deadline, each followed by a
      one-second sleep. */
  predicate WarmupPrefix(seg: seq<Event>, payload: map<string, Json>, deadline: real) {
    && |seg| % 2 == 0
    && (forall i :: 0 <= i < |seg| && i % 2 == 0 ==>
          seg[i].Searched? && seg[i].payload == payload && seg[i].ranked.Err? && seg[i].ended < deadline)
    && (forall i :: 0 <= i < |seg| && i % 2 == 1 ==> seg[i] == Slept(1.0))
  }

  /** The events of one warm-up that returned r: it ends at the first search that does not
      raise, or at the first failure at or after the deadline. */
  predicate WarmupTrace(seg: seq<Event>, payload: map<string, Json>, deadline: real, r: Result<()>) {
    && |seg| >= 1
    && WarmupPrefix(seg[..|seg| - 1], payload, deadline)
    && seg[|seg| - 1].Searched? && seg[|seg| - 1].payload == payload
    && (seg[|seg| - 1].ranked.Ok? ==> r == Ok(()))
    && (seg[|seg| - 1].ranked.Err? ==>
          seg[|seg| - 1].ended >= deadline && r == Err(SearchNotReady(seg[|seg| - 1].ranked.error)))
  }

  /** The last poll of a wait ends its trace. */
  lemma PollTraceEnd(h0: seq<Event>, before: seq<Event>, e: Event, jobId: string, start: real, poll: real, timeout: real)
    requires Extends(before, h0)
    requires PollPrefix(Since(before, |h0|), jobId, start, poll, timeout)
    requires IsPoll(e, jobId) && (PollContinues(e, start, timeout) ==> poll < 0.0)
    ensures Extends(before + [e], h0)
    ensures PollTrace(Since(before + [e], |h0|), jobId, start, poll, timeout, PollResult(e, start, poll, timeout))
  {
    var prefix := Since(before, |h0|);
    SinceAppend(before, |h0|, [e]);
    assert (prefix + [e])[..|prefix|] == prefix;
  }

  /** A poll that continued, and the sleep after it, extend the trace. */
  lemma PollTraceNext(h0: seq<Event>, before: seq<Event>, e: Event, jobId: string, start: real, poll: real, timeout: real)
    requires Extends(before, h0)
    requires PollPrefix(Since(before, |h0|), jobId, start, poll, timeout)
    requires IsPoll(e, jobId) && PollContinues(e, start, timeout)
    ensures Extends(before + [e, Slept(poll)], h0)
    ensures PollPrefix(Since(before + [e, Slept(poll)], |h0|), jobId, start, poll, timeout)
  {
    PollPrefixExtend(Since(before, |h0|), e, jobId, start, poll, timeout);
    SinceAppend(before, |h0|, [e, Slept(poll)]);
  }

  lemma WarmupPrefixExtend(seg: seq<Event>, e: Event, payload: map<string, Json>, deadline: real)
    requires WarmupPrefix(seg, payload, deadline)
    requires e.Searched? && e.payload == payload && e.ranked.Err? && e.ended < deadline
    ensures WarmupPrefix(seg + [e, Slept(1.0)], payload, deadline)
  {
    var s := seg + [e, Slept(1.0)];
    assert s[|seg|] == e && s[|seg| + 1] == Slept(1.0);
    forall i | 0 <= i < |seg|
      ensures s[i] == seg[i]
    {
    }
  }

  /** The last search of a warm-up ends its trace. */
  lemma WarmupTraceEnd(h0: seq<Event>, before: seq<Event>, e: Event, payload: map<string, Json>, deadline: real, r: Result<()>)
    requires Extends(before, h0)
    requires WarmupPrefix(Since(before, |h0|), payload, deadline)
    requires e.Searched? && e.payload == payload
    requires e.ranked.Ok? ==> r == Ok(())
    requires e.ranked.Err? ==> e.ended >= deadline && r == Err(SearchNotReady(e.ranked.error))
    ensures Extends(before + [e], h0)
    ensures WarmupTrace(Since(before + [e], |h0|), payload, deadline, r)
  {
    var prefix := Since(before, |h0|);
    SinceAppend(before, |h0|, [e]);
    assert (prefix + [e])[..|prefix|] == prefix;
  }

  /** A failed search before the deadline, and the sleep after it, extend the trace. */
  lemma WarmupTraceNext(h0: seq<Event>, before: seq<Event>, e: Event, payload: map<string, Json>, deadline: real)
    requires Extends(before, h0)
    requires WarmupPrefix(Since(before, |h0|), payload, deadline)
    requires e.Searched? && e.payload == payload && e.ranked.Err? && e.ended < deadline
    ensures Extends(before + [e, Slept(1.0)], h0)
    ensures WarmupPrefix(Since(before + [e, Slept(1.0)], |h0|), payload, deadline)
  {
    WarmupPrefixExtend(Since(before, |h0|), e, payload, deadline);
    SinceAppend(before, |h0|, [e, Slept(1.0)]);
  }

  // ---------------------------------------------------------------- the waiter

  /** The ingestion waiter with an injected clock and sleep, both the gateway's. */
  class IngestionWaiter {
    const gateway: World
    const pollIntervalSec: real
    const timeoutSec: real

    constructor(gateway: World, pollIntervalSec: real, timeoutSec: real)
      ensures this.gateway == gateway
      ensures this.pollIntervalSec == pollIntervalSec && this.timeoutSec == timeoutSec
    {
      this.gateway := gateway;
      this.pollIntervalSec := pollIntervalSec;
      this.timeoutSec := timeoutSec;
    }

    /** wait_ready(job_id): polls the job until a ready or failed state, the timeout, or an
        exception; every poll is judged by PollStep, and the interval between polls is
        always poll_interval_sec. */
    method WaitReady(jobId: string) returns (r: Result<map<string, Json>>)
      requires gateway.Valid()
      modifies gateway
      ensures gateway.Valid()
      ensures Extends(gateway.history, old(gateway.history))
      ensures PollTrace(Since(gateway.history, |old(gateway.history)|), jobId, old(gateway.clock),
                        pollIntervalSec, timeoutSec, r)
      ensures var seg := Since(gateway.history, |old(gateway.history)|);
        r.Ok? ==> gateway.clock == seg[|seg| - 1].ended
    {
      var start := gateway.clock;
      ghost var h0 := gateway.history;
      while true
        invariant gateway.Valid()
        invariant Extends(gateway.history, h0)
        invariant PollPrefix(Since(gateway.history, |h0|), jobId, start, pollIntervalSec, timeoutSec)
        invariant gateway.clock >= start
        decreases Countdown(gateway.clock, start + timeoutSec, gateway.minTook)
      {
        var done;
        done, r := PollRound(jobId, start, h0);
        if done {
          return;
        }
      }
    }

    /** One round of wait_ready: a poll, and the sleep after it when the poll continued. The
        round ends the wait (`done`) with the trace complete, or leaves one more continued
        poll and sleep in the trace with less time left before the deadline. */
    method PollRound(jobId: string, start: real, ghost h0: seq<Event>) returns (done: bool, r: Result<map<string, Json>>)
      requires gateway.Valid() && Extends(gateway.history, h0)
      requires PollPrefix(Since(gateway.history, |h0|), jobId, start, pollIntervalSec, timeoutSec)
      requires gateway.clock >= start
      modifies gateway
      ensures gateway.Valid() && Extends(gateway.history, h0) && gateway.clock >= start
      ensures done ==> PollTrace(Since(gateway.history, |h0|), jobId, start, pollIntervalSec, timeoutSec, r)
      ensures done && r.Ok? ==> gateway.clock == gateway.history[|gateway.history| - 1].ended
      ensures !done ==> PollPrefix(Since(gateway.history, |h0|), jobId, start, pollIntervalSec, timeoutSec)
      ensures !done ==> Countdown(gateway.clock, start + timeoutSec, gateway.minTook)
                          < Countdown(old(gateway.clock), start + timeoutSec, gateway.minTook)
    {
      ghost var c0 := gateway.clock;
      ghost var before := gateway.history;
      var status := gateway.Request(IngestionGet(jobId));
      ghost var e := Called(IngestionGet(jobId), status, c0, gateway.clock);
      assert gateway.history == before + [e];
      var step := if status.Err? then Fail(status.error)
                  else PollStep(status.value, gateway.clock - start, timeoutSec);
      assert step == StepOf(e, start, timeoutSec);
      if !step.Continue? {
        PollTraceEnd(h0, before, e, jobId, start, pollIntervalSec, timeoutSec);
        return true, if step.Finish? then Ok(step.status) else Err(step.error);
      }
      var slept := gateway.Sleep(pollIntervalSec);
      if slept.Err? {
        PollTraceEnd(h0, before, e, jobId, start, pollIntervalSec, timeoutSec);
        return true, Err(slept.error);
      }
      PollTraceNext(h0, before, e, jobId, start, pollIntervalSec, timeoutSec);
      assert gateway.history == before + [e, Slept(pollIntervalSec)];
      CountdownDecreases(c0, gateway.clock, start + timeoutSec, gateway.minTook);
      return false, Ok(map[]);
    }
  }

  // ---------------------------------------------------------------- index preparation

  /** The calls run() makes before waiting: health, documents_batch, ingestion_start. */
  function SetupCall(i: nat, documents: seq<Document>): Call {
    if i == 0 then Health
    else if i == 1 then DocumentsBatch(BuildDocumentsPayload(documents))
    else IngestionStart
  }

  /** At most the three set-up calls, in order, none of which raised. */
  predicate SetupPrefix(seg: seq<Event>, documents: seq<Document>) {
    && |seg| <= 3
    && forall i :: 0 <= i < |seg| ==>
         seg[i].Called? && seg[i].call == SetupCall(i, documents) && seg[i].reply.Ok?
  }

  /** The events of _wait_search_ready started at `start`: none without queries. */
  predicate WarmupDone(seg: seq<Event>, queries: seq<Query>, start: real, r: Result<()>) {
    && (queries == [] ==> seg == [] && r == Ok(()))
    && (queries != [] ==> WarmupTrace(seg, WarmupPayload(queries[0]), start + 60.0, r))
  }

  /** The events from the health check to the end of the warm-up, as run() makes them, that
      ended with r. The wait for the ingestion job occupies events 3 to k - 1. */
  ghost predicate PrepareTrace(seg: seq<Event>, documents: seq<Document>, queries: seq<Query>,
                               ingestion: IngestionConfig, k: nat, r: Result<()>) {
    // a set-up call raised
    || (&& 1 <= |seg| <= 3 && SetupPrefix(seg[..|seg| - 1], documents)
        && seg[|seg| - 1].Called? && seg[|seg| - 1].call == SetupCall(|seg| - 1, documents)
        && seg[|seg| - 1].reply.Err? && r == Err(seg[|seg| - 1].reply.error))
    // the job has no id
    || (&& |seg| == 3 && SetupPrefix(seg, documents)
        && JobId(seg[2].reply.value) == "" && r == Err(MissingJobId(JObj(seg[2].reply.value))))
    // the job was waited for, from the moment ingestion_start returned
    || (&& 3 < k <= |seg| && SetupPrefix(seg[..3], documents)
        && JobId(seg[2].reply.value) != ""
        && AwaitTrace(seg[3..], JobId(seg[2].reply.value), seg[2].ended, ingestion, queries, k - 3, r))
  }

  /** The events of wait_ready(jobId) started at `start`, its first n, then those of the
      search warm-up when the job became ready, that ended with r. */
  ghost predicate AwaitTrace(seg: seq<Event>, jobId: string, start: real, ingestion: IngestionConfig,
                             queries: seq<Query>, n: nat, r: Result<()>) {
    && 1 <= n <= |seg| && seg[n - 1].Called?
    && var result := PollResult(seg[n - 1], start, ingestion.pollIntervalSec, ingestion.timeoutSec);
       && PollTrace(seg[..n], jobId, start, ingestion.pollIntervalSec, ingestion.timeoutSec, result)
       && (result.Err? ==> n == |seg| && r == Err(result.error))
       && (result.Ok? ==> WarmupDone(seg[n..], queries, seg[n - 1].ended, r))
  }

  lemma SetupComplete(seg: seq<Event>, documents: seq<Document>)
    requires |seg| == 3 && SetupPrefix(seg[..2], documents)
    requires seg[2].Called? && seg[2].call == SetupCall(2, documents) && seg[2].reply.Ok?
    ensures SetupPrefix(seg, documents)
  {
    assert forall i :: 0 <= i < 2 ==> seg[..2][i] == seg[i];
  }

  lemma PrepareSetupFailed(setup: seq<Event>, documents: seq<Document>, queries: seq<Query>, ingestion: IngestionConfig)
    requires 1 <= |setup| <= 3 && SetupPrefix(setup[..|setup| - 1], documents)
    requires setup[|setup| - 1].Called? && setup[|setup| - 1].call == SetupCall(|setup| - 1, documents)
    requires setup[|setup| - 1].reply.Err?
    ensures PrepareTrace(setup, documents, queries, ingestion, 0, Err(setup[|setup| - 1].reply.error))
  {
  }

  lemma PrepareNoJobId(setup: seq<Event>, documents: seq<Document>, queries: seq<Query>, ingestion: IngestionConfig)
    requires |setup| == 3 && SetupPrefix(setup, documents) && JobId(setup[2].reply.value) == ""
    ensures PrepareTrace(setup, documents, queries, ingestion, 0, Err(MissingJobId(JObj(setup[2].reply.value))))
  {
  }

  lemma PrepareWaited(setup: seq<Event>, rest: seq<Event>, documents: seq<Document>, queries: seq<Query>,
                      ingestion: IngestionConfig, n: nat, r: Result<()>)
    requires |setup| == 3 && SetupPrefix(setup, documents) && JobId(setup[2].reply.value) != ""
    requires AwaitTrace(rest, JobId(setup[2].reply.value), setup[2].ended, ingestion, queries, n, r)
    ensures PrepareTrace(setup + rest, documents, queries, ingestion, 3 + n, r)
  {
    var seg := setup + rest;
    assert seg[..3] == setup;
    assert seg[3..] == rest;
  }

  /** A wait that raised ends the events. */
  lemma AwaitFailed(polls: seq<Event>, jobId: string, start: real, ingestion: IngestionConfig, queries: seq<Query>,
                    status: Result<map<string, Json>>)
    requires PollTrace(polls, jobId, start, ingestion.pollIntervalSec, ingestion.timeoutSec, status)
    requires status.Err?
    ensures AwaitTrace(polls, jobId, start, ingestion, queries, |polls|, Err(status.error))
  {
    assert polls[..|polls|] == polls;
  }

  /** A wait that found the job ready, followed by the warm-up. */
  lemma AwaitWarmed(polls: seq<Event>, warmup: seq<Event>, jobId: string, start: real, ingestion: IngestionConfig,
                    queries: seq<Query>, status: Result<map<string, Json>>, r: Result<()>)
    requires PollTrace(polls, jobId, start, ingestion.pollIntervalSec, ingestion.timeoutSec, status)
    requires status.Ok? && WarmupDone(warmup, queries, polls[|polls| - 1].ended, r)
    ensures AwaitTrace(polls + warmup, jobId, start, ingestion, queries, |polls|, r)
  {
    var seg := polls + warmup;
    assert seg[..|polls|] == polls;
    assert seg[|polls|..] == warmup;
    assert seg[|polls| - 1] == polls[|polls| - 1];
  }

  // ---------------------------------------------------------------- results

  /** The per-query entry of a run: its id, the search latency in milliseconds and its
      ranking metrics. */
  datatype QueryRecord = QueryRecord(queryId: string, latencyMs: real, metrics: QueryMetrics)

  /** The result of one search parameter set. */
  datatype ParamRun = ParamRun(
    name: string,
    params: SearchParam,
    recallAtK: real,
    mrr: real,
    ndcgAtK: real,
    latencyMeanMs: real,
    latencyPercentiles: map<string, Option<real>>,
    perQuery: seq<QueryRecord>)

  /** How one run() went: the outcome of the preparation and where its events end (with
      the end of the job wait inside them), then the cut points of the parameter-set blocks,
      the runs that completed, and the exception of the set that raised, if any. */
  datatype RunShape = RunShape(
    prep: Result<()>,
    pollEnd: nat,
    prepEnd: nat,
    bounds: seq<nat>,
    runs: seq<ParamRun>,
    failure: Option<Error>)

  /** The result of a scenario: the configuration it ran and one entry per parameter set. */
  datatype RunReport = RunReport(
    baseUrl: string,
    documentsPath: string,
    queriesPath: string,
    searchParams: seq<SearchParam>,
    runs: seq<ParamRun>)

  function Latencies(records: seq<QueryRecord>): (r: seq<real>)
    ensures |r| == |records| && forall i :: 0 <= i < |records| ==> r[i] == records[i].latencyMs
  {
    seq(|records|, i requires 0 <= i < |records| => records[i].latencyMs)
  }

  function Recalls(records: seq<QueryRecord>): (r: seq<real>)
    ensures |r| == |records| && forall i :: 0 <= i < |records| ==> r[i] == records[i].metrics.recallAtK
  {
    seq(|records|, i requires 0 <= i < |records| => records[i].metrics.recallAtK)
  }

  function Mrrs(records: seq<QueryRecord>): (r: seq<real>)
    ensures |r| == |records| && forall i :: 0 <= i < |records| ==> r[i] == records[i].metrics.mrr
  {
    seq(|records|, i requires 0 <= i < |records| => records[i].metrics.mrr)
  }

  function Ndcgs(records: seq<QueryRecord>): (r: seq<real>)
    ensures |r| == |records| && forall i :: 0 <= i < |records| ==> r[i] == records[i].metrics.ndcgAtK
  {
    seq(|records|, i requires 0 <= i < |records| => records[i].metrics.ndcgAtK)
  }

  lemma KeyP50P95()
    ensures PercentileKey(50.0) == "p50" && PercentileKey(95.0) == "p95"
    ensures Keys([50.0, 95.0]) == {"p50", "p95"}
  {
    assert Trunc(50.0) == 50 && Trunc(95.0) == 95;
    assert NatToDecimal(5) == "5" && NatToDecimal(9) == "9";
    assert NatToDecimal(50) == "50";
    assert NatToDecimal(95) == "95";
  }

  /** The p50 and p95 latencies: None for no samples. */
  function LatencyPercentiles(latencies: seq<real>): (m: map<string, Option<real>>)
    ensures Percentiles(latencies, [50.0, 95.0]) == Ok(m)
    ensures m.Keys == {"p50", "p95"}
  {
    PercentilesKeys(latencies, [50.0, 95.0]);
    KeyP50P95();
    if latencies == [] then
      PercentilesNoData([50.0, 95.0]);
      Percentiles(latencies, [50.0, 95.0]).value
    else
      PercentilesInRange(latencies, [50.0, 95.0]);
      Percentiles(latencies, [50.0, 95.0]).value
  }

  /** _run_param's aggregation of the per-query records. */
  function Aggregate(param: SearchParam, records: seq<QueryRecord>): ParamRun {
    ParamRun(
      param.name,
      param,
      Mean(Recalls(records)),
      Mean(Mrrs(records)),
      Mean(Ndcgs(records)),
      Mean(Latencies(records)),
      LatencyPercentiles(Latencies(records)),
      records)
  }

  /** A parameter set without queries has zero means and no latency percentiles. */
  lemma AggregateNoQueries(param: SearchParam)
    ensures Aggregate(param, []).recallAtK == 0.0 && Aggregate(param, []).mrr == 0.0
    ensures Aggregate(param, []).ndcgAtK == 0.0 && Aggregate(param, []).latencyMeanMs == 0.0
    ensures Aggregate(param, []).latencyPercentiles == map["p50" := None, "p95" := None]
  {
    PercentilesNoData([50.0, 95.0]);
    KeyP50P95();
    var m := Aggregate(param, []).latencyPercentiles;
    assert m.Keys == {"p50", "p95"};
  }

  /** With queries, p50 and p95 are numbers that lie within the observed latencies. */
  lemma AggregateLatencyRange(param: SearchParam, records: seq<QueryRecord>)
    requires records != []
    ensures var ps := Aggregate(param, records).latencyPercentiles;
      forall key :: key in ps ==>
        ps[key].Some? &&
        (exists i :: 0 <= i < |records| && records[i].latencyMs <= ps[key].value) &&
        (exists j :: 0 <= j < |records| && ps[key].value <= records[j].latencyMs)
  {
    PercentilesInRange(Latencies(records), [50.0, 95.0]);
  }

  /** Per-query metrics within [0, 1] average to a value within [0, 1], and non-negative
      latencies to a non-negative mean latency. */
  lemma AggregateMeanBounds(param: SearchParam, records: seq<QueryRecord>)
    ensures (forall i :: 0 <= i < |records| ==> 0.0 <= records[i].metrics.recallAtK <= 1.0) ==>
      0.0 <= Aggregate(param, records).recallAtK <= 1.0
    ensures (forall i :: 0 <= i < |records| ==> 0.0 <= records[i].metrics.mrr <= 1.0) ==>
      0.0 <= Aggregate(param, records).mrr <= 1.0
    ensures (forall i :: 0 <= i < |records| ==> 0.0 <= records[i].metrics.ndcgAtK <= 1.0) ==>
      0.0 <= Aggregate(param, records).ndcgAtK <= 1.0
    ensures (forall i :: 0 <= i < |records| ==> records[i].latencyMs >= 0.0) ==>
      Aggregate(param, records).latencyMeanMs >= 0.0
  {
    if records != [] {
      if forall i :: 0 <= i < |records| ==> 0.0 <= records[i].metrics.recallAtK <= 1.0 {
        MeanBounds(Recalls(records), 0.0, 1.0);
      }
      if forall i :: 0 <= i < |records| ==> 0.0 <= records[i].metrics.mrr <= 1.0 {
        MeanBounds(Mrrs(records), 0.0, 1.0);
      }
      if forall i :: 0 <= i < |records| ==> 0.0 <= records[i].metrics.ndcgAtK <= 1.0 {
        MeanBounds(Ndcgs(records), 0.0, 1.0);
      }
      if forall i :: 0 <= i < |records| ==> records[i].latencyMs >= 0.0 {
        MeanNonNegative(Latencies(records));
      }
    }
  }

  lemma MeanNonNegative(values: seq<real>)
    requires values != [] && forall i :: 0 <= i < |values| ==> values[i] >= 0.0
    ensures Mean(values) >= 0.0
  {
    var hi := MaxOf(values);
    MeanBounds(values, 0.0, hi);
  }

  function MaxOf(values: seq<real>): (m: real)
    requires values != []
    ensures forall i :: 0 <= i < |values| ==> values[i] <= m
  {
    if |values| == 1 then values[0]
    else
      var rest := MaxOf(values[1..]);
      assert forall i :: 1 <= i < |values| ==> values[i] == values[1..][i - 1];
      if values[0] >= rest then values[0] else rest
  }

  // ---------------------------------------------------------------- the runner

  /** The scenario runner: a dataset reader, the search gateway (with the clock that `now`,
      `perf_counter` and `sleep` share) and compute_query_metrics, whose formulas are not
      part of this model. */
  class ScenarioRunner {
    const reader: DatasetReader
    const gateway: World
    const metrics: (seq<string>, seq<string>, int) -> QueryMetrics

    constructor(reader: DatasetReader, gateway: World, metrics: (seq<string>, seq<string>, int) -> QueryMetrics)
      ensures this.reader == reader && this.gateway == gateway && this.metrics == metrics
    {
      this.reader := reader;
      this.gateway := gateway;
      this.metrics := metrics;
    }

    /** The record of query q from the search event that answered it. */
    function RecordOf(q: Query, k: int, e: Event): QueryRecord
      requires e.Searched? && e.ranked.Ok?
    {
      QueryRecord(q.id, (e.ended - e.began) * 1000.0, metrics(q.positiveIds, e.ranked.value, k))
    }

    /** The records of answered searches, query by query. */
    function Records(queries: seq<Query>, k: int, seg: seq<Event>): (records: seq<QueryRecord>)
      requires |seg| <= |queries| && forall i :: 0 <= i < |seg| ==> seg[i].Searched? && seg[i].ranked.Ok?
      ensures |records| == |seg|
      ensures forall i :: 0 <= i < |seg| ==> records[i] == RecordOf(queries[i], k, seg[i])
    {
      seq(|seg|, i requires 0 <= i < |seg| => RecordOf(queries[i], k, seg[i]))
    }

    /** The searches of one parameter set that returned r: query i was searched with its
        own payload, in order, and the run stops at the first search that raises. */
    ghost predicate ParamTrace(seg: seq<Event>, param: SearchParam, queries: seq<Query>, r: Result<ParamRun>) {
      && |seg| <= |queries|
      && (forall i :: 0 <= i < |seg| ==>
            seg[i].Searched? && seg[i].payload == SearchPayload(queries[i].query, param, queries[i].filter))
      && (forall i :: 0 <= i < |seg| - 1 ==> seg[i].ranked.Ok?)
      && (r.Ok? <==> |seg| == |queries| && (seg == [] || seg[|seg| - 1].ranked.Ok?))
      && (r.Ok? ==> (forall i :: 0 <= i < |seg| ==> seg[i].ranked.Ok?) && r.value == Aggregate(param, Records(queries, param.k, seg)))
      && (r.Err? ==> seg != [] && seg[|seg| - 1].ranked.Err? && r.error == seg[|seg| - 1].ranked.error)
    }

    /** _wait_search_ready: nothing to do without queries; otherwise it searches for the
        first query with k = 1 until a search does not raise, sleeping one second after each
        failure, and gives up after a failure at or after 60 seconds from the start. */
    method WaitSearchReady(queries: seq<Query>) returns (r: Result<()>)
      requires gateway.Valid()
      modifies gateway
      ensures gateway.Valid()
      ensures Extends(gateway.history, old(gateway.history))
      ensures queries == [] ==> r == Ok(()) && gateway.history == old(gateway.history)
      ensures queries != [] ==>
        WarmupTrace(Since(gateway.history, |old(gateway.history)|), WarmupPayload(queries[0]),
                    old(gateway.clock) + 60.0, r)
    {
      if queries == [] {
        return Ok(());
      }
      var payload := WarmupPayload(queries[0]);
      var deadline := gateway.clock + 60.0;
      ghost var h0 := gateway.history;
      while true
        invariant gateway.Valid() && gateway.minTook > 0.0
        invariant Extends(gateway.history, h0)
        invariant WarmupPrefix(Since(gateway.history, |h0|), payload, deadline)
        decreases Countdown(gateway.clock, deadline, 1.0)
      {
        ghost var c0 := gateway.clock;
        ghost var before := gateway.history;
        var ranked := gateway.Search(payload);
        ghost var e := Searched(payload, ranked, c0, gateway.clock);
        assert gateway.history == before + [e];
        if ranked.Ok? {
          WarmupTraceEnd(h0, before, e, payload, deadline, Ok(()));
          return Ok(());
        }
        if gateway.clock >= deadline {
          WarmupTraceEnd(h0, before, e, payload, deadline, Err(SearchNotReady(ranked.error)));
          return Err(SearchNotReady(ranked.error));
        }
        var slept := gateway.Sleep(1.0);
        WarmupTraceNext(h0, before, e, payload, deadline);
        assert gateway.history == before + [e, Slept(1.0)];
        CountdownDecreases(c0, gateway.clock, deadline, 1.0);
      }
    }

    /** _run_query: one search with the query's payload, timed by the clock around it. */
    method RunQuery(param: SearchParam, q: Query) returns (r: Result<QueryRecord>)
      requires gateway.Valid()
      modifies gateway
      ensures gateway.Valid()
      ensures Extends(gateway.history, old(gateway.history))
      ensures |gateway.history| == |old(gateway.history)| + 1
      ensures var e := gateway.history[|old(gateway.history)|];
        && e.Searched? && e.payload == SearchPayload(q.query, param, q.filter)
        && (e.ranked.Ok? ==> r == Ok(RecordOf(q, param.k, e)))
        && (e.ranked.Err? ==> r == Err(e.ranked.error))
    {
      var payload := SearchPayload(q.query, param, q.filter);
      var startPerf := gateway.clock;
      var ranked := gateway.Search(payload);
      if ranked.Err? {
        return Err(ranked.error);
      }
      var latencyMs := (gateway.clock - startPerf) * 1000.0;
      var qm := metrics(q.positiveIds, ranked.value, param.k);
      r := Ok(QueryRecord(q.id, latencyMs, qm));
    }

    /** Every query up to |seg| was searched with its payload and answered, and records
        holds their records. */
    ghost predicate Answered(seg: seq<Event>, param: SearchParam, queries: seq<Query>, records: seq<QueryRecord>) {
      && |seg| == |records| <= |queries|
      && forall j :: 0 <= j < |seg| ==>
           && seg[j].Searched? && seg[j].payload == SearchPayload(queries[j].query, param, queries[j].filter)
           && seg[j].ranked.Ok? && records[j] == RecordOf(queries[j], param.k, seg[j])
    }

    lemma AnsweredExtend(seg: seq<Event>, param: SearchParam, queries: seq<Query>, records: seq<QueryRecord>, e: Event)
      requires Answered(seg, param, queries, records) && |seg| < |queries|
      requires e.Searched? && e.payload == SearchPayload(queries[|seg|].query, param, queries[|seg|].filter)
      requires e.ranked.Ok?
      ensures Answered(seg + [e], param, queries, records + [RecordOf(queries[|seg|], param.k, e)])
    {
    }

    lemma AnsweredAll(seg: seq<Event>, param: SearchParam, queries: seq<Query>, records: seq<QueryRecord>)
      requires Answered(seg, param, queries, records) && |seg| == |queries|
      ensures ParamTrace(seg, param, queries, Ok(Aggregate(param, records)))
    {
      assert Records(queries, param.k, seg) == records;
    }

    lemma AnsweredThenFailed(seg: seq<Event>, param: SearchParam, queries: seq<Query>, records: seq<QueryRecord>, e: Event)
      requires Answered(seg, param, queries, records) && |seg| < |queries|
      requires e.Searched? && e.payload == SearchPayload(queries[|seg|].query, param, queries[|seg|].filter)
      requires e.ranked.Err?
      ensures ParamTrace(seg + [e], param, queries, Err(e.ranked.error))
    {
    }

    /** _run_param (and run_single_param): every query searched in order, then the
        aggregation; the first search that raises ends the run with its exception. */
    method RunParam(param: SearchParam, queries: seq<Query>) returns (r: Result<ParamRun>)
      requires gateway.Valid()
      modifies gateway
      ensures gateway.Valid()
      ensures Extends(gateway.history, old(gateway.history))
      ensures ParamTrace(Since(gateway.history, |old(gateway.history)|), param, queries, r)
    {
      ghost var h0 := gateway.history;
      var records: seq<QueryRecord> := [];
      for i := 0 to |queries|
        invariant gateway.Valid()
        invariant Extends(gateway.history, h0)
        invariant |gateway.history| == |h0| + i
        invariant Answered(Since(gateway.history, |h0|), param, queries, records)
      {
        ghost var before := gateway.history;
        var record := RunQuery(param, queries[i]);
        ghost var e := gateway.history[|before|];
        assert gateway.history == before + [e];
        SinceAppend(before, |h0|, [e]);
        if record.Err? {
          AnsweredThenFailed(Since(before, |h0|), param, queries, records, e);
          return Err(record.error);
        }
        AnsweredExtend(Since(before, |h0|), param, queries, records, e);
        records := records + [record.value];
      }
      AnsweredAll(Since(gateway.history, |h0|), param, queries, records);
      r := Ok(Aggregate(param, records));
    }

    /** The set-up calls of run(): health, documents_batch and ingestion_start, stopping at
        the first that raises; r is the reply of the last call made. */
    method StartIngestion(documents: seq<Document>) returns (r: Result<map<string, Json>>)
      requires gateway.Valid()
      modifies gateway
      ensures gateway.Valid()
      ensures Extends(gateway.history, old(gateway.history))
      ensures var seg := Since(gateway.history, |old(gateway.history)|);
        && 1 <= |seg| <= 3 && SetupPrefix(seg[..|seg| - 1], documents)
        && seg[|seg| - 1].Called? && seg[|seg| - 1].call == SetupCall(|seg| - 1, documents)
        && r == seg[|seg| - 1].reply && (r.Ok? ==> |seg| == 3)
        && gateway.clock == seg[|seg| - 1].ended
    {
      ghost var h0 := gateway.history;
      r := gateway.Request(Health);
      if r.Err? {
        return;
      }
      ghost var h1 := gateway.history;
      r := gateway.Request(DocumentsBatch(BuildDocumentsPayload(documents)));
      assert Since(gateway.history, |h0|) == Since(h1, |h0|) + [gateway.history[|h1|]];
      if r.Err? {
        return;
      }
      ghost var h2 := gateway.history;
      r := gateway.Request(IngestionStart);
      assert Since(gateway.history, |h0|) == Since(h2, |h0|) + [gateway.history[|h2|]];
    }

    /** The part of run() from the health check to the end of the warm-up: the set-up
        calls, the job id, the wait for the job and the search warm-up, stopping at the
        first exception. */
    method PrepareIndex(ingestion: IngestionConfig, documents: seq<Document>, queries: seq<Query>)
      returns (r: Result<()>, ghost k: nat)
      requires gateway.Valid()
      modifies gateway
      ensures gateway.Valid()
      ensures Extends(gateway.history, old(gateway.history))
      ensures PrepareTrace(Since(gateway.history, |old(gateway.history)|), documents, queries, ingestion, k, r)
    {
      ghost var h0 := gateway.history;
      var waiter := new IngestionWaiter(gateway, ingestion.pollIntervalSec, ingestion.timeoutSec);
      var job := StartIngestion(documents);
      ghost var setup := Since(gateway.history, |h0|);
      if job.Err? {
        PrepareSetupFailed(setup, documents, queries, ingestion);
        return Err(job.error), 0;
      }
      SetupComplete(setup, documents);
      ghost var h3 := gateway.history;
      var jobId := JobId(job.value);
      if jobId == "" {
        PrepareNoJobId(setup, documents, queries, ingestion);
        return Err(MissingJobId(JObj(job.value))), 0;
      }
      ghost var n: nat;
      r, n := AwaitIndex(waiter, ingestion, jobId, queries);
      SinceStep(h0, h3, gateway.history);
      PrepareWaited(setup, Since(gateway.history, |h3|), documents, queries, ingestion, n, r);
      k := 3 + n;
    }

    /** wait_ready(job_id) and then, unless the wait raised, _wait_search_ready(queries). */
    method AwaitIndex(waiter: IngestionWaiter, ingestion: IngestionConfig, jobId: string, queries: seq<Query>)
      returns (r: Result<()>, ghost n: nat)
      requires gateway.Valid() && waiter.gateway == gateway
      requires waiter.pollIntervalSec == ingestion.pollIntervalSec && waiter.timeoutSec == ingestion.timeoutSec
      modifies gateway
      ensures gateway.Valid()
      ensures Extends(gateway.history, old(gateway.history))
      ensures AwaitTrace(Since(gateway.history, |old(gateway.history)|), jobId, old(gateway.clock), ingestion, queries, n, r)
    {
      ghost var h0, c0 := gateway.history, gateway.clock;
      var status := waiter.WaitReady(jobId);
      ghost var polls := Since(gateway.history, |h0|);
      ghost var h1 := gateway.history;
      if status.Err? {
        AwaitFailed(polls, jobId, c0, ingestion, queries, status);
        return Err(status.error), |polls|;
      }
      r := WaitSearchReady(queries);
      ghost var warmup := Since(gateway.history, |h1|);
      SinceStep(h0, h1, gateway.history);
      AwaitWarmed(polls, warmup, jobId, c0, ingestion, queries, status, r);
      n := |polls|;
    }

    /** The blocks of the parameter-set runs: one ParamTrace per set in order, all but a
        failing last one completed. */
    ghost predicate ParamsTrace(seg: seq<Event>, params: seq<SearchParam>, queries: seq<Query>,
                                bounds: seq<nat>, runs: seq<ParamRun>, failure: Option<Error>) {
      && Cuts(bounds, |seg|)
      && |bounds| == |runs| + 1 + (if failure.Some? then 1 else 0)
      && (failure.None? ==> |runs| == |params|)
      && (failure.Some? ==>
            |runs| < |params| && ParamTrace(Block(seg, bounds, |runs|), params[|runs|], queries, Err(failure.value)))
      && |runs| <= |params|
      && forall j :: 0 <= j < |runs| ==> ParamTrace(Block(seg, bounds, j), params[j], queries, Ok(runs[j]))
    }

    /** One more parameter-set block extends the completed runs, or ends them with its
        exception. */
    lemma ParamsStep(seg: seq<Event>, block: seq<Event>, bounds: seq<nat>, params: seq<SearchParam>,
                     queries: seq<Query>, done: seq<ParamRun>, run: Result<ParamRun>)
      requires Cuts(bounds, |seg|) && |bounds| == |done| + 1 && |done| < |params|
      requires forall j :: 0 <= j < |done| ==> ParamTrace(Block(seg, bounds, j), params[j], queries, Ok(done[j]))
      requires ParamTrace(block, params[|done|], queries, run)
      ensures Cuts(bounds + [|seg + block|], |seg + block|)
      ensures run.Ok? ==> forall j :: 0 <= j < |done| + 1 ==>
        ParamTrace(Block(seg + block, bounds + [|seg + block|], j), params[j], queries, Ok((done + [run.value])[j]))
      ensures run.Err? ==> ParamsTrace(seg + block, params, queries, bounds + [|seg + block|], done, Some(run.error))
    {
      BlocksExtend(seg, bounds, block);
    }

    /** The runs list of run(): _run_param for every parameter set, in order. */
    method RunParams(params: seq<SearchParam>, queries: seq<Query>)
      returns (r: Result<seq<ParamRun>>, ghost bounds: seq<nat>, ghost runs: seq<ParamRun>)
      requires gateway.Valid()
      modifies gateway
      ensures gateway.Valid()
      ensures Extends(gateway.history, old(gateway.history))
      ensures ParamsTrace(Since(gateway.history, |old(gateway.history)|), params, queries, bounds, runs,
                          if r.Err? then Some(r.error) else None)
      ensures r.Ok? ==> r.value == runs
    {
      ghost var h0 := gateway.history;
      var done: seq<ParamRun> := [];
      bounds := [0];
      for i := 0 to |params|
        invariant gateway.Valid()
        invariant Extends(gateway.history, h0)
        invariant |done| == i && |bounds| == i + 1
        invariant Cuts(bounds, |Since(gateway.history, |h0|)|)
        invariant forall j :: 0 <= j < i ==>
          ParamTrace(Block(Since(gateway.history, |h0|), bounds, j), params[j], queries, Ok(done[j]))
      {
        ghost var before := gateway.history;
        var run := RunParam(params[i], queries);
        ghost var block := Since(gateway.history, |before|);
        SinceStep(h0, before, gateway.history);
        ParamsStep(Since(before, |h0|), block, bounds, params, queries, done, run);
        bounds := bounds + [|Since(gateway.history, |h0|)|];
        if run.Err? {
          return Err(run.error), bounds, done;
        }
        done := done + [run.value];
      }
      r, runs := Ok(done), done;
    }

    /** The events of one run() that returned r, after both datasets were read. */
    ghost predicate RunTrace(seg: seq<Event>, cfg: ScenarioConfig, documents: seq<Document>, queries: seq<Query>,
                             shape: RunShape, r: Result<RunReport>) {
      && shape.prepEnd <= |seg|
      && PrepareTrace(seg[..shape.prepEnd], documents, queries, cfg.ingestion, shape.pollEnd, shape.prep)
      && (shape.prep.Err? ==> shape.prepEnd == |seg| && r == Err(shape.prep.error))
      && (shape.prep.Ok? ==>
            && ParamsTrace(seg[shape.prepEnd..], cfg.searchParams, queries, shape.bounds, shape.runs, shape.failure)
            && (shape.failure.Some? ==> r == Err(shape.failure.value))
            && (shape.failure.None? ==>
                  r == Ok(RunReport(cfg.baseUrl, cfg.documentsPath, cfg.queriesPath, cfg.searchParams, shape.runs))))
    }

    /** run(cfg): read the documents and the queries, prepare the index, then run every
        search parameter set; the first exception ends the scenario. */
    method Run(cfg: ScenarioConfig) returns (r: Result<RunReport>, ghost shape: RunShape)
      requires gateway.Valid()
      modifies gateway
      ensures gateway.Valid()
      ensures Extends(gateway.history, old(gateway.history))
      ensures reader.loadDocuments(cfg.documentsPath).Err? ==>
        r == Err(reader.loadDocuments(cfg.documentsPath).error) && gateway.history == old(gateway.history)
      ensures reader.loadDocuments(cfg.documentsPath).Ok? && reader.loadQueries(cfg.queriesPath).Err? ==>
        r == Err(reader.loadQueries(cfg.queriesPath).error) && gateway.history == old(gateway.history)
      ensures reader.loadDocuments(cfg.documentsPath).Ok? && reader.loadQueries(cfg.queriesPath).Ok? ==>
        RunTrace(Since(gateway.history, |old(gateway.history)|), cfg, reader.loadDocuments(cfg.documentsPath).value,
                 reader.loadQueries(cfg.queriesPath).value, shape, r)
    {
      shape := RunShape(Ok(()), 0, 0, [], [], None);
      var documents := reader.loadDocuments(cfg.documentsPath);
      if documents.Err? {
        return Err(documents.error), shape;
      }
      var queries := reader.loadQueries(cfg.queriesPath);
      if queries.Err? {
        return Err(queries.error), shape;
      }
      ghost var h0 := gateway.history;
      var prep, pollEnd := PrepareIndex(cfg.ingestion, documents.value, queries.value);
      ghost var h1 := gateway.history;
      ghost var prepSeg := Since(h1, |h0|);
      if prep.Err? {
        shape := RunShape(prep, pollEnd, |prepSeg|, [], [], None);
        assert Since(h1, |h0|)[..|prepSeg|] == prepSeg;
        return Err(prep.error), shape;
      }
      var runs, bounds, done := RunParams(cfg.searchParams, queries.value);
      SinceStep(h0, h1, gateway.history);
      ghost var seg := Since(gateway.history, |h0|);
      assert seg[..|prepSeg|] == prepSeg;
      assert seg[|prepSeg|..] == Since(gateway.history, |h1|);
      shape := RunShape(prep, pollEnd, |prepSeg|, bounds, done, if runs.Err? then Some(runs.error) else None);
      if runs.Err? {
        return Err(runs.error), shape;
      }
      r := Ok(RunReport(cfg.baseUrl, cfg.documentsPath, cfg.queriesPath, cfg.searchParams, runs.value));
    }

    /** A completed parameter set made one search per query and reports every query, in
        order, under the set's own name and parameters. */
    lemma ParamTraceCompleted(seg: seq<Event>, param: SearchParam, queries: seq<Query>, run: ParamRun)
      requires ParamTrace(seg, param, queries, Ok(run))
      ensures |seg| == |queries|
      ensures run.name == param.name && run.params == param
      ensures |run.perQuery| == |queries|
      ensures forall i :: 0 <= i < |queries| ==> run.perQuery[i].queryId == queries[i].id
    {
      var records := Records(queries, param.k, seg);
      assert run == Aggregate(param, records);
    }

    /** A scenario that returned a report ran every parameter set, in order, over every
        query, and echoes its configuration. */
    lemma ReportCoversScenario(seg: seq<Event>, cfg: ScenarioConfig, documents: seq<Document>, queries: seq<Query>,
                               shape: RunShape, report: RunReport)
      requires RunTrace(seg, cfg, documents, queries, shape, Ok(report))
      ensures report.baseUrl == cfg.baseUrl && report.documentsPath == cfg.documentsPath
      ensures report.queriesPath == cfg.queriesPath && report.searchParams == cfg.searchParams
      ensures |report.runs| == |cfg.searchParams|
      ensures forall j :: 0 <= j < |report.runs| ==>
        && report.runs[j].params == cfg.searchParams[j]
        && |report.runs[j].perQuery| == |queries|
        && forall i :: 0 <= i < |queries| ==> report.runs[j].perQuery[i].queryId == queries[i].id
    {
      var tail := seg[shape.prepEnd..];
      forall j | 0 <= j < |report.runs|
        ensures report.runs[j].params == cfg.searchParams[j]
        ensures |report.runs[j].perQuery| == |queries|
        ensures forall i :: 0 <= i < |queries| ==> report.runs[j].perQuery[i].queryId == queries[i].id
      {
        ParamTraceCompleted(Block(tail, shape.bounds, j), cfg.searchParams[j], queries, report.runs[j]);
      }
    }
  }
}
