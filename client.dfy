/** The older HTTP client (musubi_eval/client.py): the same bounded retry loop as the search
    gateway, but every failure is retried, and an ingestion waiter that reads the clock
    through time.time(). */
module Client {
  import opened Values
  import opened Domain
  import opened Util
  import opened Transport
  import opened MusubiHttp
  import opened RunScenario

  /** One attempt of MusubiClient._request: a 5xx raises a bare "server error", raise_for_status
      raises on a 4xx, and the `except Exception` clause retries every failure alike. */
  function LegacyClassify(x: Exchange): (o: Outcome)
    ensures !o.Fatal?
    ensures x.TransportFailure? ==> o == Retryable(ConnectionError)
    ensures x.Response? && x.status >= 500 ==> o == Retryable(ServerError(x.status, ""))
    ensures x.Response? && 400 <= x.status < 500 ==> o == Retryable(HttpError(x.status))
    ensures x.Response? && x.status < 400 ==> o == Delivered(x.contentType, x.text, x.decoded)
  {
    match x
    case TransportFailure => Retryable(ConnectionError)
    case Response(status, contentType, text, decoded) =>
      if status >= 500 then Retryable(ServerError(status, ""))
      else if 400 <= status then Retryable(HttpError(status))
      else Delivered(contentType, text, decoded)
  }

  /** The two clients agree on every response below 400 and on every failure without a
      response; they differ on a 4xx, which only the gateway raises at once, and on the
      message of a 5xx. */
  lemma ClassifiersAgreeBelow400(x: Exchange)
    requires x.TransportFailure? || x.status < 400
    ensures LegacyClassify(x) == Classify(x)
  {
  }

  /** When no attempt is ever answered with a usable body and the backoff settings are not
      negative, the old client spends every one of its attempts: max_attempts requests with
      a pause between each two. */
  lemma {:induction false} LegacyExhausts(wire: Wire, req: HttpRequest, retry: RetryConfig,
                                          h: seq<WireEvent>, now: real, attempt: int)
    requires wire.Valid() && 1 <= attempt <= retry.maxAttempts
    requires retry.baseBackoffSec >= 0.0 && retry.maxBackoffSec >= 0.0
    requires forall g :: !LegacyClassify(wire.respond(g, req)).Success?
    ensures var (evs, r) := Attempts(wire, LegacyClassify, req, retry, h, now, attempt);
      && |evs| == 2 * (retry.maxAttempts - attempt) + 1
      && r.Err?
    decreases retry.maxAttempts - attempt
  {
    var x := wire.respond(h, req);
    var sent := Sent(req, x, now + wire.took(h));
    if attempt < retry.maxAttempts {
      var d := BackoffPause(wire, h + [sent], attempt, retry.baseBackoffSec, retry.maxBackoffSec);
      BackoffNonNegative(attempt, retry.baseBackoffSec, retry.maxBackoffSec);
      MulMono(BackoffDelay(attempt, retry.baseBackoffSec, retry.maxBackoffSec), wire.jitter(h + [sent]));
      assert d >= 0.0;
      AttemptsUnfold(wire, LegacyClassify, req, retry, h, now, attempt);
      LegacyExhausts(wire, req, retry, h + [sent, Paused(d)], now + wire.took(h) + d, attempt + 1);
    }
  }

  /** The older client. */
  class MusubiClient {
    const wire: Wire
    const baseUrl: string
    const timeoutSec: real
    const retry: RetryConfig

    constructor(wire: Wire, baseUrl: string, timeoutSec: real, retry: RetryConfig)
      ensures this.wire == wire && this.baseUrl == RStripSlashes(baseUrl)
      ensures this.timeoutSec == timeoutSec && this.retry == retry
    {
      this.wire := wire;
      this.baseUrl := RStripSlashes(baseUrl);
      this.timeoutSec := timeoutSec;
      this.retry := retry;
    }

    function RequestFor(verb: HttpMethod, path: string, body: Option<map<string, Json>>): HttpRequest {
      HttpRequest(verb, baseUrl + path, body, timeoutSec)
    }

    /** _request(method, path, json_body). */
    method Request(verb: HttpMethod, path: string, body: Option<map<string, Json>>) returns (r: Result<Json>)
      requires wire.Valid()
      modifies wire
      ensures (wire.log, wire.clock, r)
        == Retry(wire, LegacyClassify, RequestFor(verb, path, body), retry, old(wire.log), old(wire.clock))
    {
      r := Retrying(wire, LegacyClassify, RequestFor(verb, path, body), retry);
    }

    method Health() returns (r: Result<Json>)
      requires wire.Valid()
      modifies wire
      ensures (wire.log, wire.clock, r)
        == Retry(wire, LegacyClassify, RequestFor(GET, "/health", None), retry, old(wire.log), old(wire.clock))
    {
      r := Request(GET, "/health", None);
    }

    method DocumentsBatch(documents: seq<map<string, Json>>) returns (r: Result<Json>)
      requires wire.Valid()
      modifies wire
      ensures (wire.log, wire.clock, r)
        == Retry(wire, LegacyClassify, RequestFor(POST, "/documents/batch", Some(map["documents" := JArr(Objects(documents))])),
                 retry, old(wire.log), old(wire.clock))
    {
      r := Request(POST, "/documents/batch", Some(map["documents" := JArr(Objects(documents))]));
    }

    method IngestionStart() returns (r: Result<Json>)
      requires wire.Valid()
      modifies wire
      ensures (wire.log, wire.clock, r)
        == Retry(wire, LegacyClassify, RequestFor(POST, "/ingestion/jobs", None), retry, old(wire.log), old(wire.clock))
    {
      r := Request(POST, "/ingestion/jobs", None);
    }

    method IngestionLast() returns (r: Result<Json>)
      requires wire.Valid()
      modifies wire
      ensures (wire.log, wire.clock, r)
        == Retry(wire, LegacyClassify, RequestFor(GET, "/ingestion/last", None), retry, old(wire.log), old(wire.clock))
    {
      r := Request(GET, "/ingestion/last", None);
    }

    method IngestionGet(jobId: string) returns (r: Result<Json>)
      requires wire.Valid()
      modifies wire
      ensures (wire.log, wire.clock, r)
        == Retry(wire, LegacyClassify, RequestFor(GET, "/ingestion/jobs/" + jobId, None), retry, old(wire.log), old(wire.clock))
    {
      r := Request(GET, "/ingestion/jobs/" + jobId, None);
    }

    /** search(payload): the decoded response, as it is. */
    method Search(payload: map<string, Json>) returns (r: Result<Json>)
      requires wire.Valid()
      modifies wire
      ensures (wire.log, wire.clock, r)
        == Retry(wire, LegacyClassify, RequestFor(POST, "/search", Some(payload)), retry, old(wire.log), old(wire.clock))
    {
      r := Request(POST, "/search", Some(payload));
    }
  }

  // ---------------------------------------------------------------- waiting for ingestion

  /** What one ingestion_get does from a log and a clock: the new log, the new clock and
      the reply. */
  type Poller = (seq<WireEvent>, real) -> (seq<WireEvent>, real, Result<Json>)

  /** A poller that only appends to the log, never moves the clock backwards, and takes at
      least `step` seconds whenever it gets a reply. */
  ghost predicate Advances(get: Poller, step: real) {
    forall g, t :: var o := get(g, t);
      && |o.0| >= |g| && o.0[..|g|] == g && o.1 >= t
      && (o.2.Ok? ==> o.1 >= t + step)
  }

  /** A poller whose own failures are never the waiter's: no ingestion failure and no
      timeout. */
  ghost predicate RaisesNoWaitError(get: Poller) {
    forall g, t :: get(g, t).2.Err? ==> !get(g, t).2.error.IngestionFailed? && get(g, t).2.error != IngestionTimedOut
  }

  /** The poll the waiter repeats: one retried request on the wire. */
  function RetryPoller(wire: Wire, req: HttpRequest, retry: RetryConfig): Poller {
    (g, t) => Retry(wire, LegacyClassify, req, retry, g, t)
  }

  /** A retried request only appends to the log, and one that delivers a status takes at
      least the shortest request time. */
  lemma RetryAdvances(wire: Wire, req: HttpRequest, retry: RetryConfig)
    requires wire.Valid()
    ensures Advances(RetryPoller(wire, req, retry), wire.minTook)
  {
    var get := RetryPoller(wire, req, retry);
    forall g, t ensures var o := get(g, t); |o.0| >= |g| && o.0[..|g|] == g && o.1 >= t && (o.2.Ok? ==> o.1 >= t + wire.minTook) {
      var o := Retry(wire, LegacyClassify, req, retry, g, t);
      assert get(g, t) == o;
    }
  }

  /** A retried request never raises the waiter's own errors. */
  lemma RetryRaisesNoWaitError(wire: Wire, req: HttpRequest, retry: RetryConfig)
    requires wire.Valid()
    ensures RaisesNoWaitError(RetryPoller(wire, req, retry))
  {
    forall g, t | retry.maxAttempts >= 1 {
      AttemptsLast(wire, LegacyClassify, req, retry, g, t, 1);
    }
  }

  /** How a poll ends the wait, or that the wait goes on. */
  datatype Round = Done(result: Result<Json>) | Again

  /** The decision of wait_ready after a poll that got `reply`, `elapsed` seconds after the
      wait began: an error of the poll, a status without `get`, PollStep's verdict on an
      object status, or the refusal of a negative sleep. */
  function WaitRound(reply: Result<Json>, elapsed: real, interval: real, timeout: real): Round {
    match reply
    case Err(e) => Done(Err(e))
    case Ok(status) =>
      if !status.JObj? then Done(Err(TypeError("the status has no get")))
      else
        match PollStep(status.fields, elapsed, timeout)
        case Finish(s) => Done(Ok(JObj(s)))
        case Fail(x) => Done(Err(x))
        case Continue => if interval < 0.0 then Done(Err(NegativeSleep(interval))) else Again
  }

  /** A round goes on exactly when the poll delivered an object status that PollStep lets
      wait and the interval can be slept, which is never past the timeout; a round that is
      done returns only a ready status, fails only with a failed status, and times out only
      past the timeout, unless the poll itself raised that error. */
  lemma WaitRoundMeaning(reply: Result<Json>, elapsed: real, interval: real, timeout: real)
    ensures var o := WaitRound(reply, elapsed, interval, timeout);
      && (o == Again <==>
            reply.Ok? && reply.value.JObj? && PollStep(reply.value.fields, elapsed, timeout) == Continue && interval >= 0.0)
      && (o == Again ==> elapsed <= timeout)
      && (o.Done? && o.result.Ok? ==>
            o.result == reply && reply.value.JObj? && JobState(reply.value.fields) in ReadyStates)
      && (o.Done? && o.result.Err? && o.result.error.IngestionFailed? ==>
            o.result == reply ||
            (reply.Ok? && reply.value.JObj? && o.result.error.status == reply.value &&
             JobState(reply.value.fields) in FailedStates))
      && (o == Done(Err(IngestionTimedOut)) ==> o.result == reply || elapsed > timeout)
  {
  }

  /** The log, the clock and the result of wait_ready from the log h at clock c, the wait
      having begun at `start`: a poll, its round, and after a round that goes on a sleep
      of `interval` seconds and the next poll. */
  function LegacyWait(get: Poller, step: real, h: seq<WireEvent>, c: real,
                      start: real, interval: real, timeout: real): (out: (seq<WireEvent>, real, Result<Json>))
    requires step > 0.0 && Advances(get, step)
    decreases Countdown(c, start + timeout, step)
  {
    var (h1, c1, reply) := get(h, c);
    match WaitRound(reply, c1 - start, interval, timeout)
    case Done(r) => (h1, c1, r)
    case Again =>
      WaitRoundMeaning(reply, c1 - start, interval, timeout);
      CountdownDecreases(c, c1 + interval, start + timeout, step);
      LegacyWait(get, step, h1 + [Paused(interval)], c1 + interval, start, interval, timeout)
  }

  /** The wait only appends to the log and never moves the clock backwards. */
  lemma {:induction false} LegacyWaitGrows(get: Poller, step: real, h: seq<WireEvent>, c: real,
                                           start: real, interval: real, timeout: real)
    requires step > 0.0 && Advances(get, step)
    ensures var (h2, c2, r) := LegacyWait(get, step, h, c, start, interval, timeout);
      |h2| >= |h| && h2[..|h|] == h && c2 >= c
    decreases Countdown(c, start + timeout, step)
  {
    var (h1, c1, reply) := get(h, c);
    var round := WaitRound(reply, c1 - start, interval, timeout);
    WaitRoundMeaning(reply, c1 - start, interval, timeout);
    if round == Again {
      var h1', c1' := h1 + [Paused(interval)], c1 + interval;
      CountdownDecreases(c, c1', start + timeout, step);
      assert LegacyWait(get, step, h, c, start, interval, timeout) == LegacyWait(get, step, h1', c1', start, interval, timeout);
      LegacyWaitGrows(get, step, h1', c1', start, interval, timeout);
      var (h2, c2, r) := LegacyWait(get, step, h1', c1', start, interval, timeout);
      assert h2[..|h|] == h2[..|h1'|][..|h|];
    } else {
      assert LegacyWait(get, step, h, c, start, interval, timeout) == (h1, c1, round.result);
    }
  }

  /** What wait_ready promises: a status it returns is an object in a ready state; it fails
      with the status of a failed state, or times out only after more than timeout seconds
      from the start. */
  lemma {:induction false} LegacyWaitOutcome(get: Poller, step: real, h: seq<WireEvent>, c: real,
                                             start: real, interval: real, timeout: real)
    requires step > 0.0 && Advances(get, step) && RaisesNoWaitError(get)
    ensures var (h2, c2, r) := LegacyWait(get, step, h, c, start, interval, timeout);
      && (r.Ok? ==> r.value.JObj? && JobState(r.value.fields) in ReadyStates)
      && (r.Err? && r.error.IngestionFailed? ==>
            r.error.status.JObj? && JobState(r.error.status.fields) in FailedStates)
      && (r == Err(IngestionTimedOut) ==> c2 - start > timeout)
    decreases Countdown(c, start + timeout, step)
  {
    var (h1, c1, reply) := get(h, c);
    var round := WaitRound(reply, c1 - start, interval, timeout);
    WaitRoundMeaning(reply, c1 - start, interval, timeout);
    if round == Again {
      var h1', c1' := h1 + [Paused(interval)], c1 + interval;
      CountdownDecreases(c, c1', start + timeout, step);
      assert LegacyWait(get, step, h, c, start, interval, timeout) == LegacyWait(get, step, h1', c1', start, interval, timeout);
      LegacyWaitOutcome(get, step, h1', c1', start, interval, timeout);
    } else {
      assert LegacyWait(get, step, h, c, start, interval, timeout) == (h1, c1, round.result);
    }
  }

  /** A poll whose round is done ends the wait with that round's result. */
  lemma LegacyWaitDone(get: Poller, step: real, h: seq<WireEvent>, c: real, start: real, interval: real,
                       timeout: real, h1: seq<WireEvent>, c1: real, reply: Result<Json>)
    requires step > 0.0 && Advances(get, step)
    requires get(h, c) == (h1, c1, reply) && WaitRound(reply, c1 - start, interval, timeout).Done?
    ensures LegacyWait(get, step, h, c, start, interval, timeout)
      == (h1, c1, WaitRound(reply, c1 - start, interval, timeout).result)
  {
  }

  /** A poll whose round goes on is followed by a sleep to the log h2 at clock c2 and the
      rest of the wait, which has less time left. */
  lemma LegacyWaitAgain(get: Poller, step: real, h: seq<WireEvent>, c: real, start: real, interval: real,
                        timeout: real, h1: seq<WireEvent>, c1: real, reply: Result<Json>,
                        h2: seq<WireEvent>, c2: real)
    requires step > 0.0 && Advances(get, step)
    requires get(h, c) == (h1, c1, reply) && WaitRound(reply, c1 - start, interval, timeout) == Again
    requires h2 == h1 + [Paused(interval)] && c2 == c1 + interval
    ensures Countdown(c2, start + timeout, step) < Countdown(c, start + timeout, step)
    ensures LegacyWait(get, step, h, c, start, interval, timeout)
      == LegacyWait(get, step, h2, c2, start, interval, timeout)
  {
    WaitRoundMeaning(reply, c1 - start, interval, timeout);
    CountdownDecreases(c, c2, start + timeout, step);
  }

  /** wait_ready over the client's retried GET of the job keeps its promises: a ready
      status, a failed status, or a timeout only past the timeout. */
  lemma RetryWaitOutcome(wire: Wire, req: HttpRequest, retry: RetryConfig, h: seq<WireEvent>, c: real,
                         interval: real, timeout: real)
    requires wire.Valid()
    ensures Advances(RetryPoller(wire, req, retry), wire.minTook) &&
      var (h2, c2, r) := LegacyWait(RetryPoller(wire, req, retry), wire.minTook, h, c, c, interval, timeout);
      && |h2| >= |h| && h2[..|h|] == h && c2 >= c
      && (r.Ok? ==> r.value.JObj? && JobState(r.value.fields) in ReadyStates)
      && (r.Err? && r.error.IngestionFailed? ==>
            r.error.status.JObj? && JobState(r.error.status.fields) in FailedStates)
      && (r == Err(IngestionTimedOut) ==> c2 - c > timeout)
  {
    RetryAdvances(wire, req, retry);
    RetryRaisesNoWaitError(wire, req, retry);
    LegacyWaitGrows(RetryPoller(wire, req, retry), wire.minTook, h, c, c, interval, timeout);
    LegacyWaitOutcome(RetryPoller(wire, req, retry), wire.minTook, h, c, c, interval, timeout);
  }

  /** The older ingestion waiter. */
  class LegacyIngestionWaiter {
    const client: MusubiClient
    const pollIntervalSec: real
    const timeoutSec: real

    constructor(client: MusubiClient, pollIntervalSec: real, timeoutSec: real)
      ensures this.client == client
      ensures this.pollIntervalSec == pollIntervalSec && this.timeoutSec == timeoutSec
    {
      this.client := client;
      this.pollIntervalSec := pollIntervalSec;
      this.timeoutSec := timeoutSec;
    }

    /** One pass of wait_ready's loop: poll the job, decide, and sleep the poll interval
        when the wait goes on. */
    method Poll(jobId: string, start: real) returns (round: Round)
      requires client.wire.Valid()
      modifies client.wire
      ensures var o := Retry(client.wire, LegacyClassify, client.RequestFor(GET, "/ingestion/jobs/" + jobId, None),
                             client.retry, old(client.wire.log), old(client.wire.clock));
        && round == WaitRound(o.2, o.1 - start, pollIntervalSec, timeoutSec)
        && client.wire.log == (if round == Again then o.0 + [Paused(pollIntervalSec)] else o.0)
        && client.wire.clock == (if round == Again then o.1 + pollIntervalSec else o.1)
    {
      var status := client.IngestionGet(jobId);
      if status.Err? {
        return Done(Err(status.error));
      }
      if !status.value.JObj? {
        return Done(Err(TypeError("the status has no get")));
      }
      var step := PollStep(status.value.fields, client.wire.clock - start, timeoutSec);
      match step
      case Finish(s) =>
        round := Done(Ok(JObj(s)));
      case Fail(x) =>
        round := Done(Err(x));
      case Continue =>
        var slept := client.wire.Sleep(pollIntervalSec);
        round := if slept.Err? then Done(Err(slept.error)) else Again;
    }

    /** wait_ready(job_id). */
    method WaitReady(jobId: string) returns (r: Result<Json>)
      requires client.wire.Valid()
      modifies client.wire
      ensures (client.wire.log, client.wire.clock, r)
        == LegacyWait(RetryPoller(client.wire, client.RequestFor(GET, "/ingestion/jobs/" + jobId, None), client.retry),
                      client.wire.minTook, old(client.wire.log), old(client.wire.clock), old(client.wire.clock),
                      pollIntervalSec, timeoutSec)
    {
      var wire := client.wire;
      var req := client.RequestFor(GET, "/ingestion/jobs/" + jobId, None);
      ghost var get := RetryPoller(wire, req, client.retry);
      RetryAdvances(wire, req, client.retry);
      var start := wire.clock;
      ghost var goal := LegacyWait(get, wire.minTook, wire.log, wire.clock, start, pollIntervalSec, timeoutSec);
      while true
        invariant goal == LegacyWait(get, wire.minTook, wire.log, wire.clock, start, pollIntervalSec, timeoutSec)
        decreases Countdown(wire.clock, start + timeoutSec, wire.minTook)
      {
        ghost var h, c := wire.log, wire.clock;
        var round := Poll(jobId, start);
        ghost var o := Retry(wire, LegacyClassify, req, client.retry, h, c);
        assert get(h, c) == (o.0, o.1, o.2);
        if round.Done? {
          LegacyWaitDone(get, wire.minTook, h, c, start, pollIntervalSec, timeoutSec, o.0, o.1, o.2);
          return round.result;
        }
        LegacyWaitAgain(get, wire.minTook, h, c, start, pollIntervalSec, timeoutSec, o.0, o.1, o.2, wire.log, wire.clock);
      }
    }
  }
}
