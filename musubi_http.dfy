/** The HTTP search gateway (musubi_eval/infrastructure/musubi_http.py): a bounded retry loop
    whose retry eligibility depends on the status class, the normalisation of a response
    body, and the extraction of ranked ids from a search response. The retry loop is shared
    with the older client of musubi_eval/client.py, which judges an attempt differently. */
module MusubiHttp {
  import opened Values
  import opened Domain
  import opened Util
  import opened Transport

  // ---------------------------------------------------------------- one attempt

  /** How one attempt ends: a body to return, an error to raise at once, or an error that
      is retried while attempts remain. */
  datatype Outcome = Success(body: Json) | Fatal(error: Error) | Retryable(error: Error)

  /** The first 300 characters of the stripped response text. */
  function BodyPreview(text: string): (p: string)
    ensures |p| <= 300 && |p| <= |Strip(text)| && p == Strip(text)[..|p|]
    ensures |Strip(text)| <= 300 ==> p == Strip(text)
  {
    PySlice(Strip(text), 0, 300)
  }

  predicate IsJsonContent(contentType: string) {
    StartsWith(contentType, "application/json")
  }

  /** What a response below 400 returns: the decoded body when the content type is JSON
      (a JSON body that does not decode raises an error without a response), otherwise the
      text as {"text": text}. */
  function Delivered(contentType: string, text: string, decoded: Option<Json>): Outcome {
    if IsJsonContent(contentType) then
      if decoded.Some? then Success(decoded.value) else Retryable(InvalidJson)
    else Success(JObj(map["text" := JStr(text)]))
  }

  /** One attempt of MusubiHttpClient._request. */
  function Classify(x: Exchange): (o: Outcome)
    ensures o.Fatal? <==> x.Response? && 400 <= x.status < 500
    ensures o.Fatal? ==> o.error == HttpError(x.status)
    ensures x.Response? && x.status >= 500 ==> o == Retryable(ServerError(x.status, BodyPreview(x.text)))
    ensures x.TransportFailure? ==> o == Retryable(ConnectionError)
    ensures o.Success? <==> x.Response? && x.status < 400 && (IsJsonContent(x.contentType) ==> x.decoded.Some?)
    ensures o.Success? && IsJsonContent(x.contentType) ==> o.body == x.decoded.value
    ensures o.Success? && !IsJsonContent(x.contentType) ==> o.body == JObj(map["text" := JStr(x.text)])
  {
    match x
    case TransportFailure => Retryable(ConnectionError)
    case Response(status, contentType, text, decoded) =>
      if 400 <= status < 500 then Fatal(HttpError(status))
      else if status >= 500 then Retryable(ServerError(status, BodyPreview(text)))
      else Delivered(contentType, text, decoded)
  }

  // ---------------------------------------------------------------- the retry loop

  /** The events and the result of the attempts from `attempt` on, made after the log h at
      clock `now`: each attempt sends the request; an attempt judged retryable is followed,
      unless it was the last, by the backoff pause of its attempt number. */
  function Attempts(wire: Wire, classify: Exchange -> Outcome, req: HttpRequest, retry: RetryConfig,
                    h: seq<WireEvent>, now: real, attempt: int): (r: (seq<WireEvent>, Result<Json>))
    requires 1 <= attempt <= retry.maxAttempts
    decreases retry.maxAttempts - attempt
  {
    var x := wire.respond(h, req);
    var sent := Sent(req, x, now + wire.took(h));
    match classify(x)
    case Success(body) => ([sent], Ok(body))
    case Fatal(e) => ([sent], Err(e))
    case Retryable(e) =>
      if attempt >= retry.maxAttempts then ([sent], Err(e))
      else
        var d := BackoffPause(wire, h + [sent], attempt, retry.baseBackoffSec, retry.maxBackoffSec);
        if d < 0.0 then ([sent], Err(NegativeSleep(d)))
        else
          var rest := Attempts(wire, classify, req, retry, h + [sent, Paused(d)], now + wire.took(h) + d, attempt + 1);
          ([sent, Paused(d)] + rest.0, rest.1)
  }

  /** The log, the clock and the result after a retried request made after the log h at
      clock c: nothing but the "unreachable" error when no attempt is allowed, otherwise
      exactly its attempts, the clock standing where the last request returned. */
  function Retry(wire: Wire, classify: Exchange -> Outcome, req: HttpRequest, retry: RetryConfig,
                 h: seq<WireEvent>, c: real): (out: (seq<WireEvent>, real, Result<Json>))
    ensures |out.0| >= |h| && out.0[..|h|] == h
    ensures retry.maxAttempts < 1 <==> out.0 == h
    ensures retry.maxAttempts < 1 ==> out == (h, c, Err(Unreachable))
    ensures wire.Valid() && retry.maxAttempts >= 1 ==> out.1 >= c + wire.minTook
  {
    if retry.maxAttempts < 1 then (h, c, Err(Unreachable))
    else
      var a := Attempts(wire, classify, req, retry, h, c, 1);
      AttemptsEnd(wire, classify, req, retry, h, c, 1);
      assert wire.Valid() ==> a.0[|a.0| - 1].ended >= c + wire.minTook by {
        if wire.Valid() {
          AttemptsLast(wire, classify, req, retry, h, c, 1);
        }
      }
      (h + a.0, a.0[|a.0| - 1].ended, a.1)
  }

  /** The `for attempt in range(1, max_attempts + 1)` loop of _request, with the attempt
      judged by classify. */
  method Retrying(wire: Wire, classify: Exchange -> Outcome, req: HttpRequest, retry: RetryConfig)
    returns (r: Result<Json>)
    requires wire.Valid()
    modifies wire
    ensures (wire.log, wire.clock, r) == Retry(wire, classify, req, retry, old(wire.log), old(wire.clock))
  {
    if retry.maxAttempts < 1 {
      return Err(Unreachable);
    }
    ghost var h0, c0 := wire.log, wire.clock;
    var attempt := 1;
    while true
      invariant 1 <= attempt <= retry.maxAttempts
      invariant Extends(wire.log, h0)
      invariant Pending(wire, classify, req, retry, h0, c0, wire.log, wire.clock, attempt)
      decreases retry.maxAttempts - attempt
    {
      ghost var h, c := wire.log, wire.clock;
      var x := wire.Send(req);
      ghost var sent := Sent(req, x, wire.clock);
      var o := classify(x);
      if o.Success? {
        RetriedLast(wire, classify, req, retry, h0, c0, h, c, attempt, wire.log, wire.clock, Ok(o.body));
        return Ok(o.body);
      }
      if o.Fatal? || attempt >= retry.maxAttempts {
        RetriedLast(wire, classify, req, retry, h0, c0, h, c, attempt, wire.log, wire.clock, Err(o.error));
        return Err(o.error);
      }
      ghost var d := BackoffPause(wire, h + [sent], attempt, retry.baseBackoffSec, retry.maxBackoffSec);
      var slept := SleepBackoff(wire, attempt, retry.baseBackoffSec, retry.maxBackoffSec);
      if slept.Err? {
        RetriedLast(wire, classify, req, retry, h0, c0, h, c, attempt, wire.log, wire.clock, Err(NegativeSleep(d)));
        return Err(slept.error);
      }
      RetriedStep(wire, classify, req, retry, h0, c0, h, c, attempt, wire.log, wire.clock);
      attempt := attempt + 1;
    }
  }

  /** The loop's invariant: the attempts made since h0 followed by the attempts still to
      come from `attempt` on are the attempts of the whole call. */
  ghost predicate Pending(wire: Wire, classify: Exchange -> Outcome, req: HttpRequest, retry: RetryConfig,
                          h0: seq<WireEvent>, c0: real, h: seq<WireEvent>, c: real, attempt: int)
    requires 1 <= attempt <= retry.maxAttempts && Extends(h, h0)
  {
    var a := Attempts(wire, classify, req, retry, h, c, attempt);
    var all := Attempts(wire, classify, req, retry, h0, c0, 1);
    h0 + all.0 == h + a.0 && all.1 == a.1
  }

  /** How the first of the attempts from `attempt` on ends them, when it does. */
  lemma AttemptsHead(wire: Wire, classify: Exchange -> Outcome, req: HttpRequest, retry: RetryConfig,
                     h: seq<WireEvent>, c: real, attempt: int)
    requires 1 <= attempt <= retry.maxAttempts
    ensures var x := wire.respond(h, req);
      var sent := Sent(req, x, c + wire.took(h));
      var a := Attempts(wire, classify, req, retry, h, c, attempt);
      && (classify(x).Success? ==> a == ([sent], Ok(classify(x).body)))
      && (classify(x).Fatal? ==> a == ([sent], Err(classify(x).error)))
      && (classify(x).Retryable? && attempt == retry.maxAttempts ==> a == ([sent], Err(classify(x).error)))
      && (classify(x).Retryable? && attempt < retry.maxAttempts &&
          BackoffPause(wire, h + [sent], attempt, retry.baseBackoffSec, retry.maxBackoffSec) < 0.0 ==>
            a == ([sent], Err(NegativeSleep(BackoffPause(wire, h + [sent], attempt, retry.baseBackoffSec,
                                                         retry.maxBackoffSec)))))
  {
  }

  /** An attempt judged o, with `pause` the backoff it would sleep, ends the attempts with r. */
  predicate StopsWith(o: Outcome, attempt: int, retry: RetryConfig, pause: real, r: Result<Json>) {
    || (o.Success? && r == Ok(o.body))
    || (o.Fatal? && r == Err(o.error))
    || (o.Retryable? && attempt >= retry.maxAttempts && r == Err(o.error))
    || (o.Retryable? && attempt < retry.maxAttempts && pause < 0.0 && r == Err(NegativeSleep(pause)))
  }

  /** When the remaining attempts have been made, the call is done. */
  lemma RetriedLast(wire: Wire, classify: Exchange -> Outcome, req: HttpRequest, retry: RetryConfig,
                    h0: seq<WireEvent>, c0: real, h: seq<WireEvent>, c: real, attempt: int,
                    h1: seq<WireEvent>, c1: real, r: Result<Json>)
    requires 1 <= attempt <= retry.maxAttempts && Extends(h, h0)
    requires Pending(wire, classify, req, retry, h0, c0, h, c, attempt)
    requires h1 == h + [Sent(req, wire.respond(h, req), c + wire.took(h))] && c1 == c + wire.took(h)
    requires StopsWith(classify(wire.respond(h, req)), attempt, retry,
                       BackoffPause(wire, h1, attempt, retry.baseBackoffSec, retry.maxBackoffSec), r)
    ensures (h1, c1, r) == Retry(wire, classify, req, retry, h0, c0)
  {
    AttemptsHead(wire, classify, req, retry, h, c, attempt);
    var a := Attempts(wire, classify, req, retry, h, c, attempt);
    var all := Attempts(wire, classify, req, retry, h0, c0, 1);
    AttemptsEnd(wire, classify, req, retry, h0, c0, 1);
    SinceAppend(h, |h0|, a.0);
    assert all.0[|all.0| - 1] == a.0[|a.0| - 1];
  }

  /** A retried attempt followed by its pause leaves the invariant in place for the next. */
  lemma RetriedStep(wire: Wire, classify: Exchange -> Outcome, req: HttpRequest, retry: RetryConfig,
                    h0: seq<WireEvent>, c0: real, h: seq<WireEvent>, c: real, attempt: int,
                    h1: seq<WireEvent>, c1: real)
    requires 1 <= attempt < retry.maxAttempts && Extends(h, h0)
    requires Pending(wire, classify, req, retry, h0, c0, h, c, attempt)
    requires classify(wire.respond(h, req)).Retryable?
    requires BackoffPause(wire, h + [Sent(req, wire.respond(h, req), c + wire.took(h))], attempt,
                          retry.baseBackoffSec, retry.maxBackoffSec) >= 0.0
    requires var sent := Sent(req, wire.respond(h, req), c + wire.took(h));
      var d := BackoffPause(wire, h + [sent], attempt, retry.baseBackoffSec, retry.maxBackoffSec);
      h1 == h + [sent] + [Paused(d)] && c1 == c + wire.took(h) + d
    ensures Extends(h1, h0) && Pending(wire, classify, req, retry, h0, c0, h1, c1, attempt + 1)
  {
    var sent := Sent(req, wire.respond(h, req), c + wire.took(h));
    var d := BackoffPause(wire, h + [sent], attempt, retry.baseBackoffSec, retry.maxBackoffSec);
    assert h1 == h + [sent, Paused(d)];
    var rest := Attempts(wire, classify, req, retry, h1, c1, attempt + 1);
    var all := Attempts(wire, classify, req, retry, h0, c0, 1);
    AttemptsUnfold(wire, classify, req, retry, h, c, attempt);
    ShiftHistory(h0, all.0, h, [sent, Paused(d)], rest.0);
    SinceAppend(h, |h0|, [sent, Paused(d)]);
  }

  /** Moving the events `mid` from what is to come onto the history keeps the whole. */
  lemma ShiftHistory<T>(h0: seq<T>, all: seq<T>, h: seq<T>, mid: seq<T>, rest: seq<T>)
    requires h0 + all == h + (mid + rest)
    ensures h0 + all == (h + mid) + rest
  {
    assert h + (mid + rest) == (h + mid) + rest;
  }

  /** The events of the attempts when the first is retried: the request, the pause, then
      the events of the remaining attempts. */
  lemma AttemptsUnfold(wire: Wire, classify: Exchange -> Outcome, req: HttpRequest,
                       retry: RetryConfig, h: seq<WireEvent>, now: real, attempt: int)
    requires 1 <= attempt < retry.maxAttempts
    requires classify(wire.respond(h, req)).Retryable?
    requires BackoffPause(wire, h + [Sent(req, wire.respond(h, req), now + wire.took(h))], attempt,
                          retry.baseBackoffSec, retry.maxBackoffSec) >= 0.0
    ensures var sent := Sent(req, wire.respond(h, req), now + wire.took(h));
      var d := BackoffPause(wire, h + [sent], attempt, retry.baseBackoffSec, retry.maxBackoffSec);
      var rest := Attempts(wire, classify, req, retry, h + [sent, Paused(d)], now + wire.took(h) + d, attempt + 1);
      var evs := Attempts(wire, classify, req, retry, h, now, attempt).0;
      && evs == [sent, Paused(d)] + rest.0
      && Attempts(wire, classify, req, retry, h, now, attempt).1 == rest.1
  {
  }

  /** The attempts end with a request. */
  lemma {:induction false} AttemptsEnd(wire: Wire, classify: Exchange -> Outcome, req: HttpRequest,
                                       retry: RetryConfig, h: seq<WireEvent>, now: real, attempt: int)
    requires 1 <= attempt <= retry.maxAttempts
    ensures var evs := Attempts(wire, classify, req, retry, h, now, attempt).0;
      |evs| >= 1 && evs[|evs| - 1].Sent?
    decreases retry.maxAttempts - attempt
  {
    var x := wire.respond(h, req);
    var sent := Sent(req, x, now + wire.took(h));
    var d := BackoffPause(wire, h + [sent], attempt, retry.baseBackoffSec, retry.maxBackoffSec);
    if classify(x).Retryable? && attempt < retry.maxAttempts && d >= 0.0 {
      var rest := Attempts(wire, classify, req, retry, h + [sent, Paused(d)], now + wire.took(h) + d, attempt + 1).0;
      AttemptsUnfold(wire, classify, req, retry, h, now, attempt);
      AttemptsEnd(wire, classify, req, retry, h + [sent, Paused(d)], now + wire.took(h) + d, attempt + 1);
      assert ([sent, Paused(d)] + rest)[|rest| + 1] == rest[|rest| - 1];
    } else {
      AttemptsStop(wire, classify, req, retry, h, now, attempt);
    }
  }

  /** The attempts stop after the first request when it is not retried. */
  lemma AttemptsStop(wire: Wire, classify: Exchange -> Outcome, req: HttpRequest, retry: RetryConfig,
                     h: seq<WireEvent>, now: real, attempt: int)
    requires 1 <= attempt <= retry.maxAttempts
    requires var sent := Sent(req, wire.respond(h, req), now + wire.took(h));
      !(&& classify(wire.respond(h, req)).Retryable? && attempt < retry.maxAttempts
        && BackoffPause(wire, h + [sent], attempt, retry.baseBackoffSec, retry.maxBackoffSec) >= 0.0)
    ensures Attempts(wire, classify, req, retry, h, now, attempt).0 == [Sent(req, wire.respond(h, req), now + wire.took(h))]
  {
  }

  /** Requests of req at even positions and pauses at odd ones, ending with a request;
      every request but the last judged retryable. */
  predicate Alternates(evs: seq<WireEvent>, req: HttpRequest, classify: Exchange -> Outcome) {
    && |evs| % 2 == 1
    && (forall i :: 0 <= i < |evs| ==> (evs[i].Sent? <==> i % 2 == 0))
    && (forall i :: 0 <= i < |evs| && evs[i].Sent? ==> evs[i].request == req)
    && (forall i :: 0 <= i < |evs| - 1 && evs[i].Sent? ==> classify(evs[i].exchange).Retryable?)
  }

  lemma AlternatesCons(sent: WireEvent, pause: WireEvent, rest: seq<WireEvent>, req: HttpRequest,
                       classify: Exchange -> Outcome)
    requires Alternates(rest, req, classify)
    requires sent.Sent? && sent.request == req && classify(sent.exchange).Retryable? && pause.Paused?
    ensures Alternates([sent, pause] + rest, req, classify)
  {
    var evs := [sent, pause] + rest;
    forall i | 2 <= i < |evs|
      ensures evs[i] == rest[i - 2] && (i % 2 == 0 <==> (i - 2) % 2 == 0)
    {
    }
  }

  /** Pauses, at odd positions, each within [0.8, 1.2] times the non-negative capped
      exponential delay of the attempt it follows, the first being `attempt`. */
  predicate PausesBounded(evs: seq<WireEvent>, attempt: int, retry: RetryConfig) {
    forall i :: 0 <= i < |evs| && evs[i].Paused? ==>
      && i % 2 == 1
      && 0.0 <= BackoffDelay(attempt + i / 2, retry.baseBackoffSec, retry.maxBackoffSec)
      && 0.8 * BackoffDelay(attempt + i / 2, retry.baseBackoffSec, retry.maxBackoffSec) <= evs[i].seconds
      && evs[i].seconds <= 1.2 * BackoffDelay(attempt + i / 2, retry.baseBackoffSec, retry.maxBackoffSec)
  }

  lemma PausesBoundedCons(sent: WireEvent, pause: WireEvent, rest: seq<WireEvent>, attempt: int, retry: RetryConfig)
    requires PausesBounded(rest, attempt + 1, retry) && sent.Sent? && pause.Paused?
    requires 0.0 <= BackoffDelay(attempt, retry.baseBackoffSec, retry.maxBackoffSec)
    requires 0.8 * BackoffDelay(attempt, retry.baseBackoffSec, retry.maxBackoffSec) <= pause.seconds
    requires pause.seconds <= 1.2 * BackoffDelay(attempt, retry.baseBackoffSec, retry.maxBackoffSec)
    ensures PausesBounded([sent, pause] + rest, attempt, retry)
  {
    var evs := [sent, pause] + rest;
    forall i | 2 <= i < |evs| && evs[i].Paused?
      ensures evs[i] == rest[i - 2] && i % 2 == ((i - 2) % 2) && attempt + i / 2 == (attempt + 1) + (i - 2) / 2
    {
    }
  }

  /** The attempts alternate with pauses, and there are at most max_attempts requests. */
  lemma {:induction false} AttemptsAlternate(wire: Wire, classify: Exchange -> Outcome, req: HttpRequest,
                                             retry: RetryConfig, h: seq<WireEvent>, now: real, attempt: int)
    requires 1 <= attempt <= retry.maxAttempts
    ensures var evs := Attempts(wire, classify, req, retry, h, now, attempt).0;
      Alternates(evs, req, classify) && |evs| <= 2 * (retry.maxAttempts - attempt) + 1
    decreases retry.maxAttempts - attempt
  {
    var x := wire.respond(h, req);
    var sent := Sent(req, x, now + wire.took(h));
    var d := BackoffPause(wire, h + [sent], attempt, retry.baseBackoffSec, retry.maxBackoffSec);
    if classify(x).Retryable? && attempt < retry.maxAttempts && d >= 0.0 {
      var h1, now1 := h + [sent, Paused(d)], now + wire.took(h) + d;
      AttemptsUnfold(wire, classify, req, retry, h, now, attempt);
      AttemptsAlternate(wire, classify, req, retry, h1, now1, attempt + 1);
      AlternatesCons(sent, Paused(d), Attempts(wire, classify, req, retry, h1, now1, attempt + 1).0, req, classify);
    } else {
      AttemptsStop(wire, classify, req, retry, h, now, attempt);
      assert Alternates([sent], req, classify);
    }
  }

  /** Every pause of the attempts lies in [0.8, 1.2] times the capped exponential delay of
      the attempt it follows, a delay that is not negative. */
  lemma {:induction false} AttemptsPauses(wire: Wire, classify: Exchange -> Outcome, req: HttpRequest,
                                          retry: RetryConfig, h: seq<WireEvent>, now: real, attempt: int)
    requires wire.Valid() && 1 <= attempt <= retry.maxAttempts
    ensures PausesBounded(Attempts(wire, classify, req, retry, h, now, attempt).0, attempt, retry)
    decreases retry.maxAttempts - attempt
  {
    var x := wire.respond(h, req);
    var sent := Sent(req, x, now + wire.took(h));
    var d := BackoffPause(wire, h + [sent], attempt, retry.baseBackoffSec, retry.maxBackoffSec);
    if classify(x).Retryable? && attempt < retry.maxAttempts && d >= 0.0 {
      var h1, now1 := h + [sent, Paused(d)], now + wire.took(h) + d;
      AttemptsUnfold(wire, classify, req, retry, h, now, attempt);
      BackoffPauseBounds(wire, h + [sent], attempt, retry.baseBackoffSec, retry.maxBackoffSec);
      AttemptsPauses(wire, classify, req, retry, h1, now1, attempt + 1);
      PausesBoundedCons(sent, Paused(d), Attempts(wire, classify, req, retry, h1, now1, attempt + 1).0, attempt, retry);
    } else {
      AttemptsStop(wire, classify, req, retry, h, now, attempt);
      assert PausesBounded([sent], attempt, retry);
    }
  }

  /** The last request decides the result: its body on success, its error when it is not
      retried, and when it is retried, its error after max_attempts requests or the error
      of a refused pause; it returns at least minTook after `now`. */
  predicate LastDecides(evs: seq<WireEvent>, r: Result<Json>, classify: Exchange -> Outcome, now: real,
                        minTook: real)
  {
    && |evs| >= 1 && evs[|evs| - 1].Sent?
    && evs[|evs| - 1].ended >= now + minTook
    && var last := classify(evs[|evs| - 1].exchange);
       && (last.Success? ==> r == Ok(last.body))
       && (last.Fatal? ==> r == Err(last.error))
       && (last.Retryable? ==> r == Err(last.error) || (r.Err? && r.error.NegativeSleep?))
  }

  lemma LastDecidesCons(sent: WireEvent, pause: WireEvent, rest: seq<WireEvent>, r: Result<Json>,
                        classify: Exchange -> Outcome, now: real, later: real, minTook: real)
    requires now <= later && LastDecides(rest, r, classify, later, minTook)
    ensures LastDecides([sent, pause] + rest, r, classify, now, minTook)
  {
    assert ([sent, pause] + rest)[|rest| + 1] == rest[|rest| - 1];
  }

  /** The attempts end with the request that decides their result. */
  lemma {:induction false} AttemptsLast(wire: Wire, classify: Exchange -> Outcome, req: HttpRequest,
                                        retry: RetryConfig, h: seq<WireEvent>, now: real, attempt: int)
    requires wire.Valid() && 1 <= attempt <= retry.maxAttempts
    ensures var a := Attempts(wire, classify, req, retry, h, now, attempt);
      LastDecides(a.0, a.1, classify, now, wire.minTook)
    decreases retry.maxAttempts - attempt
  {
    var x := wire.respond(h, req);
    var sent := Sent(req, x, now + wire.took(h));
    var d := BackoffPause(wire, h + [sent], attempt, retry.baseBackoffSec, retry.maxBackoffSec);
    if classify(x).Retryable? && attempt < retry.maxAttempts && d >= 0.0 {
      var h1, now1 := h + [sent, Paused(d)], now + wire.took(h) + d;
      var rest := Attempts(wire, classify, req, retry, h1, now1, attempt + 1);
      AttemptsUnfold(wire, classify, req, retry, h, now, attempt);
      AttemptsLast(wire, classify, req, retry, h1, now1, attempt + 1);
      assert wire.took(h) >= wire.minTook > 0.0;
      LastDecidesCons(sent, Paused(d), rest.0, rest.1, classify, now, now1, wire.minTook);
    } else {
      AttemptsStop(wire, classify, req, retry, h, now, attempt);
      AttemptsHead(wire, classify, req, retry, h, now, attempt);
    }
  }

  /** The request is sent at most max_attempts times and paused at most max_attempts - 1
      times; an error that is not retried ends the request on the attempt where it
      occurs. */
  lemma AttemptsBounded(wire: Wire, classify: Exchange -> Outcome, req: HttpRequest, retry: RetryConfig,
                        h: seq<WireEvent>, now: real)
    requires wire.Valid() && retry.maxAttempts >= 1
    ensures var (evs, r) := Attempts(wire, classify, req, retry, h, now, 1);
      && Count(evs, true) == (|evs| + 1) / 2 <= retry.maxAttempts
      && Count(evs, false) == |evs| / 2 <= retry.maxAttempts - 1
      && (forall i :: 0 <= i < |evs| && evs[i].Sent? && classify(evs[i].exchange).Fatal? ==>
            i == |evs| - 1 && r == Err(classify(evs[i].exchange).error))
  {
    AttemptsAlternate(wire, classify, req, retry, h, now, 1);
    AttemptsLast(wire, classify, req, retry, h, now, 1);
    var evs := Attempts(wire, classify, req, retry, h, now, 1).0;
    CountAlternating(evs);
  }

  /** The number of requests (sent) or pauses (not sent) among the events. */
  function Count(evs: seq<WireEvent>, sent: bool): nat {
    if evs == [] then 0 else Count(evs[..|evs| - 1], sent) + (if evs[|evs| - 1].Sent? == sent then 1 else 0)
  }

  lemma {:induction false} CountAlternating(evs: seq<WireEvent>)
    requires forall i :: 0 <= i < |evs| ==> (evs[i].Sent? <==> i % 2 == 0)
    ensures Count(evs, true) == (|evs| + 1) / 2 && Count(evs, false) == |evs| / 2
  {
    if evs != [] {
      CountAlternating(evs[..|evs| - 1]);
    }
  }

  // ---------------------------------------------------------------- search responses

  /** The items of a search response: a bare list as it is; otherwise the first truthy of
      `results`, `documents` and `hits`, else none. A response that is neither a list nor an
      object has no `get`. */
  function ResponseItems(response: Json): (r: Result<seq<Json>>)
    ensures response.JArr? ==> r == Ok(response.items)
    ensures response.JObj? && Truthy(Get(response.fields, "results")) ==> r == Iterate(response.fields["results"])
    ensures response.JObj? && !Truthy(Get(response.fields, "results")) && Truthy(Get(response.fields, "documents")) ==>
      r == Iterate(response.fields["documents"])
    ensures response.JObj? && !Truthy(Get(response.fields, "results")) && !Truthy(Get(response.fields, "documents"))
      ==> (Truthy(Get(response.fields, "hits")) ==> r == Iterate(response.fields["hits"]))
    ensures response.JObj? && !Truthy(Get(response.fields, "results")) && !Truthy(Get(response.fields, "documents"))
      ==> (!Truthy(Get(response.fields, "hits")) ==> r == Ok([]))
    ensures !response.JArr? && !response.JObj? ==> r.Err?
  {
    match response
    case JArr(items) => Ok(items)
    case JObj(fields) =>
      Iterate(Or(Or(Or(Get(fields, "results"), Get(fields, "documents")), Get(fields, "hits")), JArr([])))
    case _ => Err(TypeError("the search response has no get"))
  }

  /** The id an item contributes: str(item["id"]) for an object with an id, the item itself
      for a string, nothing for anything else. */
  function ItemId(item: Json): Option<string> {
    if item.JObj? && "id" in item.fields then Some(PyStr(item.fields["id"]))
    else if item.JStr? then Some(item.s)
    else None
  }

  /** The ids of the items, in order. */
  function IdsOf(items: seq<Json>): (ids: seq<string>)
    ensures |ids| <= |items|
  {
    if items == [] then []
    else IdsOf(items[..|items| - 1]) + (match ItemId(items[|items| - 1]) case Some(id) => [id] case None => [])
  }

  /** Extraction preserves order: the ids of a concatenation are the concatenated ids. */
  lemma {:induction false} IdsOfAppend(a: seq<Json>, b: seq<Json>)
    ensures IdsOf(a + b) == IdsOf(a) + IdsOf(b)
    decreases |b|
  {
    if b == [] {
      assert a + b == a;
    } else {
      assert (a + b)[..|a + b| - 1] == a + b[..|b| - 1];
      assert (a + b)[|a + b| - 1] == b[|b| - 1];
      IdsOfAppend(a, b[..|b| - 1]);
    }
  }

  /** When every item contributes an id, the ids are exactly the items' ids, position by
      position; when none does, there are none. */
  lemma {:induction false} IdsOfEach(items: seq<Json>)
    ensures (forall i :: 0 <= i < |items| ==> ItemId(items[i]).Some?) ==>
      |IdsOf(items)| == |items| && forall i :: 0 <= i < |items| ==> IdsOf(items)[i] == ItemId(items[i]).value
    ensures (forall i :: 0 <= i < |items| ==> ItemId(items[i]).None?) ==> IdsOf(items) == []
  {
    if items != [] {
      var init := items[..|items| - 1];
      IdsOfEach(init);
      assert forall i :: 0 <= i < |init| ==> init[i] == items[i];
    }
  }

  /** The ranked ids of a search response, or the error raised while reading it. */
  function ResponseIds(response: Json): Result<seq<string>> {
    match ResponseItems(response)
    case Ok(items) => Ok(IdsOf(items))
    case Err(e) => Err(e)
  }

  /** _extract_ids. */
  method ExtractIds(response: Json) returns (r: Result<seq<string>>)
    ensures r == ResponseIds(response)
  {
    var items :- ResponseItems(response);
    var ids: seq<string> := [];
    for i := 0 to |items|
      invariant ids == IdsOf(items[..i])
    {
      var item := items[i];
      assert items[..i + 1][..i] == items[..i];
      if item.JObj? && "id" in item.fields {
        ids := ids + [PyStr(item.fields["id"])];
      } else if item.JStr? {
        ids := ids + [item.s];
      }
    }
    assert items[..|items|] == items;
    r := Ok(ids);
  }

  // ---------------------------------------------------------------- the client

  /** The search gateway over HTTP. */
  class MusubiHttpClient {
    const wire: Wire
    const baseUrl: string
    const timeoutSec: real
    const retry: RetryConfig

    constructor(wire: Wire, baseUrl: string, timeoutSec: real, retry: RetryConfig)
      ensures this.wire == wire && this.baseUrl == RStripSlashes(baseUrl)
      ensures this.timeoutSec == timeoutSec && this.retry == retry
    {
      this.wire := wire;
      this.baseUrl := RStripSlashes(baseUrl);
      this.timeoutSec := timeoutSec;
      this.retry := retry;
    }

    function RequestFor(verb: HttpMethod, path: string, body: Option<map<string, Json>>): HttpRequest {
      HttpRequest(verb, baseUrl + path, body, timeoutSec)
    }

    /** _request(method, path, json_body). */
    method Request(verb: HttpMethod, path: string, body: Option<map<string, Json>>) returns (r: Result<Json>)
      requires wire.Valid()
      modifies wire
      ensures (wire.log, wire.clock, r) == Retry(wire, Classify, RequestFor(verb, path, body), retry, old(wire.log), old(wire.clock))
    {
      r := Retrying(wire, Classify, RequestFor(verb, path, body), retry);
    }

    method Health() returns (r: Result<Json>)
      requires wire.Valid()
      modifies wire
      ensures (wire.log, wire.clock, r) == Retry(wire, Classify, RequestFor(GET, "/health", None), retry, old(wire.log), old(wire.clock))
    {
      r := Request(GET, "/health", None);
    }

    method DocumentsBatch(documents: seq<map<string, Json>>) returns (r: Result<Json>)
      requires wire.Valid()
      modifies wire
      ensures (wire.log, wire.clock, r)
        == Retry(wire, Classify, RequestFor(POST, "/documents/batch", Some(map["documents" := JArr(Objects(documents))])),
                 retry, old(wire.log), old(wire.clock))
    {
      r := Request(POST, "/documents/batch", Some(map["documents" := JArr(Objects(documents))]));
    }

    method IngestionStart() returns (r: Result<Json>)
      requires wire.Valid()
      modifies wire
      ensures (wire.log, wire.clock, r) == Retry(wire, Classify, RequestFor(POST, "/ingestion/jobs", None), retry, old(wire.log), old(wire.clock))
    {
      r := Request(POST, "/ingestion/jobs", None);
    }

    method IngestionGet(jobId: string) returns (r: Result<Json>)
      requires wire.Valid()
      modifies wire
      ensures (wire.log, wire.clock, r) == Retry(wire, Classify, RequestFor(GET, "/ingestion/jobs/" + jobId, None), retry, old(wire.log), old(wire.clock))
    {
      r := Request(GET, "/ingestion/jobs/" + jobId, None);
    }

    /** search(payload): the ids extracted from the response of a retried POST /search. */
    method Search(payload: map<string, Json>) returns (r: Result<seq<string>>)
      requires wire.Valid()
      modifies wire
      ensures var (h, c, reply) := Retry(wire, Classify, RequestFor(POST, "/search", Some(payload)), retry,
                                         old(wire.log), old(wire.clock));
        && wire.log == h && wire.clock == c
        && r == (if reply.Ok? then ResponseIds(reply.value) else Err(reply.error))
    {
      var reply := Request(POST, "/search", Some(payload));
      if reply.Err? {
        return Err(reply.error);
      }
      r := ExtractIds(reply.value);
    }
  }

  /** A list of dicts as a JSON list. */
  function Objects(documents: seq<map<string, Json>>): (r: seq<Json>)
    ensures |r| == |documents| && forall i :: 0 <= i < |documents| ==> r[i] == JObj(documents[i])
  {
    seq(|documents|, i requires 0 <= i < |documents| => JObj(documents[i]))
  }
}
