/** The HTTP transport under both clients (musubi_eval/infrastructure/musubi_http.py and
    musubi_eval/client.py), with the random jitter and the sleep of sleep_backoff in
    musubi_eval/util.py. The network is an oracle: the exchange a request gets is an
    arbitrary function of everything sent and slept before it, and so is the time it takes,
    always at least a positive minimum. */
module Transport {
  import opened Values
  import opened Util

  datatype HttpMethod = GET | POST

  /** One request as the session sends it. */
  datatype HttpRequest = HttpRequest(verb: HttpMethod, url: string, body: Option<map<string, Json>>, timeoutSec: real)

  /** What a request brought back: a response (its status, its content-type header or "" when
      absent, its text and, when that text is valid JSON, the decoded value), or a failure
      that carries no response (connection refused, timeout). */
  datatype Exchange =
    | Response(status: int, contentType: string, text: string, decoded: Option<Json>)
    | TransportFailure

  /** A request with what it brought back and the clock when it returned, or a sleep. */
  datatype WireEvent = Sent(request: HttpRequest, exchange: Exchange, ended: real) | Paused(seconds: real)

  /** The session, the random generator, time.time and time.sleep. */
  class Wire {
    const respond: (seq<WireEvent>, HttpRequest) -> Exchange
    const took: seq<WireEvent> -> real
    const minTook: real
    const jitter: seq<WireEvent> -> real
    var log: seq<WireEvent>
    var clock: real

    /** Every request takes at least minTook > 0 seconds, and random.uniform(0.8, 1.2)
        stays within its bounds. */
    ghost predicate Valid() {
      && minTook > 0.0
      && (forall h :: took(h) >= minTook)
      && (forall h :: 0.8 <= jitter(h) <= 1.2)
    }

    constructor(respond: (seq<WireEvent>, HttpRequest) -> Exchange, took: seq<WireEvent> -> real, minTook: real,
                jitter: seq<WireEvent> -> real, clock: real)
      requires minTook > 0.0 && (forall h :: took(h) >= minTook) && (forall h :: 0.8 <= jitter(h) <= 1.2)
      ensures Valid()
      ensures this.respond == respond && this.took == took && this.minTook == minTook && this.jitter == jitter
      ensures log == [] && this.clock == clock
    {
      this.respond := respond;
      this.took := took;
      this.minTook := minTook;
      this.jitter := jitter;
      log := [];
      this.clock := clock;
    }

    /** session.request: the exchange and the time it took are the network's. */
    method Send(req: HttpRequest) returns (x: Exchange)
      modifies this
      ensures x == respond(old(log), req)
      ensures clock == old(clock) + took(old(log))
      ensures log == old(log) + [Sent(req, x, clock)]
    {
      x := respond(log, req);
      clock := clock + took(log);
      log := log + [Sent(req, x, clock)];
    }

    method Uniform() returns (f: real)
      requires Valid()
      ensures f == jitter(log) && 0.8 <= f <= 1.2
    {
      f := jitter(log);
    }

    /** time.sleep, which refuses a negative duration. */
    method Sleep(seconds: real) returns (r: Result<()>)
      modifies this
      ensures seconds < 0.0 ==> r == Err(NegativeSleep(seconds)) && log == old(log) && clock == old(clock)
      ensures seconds >= 0.0 ==>
        r == Ok(()) && log == old(log) + [Paused(seconds)] && clock == old(clock) + seconds
    {
      if seconds < 0.0 {
        return Err(NegativeSleep(seconds));
      }
      log := log + [Paused(seconds)];
      clock := clock + seconds;
      r := Ok(());
    }
  }

  /** The pause sleep_backoff takes after a log h: the capped exponential delay times the
      jitter drawn then. */
  function BackoffPause(wire: Wire, h: seq<WireEvent>, attempt: int, baseSec: real, maxSec: real): real {
    JitteredDelay(BackoffDelay(attempt, baseSec, maxSec), wire.jitter(h))
  }

  /** A pause that time.sleep accepts comes from a non-negative base delay, and lies in
      [0.8, 1.2] times that delay. */
  lemma BackoffPauseBounds(wire: Wire, h: seq<WireEvent>, attempt: int, baseSec: real, maxSec: real)
    requires wire.Valid() && BackoffPause(wire, h, attempt, baseSec, maxSec) >= 0.0
    ensures BackoffDelay(attempt, baseSec, maxSec) >= 0.0
    ensures 0.8 * BackoffDelay(attempt, baseSec, maxSec) <= BackoffPause(wire, h, attempt, baseSec, maxSec)
    ensures BackoffPause(wire, h, attempt, baseSec, maxSec) <= 1.2 * BackoffDelay(attempt, baseSec, maxSec)
  {
    var b, f := BackoffDelay(attempt, baseSec, maxSec), wire.jitter(h);
    if b < 0.0 {
      MulLe(-b, 0.8, f);
      assert false;
    }
    JitteredDelayBounds(b, f);
  }

  /** sleep_backoff(attempt, base_sec, max_sec). */
  method SleepBackoff(wire: Wire, attempt: int, baseSec: real, maxSec: real) returns (r: Result<()>)
    requires wire.Valid()
    modifies wire
    ensures var d := BackoffPause(wire, old(wire.log), attempt, baseSec, maxSec);
      && (d < 0.0 ==> r == Err(NegativeSleep(d)) && wire.log == old(wire.log) && wire.clock == old(wire.clock))
      && (d >= 0.0 ==> r == Ok(()) && wire.log == old(wire.log) + [Paused(d)] && wire.clock == old(wire.clock) + d)
  {
    var baseDelay := BackoffDelay(attempt, baseSec, maxSec);
    var factor := wire.Uniform();
    r := wire.Sleep(JitteredDelay(baseDelay, factor));
  }
}
