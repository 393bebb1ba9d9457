/** The ports of the application layer (musubi_eval/application/ports.py): the search gateway
    the scenario runner talks to, together with the clock and sleep the runner is given, and
    the dataset reader. */
module Ports {
  import opened Values
  import opened Domain

  /** A gateway operation other than search. */
  datatype Call =
    | Health
    | DocumentsBatch(documents: seq<map<string, Json>>)
    | IngestionStart
    | IngestionGet(jobId: string)

  /** What happened at the gateway or the clock, in order. A call records its reply and the
      clock when it began and when it returned. */
  datatype Event =
    | Called(call: Call, reply: Result<map<string, Json>>, began: real, ended: real)
    | Searched(payload: map<string, Json>, ranked: Result<seq<string>>, began: real, ended: real)
    | Slept(seconds: real)

  /** The search gateway and the clock the runner reads through `now` and `perf_counter`
      and advances through `sleep`. The backend's replies and the time each call takes are
      arbitrary functions of everything that happened before; every call takes at least
      `minTook` seconds, a positive amount. */
  class World {
    const answer: (seq<Event>, Call) -> Result<map<string, Json>>
    const rank: (seq<Event>, map<string, Json>) -> Result<seq<string>>
    const took: seq<Event> -> real
    const minTook: real
    var history: seq<Event>
    var clock: real

    ghost predicate Valid() {
      && minTook > 0.0
      && (forall h :: took(h) >= minTook)
    }

    /** Every recorded reply is the backend's answer to what came before it, and every
        recorded duration is the one the environment chose; each operation keeps this of
        the history. */
    ghost predicate Consistent(h: seq<Event>) {
      |h| == 0 || (Consistent(h[..|h| - 1]) && Faithful(h[..|h| - 1], h[|h| - 1]))
    }

    ghost predicate Faithful(before: seq<Event>, e: Event) {
      match e
      case Called(c, reply, began, ended) => reply == answer(before, c) && ended == began + took(before)
      case Searched(p, ranked, began, ended) => ranked == rank(before, p) && ended == began + took(before)
      case Slept(seconds) => seconds >= 0.0
    }

    /** Consistent, event by event: each event agrees with the history before it. */
    lemma {:induction false} ConsistentEvents(h: seq<Event>)
      requires Consistent(h)
      ensures forall i :: 0 <= i < |h| ==> Faithful(h[..i], h[i])
    {
      if |h| > 0 {
        var init := h[..|h| - 1];
        ConsistentEvents(init);
        forall i | 0 <= i < |h|
          ensures Faithful(h[..i], h[i])
        {
          if i < |init| {
            assert h[..i] == init[..i] && h[i] == init[i];
          }
        }
      }
    }

    lemma ConsistentAppend(h: seq<Event>, e: Event)
      requires Consistent(h) && Faithful(h, e)
      ensures Consistent(h + [e])
    {
      assert (h + [e])[..|h|] == h;
    }

    constructor(
      answer: (seq<Event>, Call) -> Result<map<string, Json>>,
      rank: (seq<Event>, map<string, Json>) -> Result<seq<string>>,
      took: seq<Event> -> real,
      minTook: real,
      clock: real)
      requires minTook > 0.0 && forall h :: took(h) >= minTook
      ensures Valid() && Consistent(history)
      ensures this.answer == answer && this.rank == rank && this.took == took
      ensures this.minTook == minTook && this.clock == clock && history == []
    {
      this.answer := answer;
      this.rank := rank;
      this.took := took;
      this.minTook := minTook;
      this.clock := clock;
      history := [];
    }

    /** health, documents_batch, ingestion_start or ingestion_get. */
    method Request(c: Call) returns (r: Result<map<string, Json>>)
      requires Valid()
      modifies this
      ensures Valid() && (Consistent(old(history)) ==> Consistent(history))
      ensures r == answer(old(history), c)
      ensures clock == old(clock) + took(old(history)) && clock >= old(clock) + minTook
      ensures history == old(history) + [Called(c, r, old(clock), clock)]
    {
      r := answer(history, c);
      var ended := clock + took(history);
      if Consistent(history) {
        ConsistentAppend(history, Called(c, r, clock, ended));
      }
      history := history + [Called(c, r, clock, ended)];
      clock := ended;
    }

    /** search(payload): the ranked document ids, or the exception the backend raised. */
    method Search(payload: map<string, Json>) returns (r: Result<seq<string>>)
      requires Valid()
      modifies this
      ensures Valid() && (Consistent(old(history)) ==> Consistent(history))
      ensures r == rank(old(history), payload)
      ensures clock == old(clock) + took(old(history)) && clock >= old(clock) + minTook
      ensures history == old(history) + [Searched(payload, r, old(clock), clock)]
    {
      r := rank(history, payload);
      var ended := clock + took(history);
      if Consistent(history) {
        ConsistentAppend(history, Searched(payload, r, clock, ended));
      }
      history := history + [Searched(payload, r, clock, ended)];
      clock := ended;
    }

    /** sleep(seconds), which refuses a negative duration as time.sleep does. */
    method Sleep(seconds: real) returns (r: Result<()>)
      requires Valid()
      modifies this
      ensures Valid() && (Consistent(old(history)) ==> Consistent(history))
      ensures seconds < 0.0 ==> r == Err(NegativeSleep(seconds)) && history == old(history) && clock == old(clock)
      ensures seconds >= 0.0 ==>
        r == Ok(()) && clock == old(clock) + seconds && history == old(history) + [Slept(seconds)]
    {
      if seconds < 0.0 {
        return Err(NegativeSleep(seconds));
      }
      if Consistent(history) {
        ConsistentAppend(history, Slept(seconds));
      }
      history := history + [Slept(seconds)];
      clock := clock + seconds;
      r := Ok(());
    }
  }

  /** The dataset reader: the documents and the queries stored at a path, or the exception
      raised while reading them. */
  datatype DatasetReader = DatasetReader(
    loadDocuments: string -> Result<seq<Document>>,
    loadQueries: string -> Result<seq<Query>>)
}
