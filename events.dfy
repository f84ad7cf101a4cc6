/** The event publishers: `publishSearchEvent` hands one message to the broker
    client and never lets a broker failure reach its caller. The broker itself is
    an output sequence of the messages handed to it, each marked with whether the
    broker accepted it. */
module Events {
  import opened Common
  import opened SearchDto

  /** The pattern the wired publisher emits on. */
  const SearchPattern: string := "book.search"
  /** The pattern the legacy pass-through publisher emits on. */
  const LegacySearchPattern: string := "book.search.executed"
  const BrokerUnavailable: string := "broker unavailable"

  /** The search event of a request: a success carries the results count, a
      failure reports 0 and the error's message. */
  function SearchOutcomeEvent(op: Operation, query: string, resultsCount: int, elapsed: int, now: int, error: Option<string>): (e: SearchEvent)
    ensures e.operation == op && e.query == query && e.duration == elapsed
    ensures e.success <==> error.None?
    ensures e.error == error
    ensures e.resultsCount == (if error.None? then resultsCount else 0)
  {
    SearchEvent(op, now, query, if error.None? then resultsCount else 0, elapsed, error.None?, error)
  }

  /** One message handed to the broker client. */
  datatype Emission = Emission(pattern: string, payload: SearchEvent, delivered: bool)

  /** The broker client: every `emit` is recorded, delivered or not. */
  class EventChannel {
    var emits: seq<Emission>

    constructor ()
      ensures emits == []
    {
      emits := [];
    }

    /** `client.emit(pattern, payload)`; `brokerUp` says whether the broker takes it. */
    method Emit(pattern: string, payload: SearchEvent, brokerUp: bool) returns (o: Outcome)
      modifies this
      ensures emits == old(emits) + [Emission(pattern, payload, brokerUp)]
      ensures o == if brokerUp then Pass else Fail(Rejected(BrokerUnavailable))
    {
      emits := emits + [Emission(pattern, payload, brokerUp)];
      o := if brokerUp then Pass else Fail(Rejected(BrokerUnavailable));
    }
  }

  /** `{ ...event, timestamp: new Date() }`: the event with its timestamp replaced
      by the publish time and every other field kept. */
  function Stamped(event: SearchEvent, publishTime: int): (p: SearchEvent)
    ensures p.timestamp == publishTime
    ensures p.(timestamp := event.timestamp) == event
  {
    event.(timestamp := publishTime)
  }

  /** Stamping twice with the same time is stamping once, and stamping with the
      event's own time changes nothing. */
  lemma StampedIdempotent(event: SearchEvent, publishTime: int)
    ensures Stamped(Stamped(event, publishTime), publishTime) == Stamped(event, publishTime)
    ensures Stamped(event, event.timestamp) == event
  {
  }

  /** The broker's record after one `publishSearchEvent`. */
  function Published(emits: seq<Emission>, event: SearchEvent, publishTime: int, brokerUp: bool): seq<Emission> {
    emits + [Emission(SearchPattern, Stamped(event, publishTime), brokerUp)]
  }

  /** Each publish performs exactly one emit, on `book.search`, and keeps what was
      emitted before. */
  lemma PublishEmitsOnce(emits: seq<Emission>, event: SearchEvent, publishTime: int, brokerUp: bool)
    ensures var e := Published(emits, event, publishTime, brokerUp);
      && |e| == |emits| + 1
      && e[..|emits|] == emits
      && e[|emits|].pattern == SearchPattern
      && e[|emits|].payload == Stamped(event, publishTime)
  {
  }

  /** Whether the broker takes the message changes only its own delivery mark:
      the messages recorded are the same either way. */
  lemma PublishIgnoresBroker(emits: seq<Emission>, event: SearchEvent, publishTime: int)
    ensures var up := Published(emits, event, publishTime, true);
      var down := Published(emits, event, publishTime, false);
      && |up| == |down|
      && forall i :: 0 <= i < |up| ==> up[i].pattern == down[i].pattern && up[i].payload == down[i].payload
  {
  }

  /** The wired publisher. */
  class BooksEventsService {
    const channel: EventChannel

    constructor (channel: EventChannel)
      ensures this.channel == channel
    {
      this.channel := channel;
    }

    /** `publishSearchEvent(event)`: emits once and returns normally whether or not
        the broker took the message; a broker failure is only logged. */
    method PublishSearchEvent(event: SearchEvent, publishTime: int, brokerUp: bool)
      modifies channel
      ensures channel.emits == Published(old(channel.emits), event, publishTime, brokerUp)
    {
      // A failed emit is logged and swallowed.
      var _ := channel.Emit(SearchPattern, Stamped(event, publishTime), brokerUp);
    }
  }

  /** The legacy pass-through publisher: the event as given, on `book.search.executed`. */
  class LegacyBooksEventsService {
    const channel: EventChannel

    constructor (channel: EventChannel)
      ensures this.channel == channel
    {
      this.channel := channel;
    }

    /** `publishSearchEvent(event)`: returns the emit's observable; its failure never
        reaches the awaiting caller. */
    method PublishSearchEvent(event: SearchEvent, brokerUp: bool)
      modifies channel
      ensures channel.emits == old(channel.emits) + [Emission(LegacySearchPattern, event, brokerUp)]
    {
      var _ := channel.Emit(LegacySearchPattern, event, brokerUp);
    }
  }
}
