/** The values that travel through the delivery pipeline: identifiers, messages,
    HTTP outcomes and the rows of the two result tables. */
module Domain {

  datatype Option<+T> = None | Some(value: T)

  /** A UUID is its 128-bit number; `MemberKeys` gives its canonical text. */
  type Uuid = u: int | 0 <= u < 0x1_0000_0000_0000_0000_0000_0000_0000_0000 witness 0

  datatype Pair = Pair(event: Uuid, endpoint: Uuid)

  /** One numbered delivery attempt of one pair: the unique key of the attempts
      table and of the retry store. */
  datatype Key = Key(pair: Pair, attempt: nat)

  /** A record of the pending topic. `Fanout` carries only an event id, `Targeted`
      is a retry of one pair, `Poison` is any record that cannot be parsed. */
  datatype Message =
    | Fanout(event: Uuid)
    | Targeted(key: Key)
    | Poison

  function EventOf(m: Message): Uuid
    requires !m.Poison?
  {
    if m.Fanout? then m.event else m.key.pair.event
  }

  /** The attempt number defaults to zero when the message carries none. */
  function AttemptOf(m: Message): nat {
    if m.Targeted? then m.key.attempt else 0
  }

  /** What a POST can end in. `Unreadable` is a response whose status was read
      before reading its body raised: it counts as a failure whatever its code. */
  datatype Outcome =
    | Response(code: nat)
    | Unreadable(code: nat)
    | TimedOut
    | TransportError

  datatype Status = Success | Failure | Timeout

  function StatusOf(o: Outcome): Status {
    match o
    case Response(code) => if 200 <= code < 300 then Success else Failure
    case Unreadable(_) => Failure
    case TimedOut => Timeout
    case TransportError => Failure
  }

  /** Client errors other than 429 are never retried. */
  predicate IsPermanent(o: Outcome) {
    (o.Response? || o.Unreadable?) && 400 <= o.code < 500 && o.code != 429
  }

  /** The branch taken after a failed attempt: dead-letter now, or retry later. */
  predicate GivesUp(o: Outcome, attempt: nat, max: nat) {
    IsPermanent(o) || attempt + 1 >= max
  }

  datatype Event = Event(eventType: string, idempotencyKey: string)

  datatype Endpoint = Endpoint(enabled: bool, eventTypes: set<string>)

  /** The filter of a fresh fan-out. */
  predicate Matches(endpoint: Endpoint, event: Event) {
    endpoint.enabled && event.eventType in endpoint.eventTypes
  }

  /** The most entries one poll of the retry store yields. */
  const POLL_BATCH := 100
}
