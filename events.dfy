/**
 * The values that flow through the event engine: messages, events, the
 * canonical tuple form kept in history containers, handlers with their
 * label filters, the jobs waiting in the job queue and the registered
 * patterns.
 */
module Events {
  import opened Wrappers

  /** An opaque message payload or argument value. */
  datatype Value = VNone | VInt(i: int) | VStr(s: string) | VTuple(items: seq<Value>)

  /** Process ids are opaque comparable handles issued by the channel. */
  type ProcessId = nat

  type Label = string

  /** Variable bindings produced by a successful pattern match. */
  type Bindings = map<string, Value>

  datatype EventKind = SentEvent | ReceivedEvent

  datatype Event = Event(kind: EventKind, message: Value, timestamp: int,
                         source: Option<ProcessId>, destination: Option<ProcessId>)

  /** The form `event.to_tuple()` gives to a history container. */
  datatype EventTuple = EventTuple(kind: EventKind, message: Value, timestamp: int,
                                   source: Option<ProcessId>, destination: Option<ProcessId>)

  function ToTuple(e: Event): EventTuple {
    EventTuple(e.kind, e.message, e.timestamp, e.source, e.destination)
  }

  /**
   * A handler callable, identified by `id`, with its optional label
   * inclusion set (`_labels`) and exclusion set (`_notlabels`).
   */
  datatype Handler = Handler(id: nat, labels: Option<set<Label>>, notlabels: Option<set<Label>>)

  /** A pending handler invocation: the `(handler, bindings)` pair of the job queue. */
  datatype Job = Job(handler: Handler, bindings: Bindings)

  /**
   * `record_history`: `None`, `True` (append the raw tuple), or any other
   * value, which is called with the container and the tuple; the call is
   * modelled as a function from the old container to the new one.
   */
  datatype HistoryPolicy =
    | NoHistory
    | AppendRaw
    | Custom(update: (seq<EventTuple>, EventTuple) -> seq<EventTuple>)

  /** A registered pattern: the name of its history container, its policy and its handlers. */
  datatype Pattern = Pattern(name: string, record: HistoryPolicy, handlers: seq<Handler>)
}
