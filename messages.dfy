/** Message classification in the worker's message handler
    (`Worker._onMessage`, tracer/tracer.py:155-162).

    Messages are the engine's decoded JSON values. The handler routes on the
    message's `type`, then on the stanza's `from` and `name`, and for batches
    of execution-trace events computes the record count with Python 2's
    integer division. What the source only prints is returned here instead. */
module Messages {
  import opened Wrappers

  /** The part of JSON the handler can meet. */
  datatype Value =
    | Number(n: int)
    | Text(s: string)
    | Object(fields: map<string, Value>)
    | Array(items: seq<Value>)
    | Null

  /** Why the handler raises instead of routing: a missing key (KeyError), an
      index into something that is not an object, or a size that is not a number
      (both TypeError). */
  datatype HandlerError = MissingKey(key: string) | NotAnObject | NotANumber

  /** What the handler does with one message. */
  datatype Routed =
    | Unclassified(message: Value)        // any type other than 'send'
    | StanzaSeen(name: Value, source: Value) // a stanza other than a trace batch
    | TraceBatch(count: int)              // '+add' on /stalker/events
    | Raised(error: HandlerError)

  const RECORD_SIZE: nat := 16
  const STALKER_EVENTS: string := "/stalker/events"
  const INTERCEPTOR_FUNCTIONS: string := "/interceptor/functions"
  const PROCESS_MODULES: string := "/process/modules"
  const ADD: string := "+add"
  const SYNC: string := "+sync"

  /** `v[key]` for a JSON object. */
  function Field(v: Value, key: string): Result<Value, HandlerError> {
    match v
    case Object(fields) => if key in fields then Success(fields[key]) else Failure(MissingKey(key))
    case _ => Failure(NotAnObject)
  }

  /** Python 2's `a / b` on integers: the floor of the quotient. */
  function FloorDiv(a: int, b: int): (q: int)
    requires b > 0
    ensures b * q <= a < b * q + b
  {
    a / b
  }

  /** `_onMessage(message, data)`. The binary attachment `data` is not read. */
  function OnMessage(message: Value, data: Option<seq<bv8>>): (r: Routed)
    ensures r.Unclassified? <==> message.Object? && "type" in message.fields && message.fields["type"] != Text("send")
    ensures r.Unclassified? ==> r.message == message
    ensures r.TraceBatch? ==> BatchSize(message).Some?
    ensures r.StanzaSeen? ==>
      && SentStanza(message).Some? && SentStanza(message).value.Object?
      && var f := SentStanza(message).value.fields;
      && "name" in f && "from" in f
      && r.name == f["name"] && r.source == f["from"]
      && !(r.source == Text(STALKER_EVENTS) && r.name == Text(ADD))
    ensures SentStanza(message).Some? && SentStanza(message).value.Object? ==>
      var f := SentStanza(message).value.fields;
      "name" in f && "from" in f && !(f["from"] == Text(STALKER_EVENTS) && f["name"] == Text(ADD)) ==>
        r == StanzaSeen(f["name"], f["from"])
  {
    match Field(message, "type")
    case Failure(err) => Raised(err)
    case Success(kind) =>
      if kind != Text("send") then Unclassified(message)
      else match Field(message, "payload")
      case Failure(err) => Raised(err)
      case Success(stanza) =>
        match Field(stanza, "name")
        case Failure(err) => Raised(err)
        case Success(name) =>
          match Field(stanza, "from")
          case Failure(err) => Raised(err)
          case Success(source) =>
            if source == Text(STALKER_EVENTS) && name == Text(ADD) then
              match Field(stanza, "payload")
              case Failure(err) => Raised(err)
              case Success(body) =>
                match Field(body, "size")
                case Failure(err) => Raised(err)
                case Success(Number(size)) => TraceBatch(FloorDiv(size, RECORD_SIZE))
                case Success(_) => Raised(NotANumber)
            else StanzaSeen(name, source)
  }

  // ---------------------------------------------------------------------
  // What the routing means
  // ---------------------------------------------------------------------

  /** The stanza of a message whose type is 'send'. */
  function SentStanza(message: Value): Option<Value> {
    match message
    case Object(fields) =>
      if "type" in fields && fields["type"] == Text("send") && "payload" in fields
      then Some(fields["payload"]) else None
    case _ => None
  }

  /** The announced size of a well-formed execution-trace batch. */
  function BatchSize(message: Value): Option<int> {
    match SentStanza(message)
    case None => None
    case Some(stanza) =>
      match stanza
      case Object(f) =>
        if && "name" in f && f["name"] == Text(ADD)
           && "from" in f && f["from"] == Text(STALKER_EVENTS)
           && "payload" in f && f["payload"].Object?
           && "size" in f["payload"].fields && f["payload"].fields["size"].Number?
        then Some(f["payload"].fields["size"].n) else None
      case _ => None
  }

  /** Records are counted exactly for 'send' messages whose stanza is '+add'
      from /stalker/events with a numeric size, and the count is the size
      divided by the 16-byte record stride, rounded down. */
  lemma TraceBatchExactly(message: Value, data: Option<seq<bv8>>)
    ensures OnMessage(message, data).TraceBatch? <==> BatchSize(message).Some?
    ensures OnMessage(message, data).TraceBatch? ==>
      var size, count := BatchSize(message).value, OnMessage(message, data).count;
      16 * count <= size < 16 * count + 16
  {
  }

  /** The attachment plays no part in the routing. */
  lemma AttachmentIgnored(message: Value, d1: Option<seq<bv8>>, d2: Option<seq<bv8>>)
    ensures OnMessage(message, d1) == OnMessage(message, d2)
  {
  }

  // ---------------------------------------------------------------------
  // The stanzas the payload sends
  // ---------------------------------------------------------------------

  function Send(name: string, source: string, payload: Value): Value {
    Object(map["type" := Text("send"),
               "payload" := Object(map["name" := Text(name), "from" := Text(source), "payload" := payload])])
  }

  /** The module inventory stanza. */
  function ModulesStanza(items: seq<Value>): Value {
    Send(SYNC, PROCESS_MODULES, Object(map["items" := Array(items)]))
  }

  /** The stanza naming an intercepted read function. */
  function InterceptedStanza(functionName: string): Value {
    Send(ADD, INTERCEPTOR_FUNCTIONS,
         Object(map["items" := Array([Object(map["name" := Text(functionName)])])]))
  }

  /** The stanza announcing a batch of execution-trace events of `length` bytes. */
  function EventsStanza(length: int): Value {
    Send(ADD, STALKER_EVENTS, Object(map["size" := Number(length)]))
  }

  /** Each stanza the payload sends is routed by its source path. */
  lemma PayloadStanzasRouted(items: seq<Value>, functionName: string, length: int, data: Option<seq<bv8>>)
    ensures OnMessage(ModulesStanza(items), data) == StanzaSeen(Text(SYNC), Text(PROCESS_MODULES))
    ensures OnMessage(InterceptedStanza(functionName), data) == StanzaSeen(Text(ADD), Text(INTERCEPTOR_FUNCTIONS))
    ensures OnMessage(EventsStanza(length), data) == TraceBatch(length / 16)
  {
  }

  /** 160 bytes are 10 records; a 161-byte batch is also counted as 10, not
      refused. */
  lemma BatchCountExamples(data: Option<seq<bv8>>)
    ensures OnMessage(EventsStanza(160), data) == TraceBatch(10)
    ensures OnMessage(EventsStanza(161), data) == TraceBatch(10)
    ensures OnMessage(EventsStanza(-1), data) == TraceBatch(-1)
  {
  }
}
