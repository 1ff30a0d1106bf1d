/**
 * The inbound step of the SMPP transceiver transport: the raw keyword
 * arguments of a received short message (as handed over by the short-message
 * processor) become the platform's canonical message record, which the
 * transport then publishes.
 *
 * The keyword arguments are a dictionary from names to values; a value is a
 * piece of text or Python's `None`.  The message id is normally a fresh
 * `uuid4().hex`; here it is a parameter.
 */
module InboundMessage {
  import opened Wrappers

  /** A keyword-argument value: text, or `None`. */
  datatype Value = Null | Text(s: string)

  /** The three USSD session events of the canonical message (`SESSION_NEW`, `SESSION_RESUME`, `SESSION_CLOSE`). */
  datatype SessionEvent = New | Resume | Close

  /**
   * The record handed to `publish_message`.  `session_event` is `None` when the
   * dictionary has no `session_event` key at all.
   */
  datatype Message = Message(
    message_id: string,
    to_addr: Value,
    from_addr: Value,
    content: Value,
    transport_type: Value,
    session_event: Option<SessionEvent>,
    transport_metadata: map<string, Value>)

  /**
   * What the Python code raises: a `KeyError` carrying the missing key, or a
   * `NameError` carrying the unbound name.
   */
  datatype Error = KeyError(key: Value) | NameError(name: string)

  type Kwargs = map<string, Value>

  /** The session indicators the USSD table accepts. */
  const KnownIndicators: set<Value> := {Text("new"), Text("continue"), Text("close")}

  /** `kwargs.get(key, default)`: the value even when it is `None`, the default only when the key is absent. */
  function Get(kwargs: Kwargs, key: string, default: Value): (v: Value)
    ensures key in kwargs ==> v == kwargs[key]
    ensures key !in kwargs ==> v == default
  {
    if key in kwargs then kwargs[key] else default
  }

  /** `kwargs.get('message_type', 'sms')`. */
  function MessageType(kwargs: Kwargs): Value
  {
    Get(kwargs, "message_type", Text("sms"))
  }

  /** The indicator the protocol uses for each session event; the inverse of `SessionEventOf`. */
  function Indicator(e: SessionEvent): (v: Value)
    ensures v in KnownIndicators
  {
    match e
    case New => Text("new")
    case Resume => Text("continue")
    case Close => Text("close")
  }

  /** The USSD table: `new` -> SESSION_NEW, `continue` -> SESSION_RESUME, `close` -> SESSION_CLOSE. */
  function SessionEventOf(indicator: Value): (e: Option<SessionEvent>)
    ensures e.Some? <==> indicator in KnownIndicators
    ensures e.Some? ==> Indicator(e.value) == indicator
  {
    if indicator == Text("new") then Some(New)
    else if indicator == Text("continue") then Some(Resume)
    else if indicator == Text("close") then Some(Close)
    else None
  }

  /**
   * The dictionary built before the USSD branch: the fresh id, the three renamed
   * required fields (each `kwargs[...]` raises `KeyError` when absent, in this
   * order) and the transport type, with empty transport metadata.
   */
  function BaseMessage(kwargs: Kwargs, freshId: string): (r: Result<Message, Error>)
  {
    if "destination_addr" !in kwargs then Failure(KeyError(Text("destination_addr")))
    else if "source_addr" !in kwargs then Failure(KeyError(Text("source_addr")))
    else if "short_message" !in kwargs then Failure(KeyError(Text("short_message")))
    else Success(Message(freshId, kwargs["destination_addr"], kwargs["source_addr"],
                         kwargs["short_message"], MessageType(kwargs), None, map[]))
  }

  /** The inbound messages the translation accepts. */
  predicate Accepted(kwargs: Kwargs)
  {
    && "destination_addr" in kwargs
    && "source_addr" in kwargs
    && "short_message" in kwargs
    && (MessageType(kwargs) == Text("ussd") ==>
          "session_event" in kwargs && kwargs["session_event"] in KnownIndicators)
  }

  /**
   * `handle_raw_inbound_message` with the evidently intended USSD table: the
   * message that would be published, or the error that prevents publishing.
   */
  function Translate(kwargs: Kwargs, freshId: string): (r: Result<Message, Error>)
    // it succeeds exactly on the accepted inputs
    ensures r.Success? <==> Accepted(kwargs)
    // the required fields are checked in source order
    ensures "destination_addr" !in kwargs ==> r == Failure(KeyError(Text("destination_addr")))
    ensures "destination_addr" in kwargs && "source_addr" !in kwargs ==>
              r == Failure(KeyError(Text("source_addr")))
    ensures "destination_addr" in kwargs && "source_addr" in kwargs && "short_message" !in kwargs ==>
              r == Failure(KeyError(Text("short_message")))
    // a USSD message with a missing or unknown indicator fails on the table lookup
    ensures !Accepted(kwargs) && "destination_addr" in kwargs && "source_addr" in kwargs
              && "short_message" in kwargs ==>
              MessageType(kwargs) == Text("ussd") &&
              r == Failure(KeyError(if "session_event" in kwargs then kwargs["session_event"]
                                    else Text("session_event")))
    // field renaming, default transport type and the caller-supplied id
    ensures r.Success? ==>
              && r.value.message_id == freshId
              && r.value.to_addr == kwargs["destination_addr"]
              && r.value.from_addr == kwargs["source_addr"]
              && r.value.content == kwargs["short_message"]
              && r.value.transport_type == (if "message_type" in kwargs then kwargs["message_type"]
                                            else Text("sms"))
    // non-USSD: no session event, empty metadata
    ensures r.Success? && r.value.transport_type != Text("ussd") ==>
              r.value.session_event.None? && r.value.transport_metadata == map[]
    // USSD: the event named by the indicator, and exactly the session_info metadata key
    ensures r.Success? && r.value.transport_type == Text("ussd") ==>
              && r.value.session_event.Some?
              && Indicator(r.value.session_event.value) == kwargs["session_event"]
              && r.value.transport_metadata.Keys == {"session_info"}
              && r.value.transport_metadata["session_info"] ==
                   (if "session_info" in kwargs then kwargs["session_info"] else Null)
  {
    match BaseMessage(kwargs, freshId)
    case Failure(err) => Failure(err)
    case Success(message) =>
      if message.transport_type != Text("ussd") then Success(message)
      else if "session_event" !in kwargs then Failure(KeyError(Text("session_event")))
      else
        match SessionEventOf(kwargs["session_event"])
        case None => Failure(KeyError(kwargs["session_event"]))
        case Some(event) =>
          Success(message.(
            session_event := Some(event),
            transport_metadata := message.transport_metadata["session_info" := Get(kwargs, "session_info", Null)]))
  }

  /** The message id is the supplied one and nothing else: no input field influences it. */
  lemma MessageIdIsFreshId(k1: Kwargs, k2: Kwargs, freshId: string)
    requires Translate(k1, freshId).Success? && Translate(k2, freshId).Success?
    ensures Translate(k1, freshId).value.message_id == Translate(k2, freshId).value.message_id == freshId
  {
  }

  /** Changing the supplied id changes only the message id, never whether or what is published otherwise. */
  lemma FreshIdOnlyAffectsMessageId(kwargs: Kwargs, id1: string, id2: string)
    ensures Translate(kwargs, id1).Success? == Translate(kwargs, id2).Success?
    ensures Translate(kwargs, id1).Success? ==>
              Translate(kwargs, id2).value == Translate(kwargs, id1).value.(message_id := id2)
    ensures Translate(kwargs, id1).Failure? ==> Translate(kwargs, id1) == Translate(kwargs, id2)
  {
  }

  /** The USSD table is a bijection between the three indicators and the three events. */
  lemma SessionEventTableBijective(a: Value, b: Value, e: SessionEvent)
    ensures SessionEventOf(Indicator(e)) == Some(e)
    ensures SessionEventOf(a).Some? && SessionEventOf(a) == SessionEventOf(b) ==> a == b
  {
  }

  /** A message without a `message_type` is an SMS and is published whenever its three fields are present. */
  lemma DefaultIsSms(kwargs: Kwargs, freshId: string)
    requires "message_type" !in kwargs
    requires "destination_addr" in kwargs && "source_addr" in kwargs && "short_message" in kwargs
    ensures Translate(kwargs, freshId).Success?
    ensures Translate(kwargs, freshId).value.transport_type == Text("sms")
    ensures Translate(kwargs, freshId).value.session_event.None?
  {
  }

  // ---------------------------------------------------------------------------
  // The USSD branch as written.  The table's values are the class attributes
  // `TransportUserMessage.SESSION_*`, but `TransportUserMessage` is never
  // imported by the module, and Python evaluates the dictionary display (and
  // with it the unbound name) before the lookup.
  // ---------------------------------------------------------------------------

  /**
   * `handle_raw_inbound_message` as written: a message missing a required argument
   * fails on that argument as intended; every USSD message that has the three
   * required arguments raises `NameError`.
   */
  function TranslateAsWritten(kwargs: Kwargs, freshId: string): (r: Result<Message, Error>)
    ensures MessageType(kwargs) != Text("ussd") ==> r == Translate(kwargs, freshId)
    ensures MessageType(kwargs) == Text("ussd") ==> r.Failure?
    ensures (MessageType(kwargs) == Text("ussd") && "destination_addr" in kwargs && "source_addr" in kwargs
             && "short_message" in kwargs) ==>
              r == Failure(NameError("TransportUserMessage"))
    ensures !("destination_addr" in kwargs && "source_addr" in kwargs && "short_message" in kwargs) ==>
              r == Translate(kwargs, freshId)
  {
    match BaseMessage(kwargs, freshId)
    case Failure(err) => Failure(err)
    case Success(message) =>
      if message.transport_type != Text("ussd") then Success(message)
      else Failure(NameError("TransportUserMessage"))
  }

  /**
   * The discrepancy: a well-formed USSD message opening a session is published by
   * the intended translation but dropped with `NameError` by the code as written.
   */
  lemma UssdNameErrorAsWritten(freshId: string)
    ensures var kwargs := map["destination_addr" := Text("*120#"), "source_addr" := Text("27831234567"),
                              "short_message" := Text(""), "message_type" := Text("ussd"),
                              "session_event" := Text("new")];
            && TranslateAsWritten(kwargs, freshId) == Failure(NameError("TransportUserMessage"))
            && Translate(kwargs, freshId).Success?
            && Translate(kwargs, freshId).value.session_event == Some(New)
  {
  }
}
