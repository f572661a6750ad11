/**
 * CommunicationService: the module's side of the local IPC channel to the
 * daemon. It greets the daemon with a "SYN" envelope on connect, swallows the
 * "ACK-SYN" answer, and hands every other inbound read upward unchanged.
 *
 * The socket is modelled by what the program does with it: `sent` is every
 * write (each followed by a flush), `forwarded` every messageReceived signal,
 * `log` every Logger record.
 */
module Communicator {
  import opened Wrappers
  import opened QtJson
  import opened JsonMessage

  /** The local server name the constructor connects to. */
  const ServerName := "RFIDMonitorDaemon"
  const HandshakeType := "SYN"
  const HandshakeAckType := "ACK-SYN"

  /** The enumerator type() reports (the core library's ServiceType is not part of this model). */
  datatype CoreServiceType = KCommunicator

  /** The Logger records this class writes; their text formatting is not modelled. */
  datatype LogRecord =
    | MessageSent(value: Bytes)                      // category "Communicator"
    | ConnectedToServer                              // category m_module, "ComunicatorModule"
    | DisconnectedFromServer                         // category "Communicator"
    | SocketError(error: int, description: string)   // category m_module

  /** The object sendMessage(QJsonObject, QString) builds before printing it. */
  function BuildEnvelope(data: JsonObject, messageType: string, now: DateTime, iso: IsoDate): (obj: JsonObject)
    ensures obj.Keys == {"type", "datetime", "data"}
    ensures obj["type"] == JString(messageType)
    ensures obj["datetime"] == JString(iso.format(now))
    ensures obj["data"] == JObject(data)
  {
    map[]["type" := JString(messageType)]
         ["datetime" := JString(iso.format(now))]
         ["data" := JObject(data)]
  }

  /** The built envelope is exactly what NodeJSMessage::write puts in an empty object. */
  lemma BuildEnvelopeIsWrite(data: JsonObject, messageType: string, now: DateTime, iso: IsoDate)
    ensures BuildEnvelope(data, messageType, now, iso) == WriteMessage(Message(messageType, now, data), map[], iso)
  {
  }

  /** Read back as a message, a built envelope carries exactly the type and data it was built from. */
  lemma BuiltEnvelopeReads(data: JsonObject, messageType: string, now: DateTime, iso: IsoDate)
    ensures ReadMessage(BuildEnvelope(data, messageType, now, iso), iso).messageType == messageType
    ensures ReadMessage(BuildEnvelope(data, messageType, now, iso), iso).jsonData == data
  {
    BuildEnvelopeIsWrite(data, messageType, now, iso);
    ReadAfterWrite(Message(messageType, now, data), map[], iso);
  }

  /** The object ipcConnected sends: type "SYN", empty data. */
  function HandshakeEnvelope(now: DateTime, iso: IsoDate): (obj: JsonObject)
    ensures ReadMessage(obj, iso).messageType == HandshakeType
    ensures ReadMessage(obj, iso).jsonData == map[]
    ensures obj.Keys == {"type", "datetime", "data"}
  {
    BuiltEnvelopeReads(map[], HandshakeType, now, iso);
    BuildEnvelope(map[], HandshakeType, now, iso)
  }

  /** The bytes sendMessage(QJsonObject, QString) writes. */
  function EncodeEnvelope(doc: JsonDocument, iso: IsoDate, data: JsonObject, messageType: string, now: DateTime): Bytes
  {
    doc.toJson(BuildEnvelope(data, messageType, now, iso))
  }

  /** How ipcReadyRead interprets a read: parse, take the root object, read it as a message. */
  function Decode(doc: JsonDocument, iso: IsoDate, bytes: Bytes): Message
  {
    ReadMessage(DocumentObject(doc, bytes), iso)
  }

  /**
   * The envelope round trip: when the codec gives this envelope back, the sent
   * bytes decode to the type and data the envelope was built from.
   */
  lemma EnvelopeDecodes(doc: JsonDocument, iso: IsoDate, data: JsonObject, messageType: string, now: DateTime)
    requires RoundTripsOn(doc, BuildEnvelope(data, messageType, now, iso))
    ensures Decode(doc, iso, EncodeEnvelope(doc, iso, data, messageType, now)).messageType == messageType
    ensures Decode(doc, iso, EncodeEnvelope(doc, iso, data, messageType, now)).jsonData == data
  {
    DocumentRoundTrip(doc, BuildEnvelope(data, messageType, now, iso));
    BuiltEnvelopeReads(data, messageType, now, iso);
  }

  /** The one message type ipcReadyRead consumes itself. */
  predicate IsHandshakeAck(doc: JsonDocument, iso: IsoDate, bytes: Bytes)
  {
    Decode(doc, iso, bytes).messageType == HandshakeAckType
  }

  /** Bytes that are not JSON read as type "", so they are forwarded rather than consumed. */
  lemma UnparseableIsNotAck(doc: JsonDocument, iso: IsoDate, bytes: Bytes)
    requires doc.fromJson(bytes).None?
    ensures Decode(doc, iso, bytes).messageType == ""
    ensures !IsHandshakeAck(doc, iso, bytes)
  {
  }

  /** A root object without a string "type" is likewise never taken for the acknowledgement. */
  lemma MissingTypeIsNotAck(doc: JsonDocument, iso: IsoDate, bytes: Bytes)
    requires !HasString(DocumentObject(doc, bytes), "type")
    ensures !IsHandshakeAck(doc, iso, bytes)
  {
  }

  /** An encoded envelope is consumed exactly when it was built with type "ACK-SYN". */
  lemma EnvelopeIsAckIff(doc: JsonDocument, iso: IsoDate, data: JsonObject, messageType: string, now: DateTime)
    requires RoundTripsOn(doc, BuildEnvelope(data, messageType, now, iso))
    ensures IsHandshakeAck(doc, iso, EncodeEnvelope(doc, iso, data, messageType, now)) <==> messageType == HandshakeAckType
  {
    EnvelopeDecodes(doc, iso, data, messageType, now);
  }

  /** What an observer of the service sees: socket writes, upward signals, log records. */
  datatype Observed = Observed(sent: seq<Bytes>, forwarded: seq<Bytes>, log: seq<LogRecord>)

  /** The calls the service receives: its two send operations and its four socket slots. */
  datatype Event =
    | SendRaw(value: Bytes)
    | SendJson(data: JsonObject, messageType: string, now: DateTime)
    | Connected(now: DateTime)
    | Disconnected
    | ReadyRead(bytes: Bytes)
    | SocketFailed(error: int, description: string)

  /** The effect of one call; every handler only ever appends to what has been observed. */
  function Step(doc: JsonDocument, iso: IsoDate, o: Observed, e: Event): (o': Observed)
    ensures o.sent <= o'.sent && o.forwarded <= o'.forwarded && o.log <= o'.log
    ensures |o'.sent| + |o'.forwarded| <= |o.sent| + |o.forwarded| + 1
  {
    match e
    case SendRaw(value) =>
      o.(sent := o.sent + [value], log := o.log + [MessageSent(value)])
    case SendJson(data, messageType, now) =>
      o.(sent := o.sent + [EncodeEnvelope(doc, iso, data, messageType, now)])
    case Connected(now) =>
      o.(sent := o.sent + [doc.toJson(HandshakeEnvelope(now, iso))])
    case Disconnected =>
      o.(log := o.log + [DisconnectedFromServer])
    case ReadyRead(bytes) =>
      if IsHandshakeAck(doc, iso, bytes) then o.(log := o.log + [ConnectedToServer])
      else o.(forwarded := o.forwarded + [bytes])
    case SocketFailed(error, description) =>
      o.(log := o.log + [SocketError(error, description)])
  }

  /** The effect of a sequence of calls delivered one after another by the event loop. */
  function Run(doc: JsonDocument, iso: IsoDate, o: Observed, events: seq<Event>): Observed
    decreases events
  {
    if events == [] then o else Run(doc, iso, Step(doc, iso, o, events[0]), events[1..])
  }

  /** Reference: the bytes written for each call, in order. */
  function SentBy(doc: JsonDocument, iso: IsoDate, events: seq<Event>): seq<Bytes>
  {
    if events == [] then []
    else
      var written :=
        match events[0]
        case SendRaw(value) => [value]
        case SendJson(data, messageType, now) => [EncodeEnvelope(doc, iso, data, messageType, now)]
        case Connected(now) => [doc.toJson(HandshakeEnvelope(now, iso))]
        case _ => [];
      written + SentBy(doc, iso, events[1..])
  }

  /** Reference: the inbound reads that are not the handshake acknowledgement, in order. */
  function ForwardedBy(doc: JsonDocument, iso: IsoDate, events: seq<Event>): seq<Bytes>
  {
    if events == [] then []
    else if events[0].ReadyRead? && !IsHandshakeAck(doc, iso, events[0].bytes) then
      [events[0].bytes] + ForwardedBy(doc, iso, events[1..])
    else ForwardedBy(doc, iso, events[1..])
  }

  /** Number of connect notifications in a sequence of calls. */
  function Connects(events: seq<Event>): nat
  {
    if events == [] then 0 else (if events[0].Connected? then 1 else 0) + Connects(events[1..])
  }

  /** Over any sequence of calls, the socket receives exactly the reference writes, in order. */
  lemma {:induction false} RunSends(doc: JsonDocument, iso: IsoDate, o: Observed, events: seq<Event>)
    ensures Run(doc, iso, o, events).sent == o.sent + SentBy(doc, iso, events)
    decreases events
  {
    if events != [] {
      RunSends(doc, iso, Step(doc, iso, o, events[0]), events[1..]);
    }
  }

  /**
   * Over any sequence of calls, every inbound read other than "ACK-SYN" is
   * forwarded exactly once, as the very bytes read, and in arrival order.
   */
  lemma {:induction false} RunForwards(doc: JsonDocument, iso: IsoDate, o: Observed, events: seq<Event>)
    ensures Run(doc, iso, o, events).forwarded == o.forwarded + ForwardedBy(doc, iso, events)
    decreases events
  {
    if events != [] {
      RunForwards(doc, iso, Step(doc, iso, o, events[0]), events[1..]);
    }
  }

  /** True when a sequence of calls holds only the socket's own notifications, no sends. */
  predicate NoSends(events: seq<Event>)
  {
    forall i :: 0 <= i < |events| ==> !events[i].SendRaw? && !events[i].SendJson?
  }

  /** Reference: the printed "SYN" envelope of each connect, stamped with its own time, in order. */
  function HandshakesOf(doc: JsonDocument, iso: IsoDate, events: seq<Event>): seq<Bytes>
  {
    if events == [] then []
    else if events[0].Connected? then
      [doc.toJson(HandshakeEnvelope(events[0].now, iso))] + HandshakesOf(doc, iso, events[1..])
    else HandshakesOf(doc, iso, events[1..])
  }

  /** Writes of a notification-only sequence: exactly the handshakes, one per connect, in order. */
  lemma {:induction false} SentByHandshakesOnly(doc: JsonDocument, iso: IsoDate, events: seq<Event>)
    requires NoSends(events)
    ensures SentBy(doc, iso, events) == HandshakesOf(doc, iso, events)
    ensures |HandshakesOf(doc, iso, events)| == Connects(events)
  {
    if events != [] {
      SentByHandshakesOnly(doc, iso, events[1..]);
    }
  }

  /**
   * When nothing but the socket's own notifications arrives, the service writes
   * exactly one message per connect, in order: the k-th new write is the
   * printed "SYN" envelope with empty data stamped with the k-th connect's time.
   */
  lemma OnlyHandshakesSent(doc: JsonDocument, iso: IsoDate, o: Observed, events: seq<Event>)
    requires NoSends(events)
    ensures Run(doc, iso, o, events).sent == o.sent + HandshakesOf(doc, iso, events)
    ensures |Run(doc, iso, o, events).sent| == |o.sent| + Connects(events)
  {
    RunSends(doc, iso, o, events);
    SentByHandshakesOnly(doc, iso, events);
  }

  /** The communication service object. */
  class CommunicationService {
    const serverName: string
    const doc: JsonDocument
    const iso: IsoDate
    var sent: seq<Bytes>
    var forwarded: seq<Bytes>
    var log: seq<LogRecord>

    function Observation(): Observed
      reads this
    {
      Observed(sent, forwarded, log)
    }

    /** Nothing is written, forwarded or logged until the socket reports something. */
    constructor (doc: JsonDocument, iso: IsoDate)
      ensures this.doc == doc && this.iso == iso
      ensures serverName == ServerName
      ensures Observation() == Observed([], [], [])
    {
      serverName := ServerName;
      this.doc := doc;
      this.iso := iso;
      sent, forwarded, log := [], [], [];
    }

    function ServiceName(): (name: string)
      ensures name == "communication.service"
    {
      "communication.service"
    }

    function Type(): CoreServiceType
    {
      KCommunicator
    }

    /** sendMessage(QByteArray): writes the bytes unchanged, flushes and logs them. */
    method SendMessage(value: Bytes)
      modifies this
      ensures Observation() == Step(doc, iso, old(Observation()), SendRaw(value))
      ensures sent == old(sent) + [value] && forwarded == old(forwarded)
    {
      sent := sent + [value];
      log := log + [MessageSent(value)];
    }

    /** sendMessage(QJsonObject, QString): builds the envelope at time `now` and writes it. */
    method SendJsonMessage(data: JsonObject, messageType: string, now: DateTime)
      modifies this
      ensures Observation() == Step(doc, iso, old(Observation()), SendJson(data, messageType, now))
      ensures sent == old(sent) + [EncodeEnvelope(doc, iso, data, messageType, now)]
      ensures forwarded == old(forwarded) && log == old(log)
    {
      var obj: JsonObject := map[];
      obj := obj["type" := JString(messageType)];
      obj := obj["datetime" := JString(iso.format(now))];
      obj := obj["data" := JObject(data)];
      sent := sent + [doc.toJson(obj)];
    }

    /** ipcConnected: exactly one write, the "SYN" envelope with empty data. */
    method IpcConnected(now: DateTime)
      modifies this
      ensures Observation() == Step(doc, iso, old(Observation()), Connected(now))
      ensures sent == old(sent) + [doc.toJson(HandshakeEnvelope(now, iso))]
      ensures RoundTripsOn(doc, HandshakeEnvelope(now, iso)) ==>
        Decode(doc, iso, sent[|sent| - 1]).messageType == HandshakeType &&
        Decode(doc, iso, sent[|sent| - 1]).jsonData == map[]
      ensures forwarded == old(forwarded) && log == old(log)
    {
      SendJsonMessage(map[], HandshakeType, now);
      if RoundTripsOn(doc, HandshakeEnvelope(now, iso)) {
        EnvelopeDecodes(doc, iso, map[], HandshakeType, now);
      }
    }

    /** ipcDisconnected: only a log record. */
    method IpcDisconnected()
      modifies this
      ensures Observation() == Step(doc, iso, old(Observation()), Disconnected)
      ensures sent == old(sent) && forwarded == old(forwarded)
    {
      log := log + [DisconnectedFromServer];
    }

    /**
     * ipcReadyRead with `bytes` as everything available: the acknowledgement is
     * logged, anything else (unparseable bytes included) is forwarded as read.
     */
    method IpcReadyRead(bytes: Bytes)
      modifies this
      ensures Observation() == Step(doc, iso, old(Observation()), ReadyRead(bytes))
      ensures sent == old(sent)
      ensures IsHandshakeAck(doc, iso, bytes) ==> forwarded == old(forwarded)
      ensures !IsHandshakeAck(doc, iso, bytes) ==> forwarded == old(forwarded) + [bytes] && log == old(log)
    {
      var nodeMessage := new NodeJSMessage();
      nodeMessage.Read(DocumentObject(doc, bytes), iso);
      var messageType := nodeMessage.Type();
      if messageType == HandshakeAckType {
        log := log + [ConnectedToServer];
      } else {
        forwarded := forwarded + [bytes];
      }
    }

    /** ipcHandleError: only a log record of the socket's error code and text. */
    method IpcHandleError(error: int, description: string)
      modifies this
      ensures Observation() == Step(doc, iso, old(Observation()), SocketFailed(error, description))
      ensures sent == old(sent) && forwarded == old(forwarded)
    {
      log := log + [SocketError(error, description)];
    }
  }
}
