# RFIDMonitor module coordination and IPC messaging, modelled in Dafny

This project models the three small sequential pieces that coordinate the RFIDMonitor
process's modules and talk to the external daemon:

- **The function registry of `Service`** (`MutlthreadTest/service.h`): a `QMap` from a name to
  a `boost::any`. `registerFunction` inserts or overwrites. `getFunction<R, Args...>` looks the
  name up and casts the value to `std::function<R(Args...)>`; it throws `boost::bad_any_cast`
  when the stored type differs and also when the name is absent (`QMap::value` then yields an
  empty `any`). Module `ServiceRegistry`, file `service.dfy`.
- **The envelope `json::NodeJSMessage`** (`RFIDMonitor/CoreLibrary/json/nodejsmessage.cpp`):
  three fields `type`, `datetime` and `data`, written into a JSON object under those keys and
  read back with lenient defaults (`""` for a missing or non-string type, `{}` for missing or
  non-object data). Module `JsonMessage`, file `nodejsmessage.dfy`.
- **`CommunicationService`** (`RFIDMonitor/CommunicatorModule/communicationservice.cpp`): on
  connect it writes a `"SYN"` envelope with empty data; on every read it decodes all available
  bytes as one envelope, consumes an `"ACK-SYN"` with a log record, and re-emits anything else
  upward as the original bytes. Module `Communicator`, file `communicationservice.dfy`.

Supporting modules: `Wrappers` (`Option`, `Result`) and `QtJson` (JSON values as a datatype,
the lenient `QJsonValue` accessors, and `QJsonDocument::fromJson(...).object()`).

Design of the model:

- Objects whose fields the source updates in place are classes: `Service` (field `serviceMap`,
  plus a ghost history of registrations that `Valid()` ties to the map),
  `NodeJSMessage` (three fields), `CommunicationService` (fields `sent`, `forwarded`, `log`
  standing for socket writes, `messageReceived` signals and Logger records).
- Each class method is proved against a specification function: `Insert`/`Lookup` for the
  registry, `ReadMessage`/`WriteMessage` for the envelope, `Step` for the service's handlers.
  The properties are proved about those functions. `Run` folds `Step` over a sequence of calls,
  from the first call to the last. `RunForwards` equates its forwarded messages with
  `ForwardedBy`, a filter of the inbound reads. `RunSends` equates its writes with `SentBy`,
  a per-call listing of what each call writes (it follows the same case split as `Step`).
  `OnlyHandshakesSent` builds on `RunSends`: when only socket notifications arrive, `Run`
  writes exactly `HandshakesOf` the calls, a filter-and-map reference that lists one `SYN`
  envelope per connect, each stamped with that connect's own time, in order.
- JSON text printing and parsing are Qt's, not this program's. They enter as a parameter
  `JsonDocument(toJson, fromJson)`. Byte-level properties that need "parsing what was printed
  gives it back" take `RoundTripsOn(doc, o)` as a hypothesis, for the one object `o` concerned
  (never for all objects at once). The same properties are also proved without any hypothesis
  at the object level (`BuiltEnvelopeReads`, `HandshakeEnvelope`). Bytes that do not parse give
  the empty object, as `QJsonDocument::fromJson(...).object()` does.
- ISO-8601 date formatting and parsing enter the same way, as `IsoDate(format, parse)`. No date
  round trip is claimed, because Qt's ISO format drops milliseconds.

Behaviour of the code that a reader might expect to be otherwise:

- Inbound bytes that do not parse are **forwarded**, not dropped. `fromJson` yields an empty
  object, so the type reads as `""`, which is not `"ACK-SYN"` (`UnparseableIsNotAck`).
- A missing `type` key is not an error. It reads as `""` and the message is forwarded
  (`MissingTypeIsNotAck`).
- The code keeps no connection state (no Connecting/AwaitingHandshakeAck/Ready/Failed). The
  acknowledgement is only logged, and disconnects and socket errors are only logged.
- The registry has no categories and no default per category. Its one error, `bad_any_cast`,
  covers both an absent name and a signature mismatch.

## Model

| member | source | states |
|---|---|---|
| `ServiceRegistry.ServiceTypeValue` | MutlthreadTest/service.h:10-17 | enumerator values lie in 1..6 and `KReadingService` is the one with value 0x1 |
| `ServiceRegistry.ServiceTypeValuesDistinct` | MutlthreadTest/service.h:10-17 | distinct enumerators have distinct values |
| `ServiceRegistry.AnyCast` | MutlthreadTest/service.h:53 | `any_cast` succeeds iff the any is non-empty and holds exactly the target type, and then yields the held value |
| `ServiceRegistry.Insert` | MutlthreadTest/service.h:36 | `QMap::insert`: the key maps to the new value, other keys keep theirs, the size grows by one for a new key and stays the same for an existing one |
| `ServiceRegistry.Lookup` | MutlthreadTest/service.h:49-55 | `getFunction` succeeds iff the key holds a `std::function` of exactly the asked signature, returning it; an absent key throws `bad_any_cast` |
| `ServiceRegistry.GetAfterRegister` | MutlthreadTest/service.h:34-55 | after registering `f` under a key, `getFunction` at `f`'s signature returns `f` |
| `ServiceRegistry.GetWithOtherSignatureFails` | MutlthreadTest/service.h:49-55 | `getFunction` at a signature other than the stored one throws `bad_any_cast` |
| `ServiceRegistry.RegisteredKeys` | MutlthreadTest/service.h:34-37 | after any sequence of registrations the map's keys are exactly the names ever registered |
| `ServiceRegistry.LastRegistrationWins` | MutlthreadTest/service.h:34-37 | after any sequence of registrations a name maps to the value of its last registration |
| `ServiceRegistry.NeverRegisteredFails` | MutlthreadTest/service.h:52-53 | a name never registered is absent and `getFunction` on it throws `bad_any_cast` |
| `ServiceRegistry.Service.constructor` | MutlthreadTest/service.h:58 | a new service has an empty function map |
| `ServiceRegistry.Service.RegisterFunction` | MutlthreadTest/service.h:34-37 | the map becomes `Insert` of the old map; size unchanged when overwriting, one more for a new key; the map stays the result of all registrations so far |
| `ServiceRegistry.Service.GetFunction` | MutlthreadTest/service.h:49-55 | returns the lookup-and-cast result, succeeding iff the stored value is a `std::function` of that signature; on a valid object this is the lookup in the map built by all registrations so far, so `LastRegistrationWins` and `NeverRegisteredFails` apply to it; modifies nothing |
| `QtJson.DocumentObject` | RFIDMonitor/CommunicatorModule/communicationservice.cpp:103 | bytes that do not parse, or whose root is not an object, give the empty object; otherwise the root object |
| `QtJson.DocumentRoundTrip` | RFIDMonitor/CommunicatorModule/communicationservice.cpp:83 | when the codec round-trips the one object `o`, the object of `o`'s printed document is `o` |
| `JsonMessage.ReadMessage` | RFIDMonitor/CoreLibrary/json/nodejsmessage.cpp:13-18 | each field comes from the object alone: a string `type` or `""`, an object `data` or `{}`, the parsed `datetime` text or the parse of `""` |
| `JsonMessage.WriteMessage` | RFIDMonitor/CoreLibrary/json/nodejsmessage.cpp:20-25 | sets exactly the keys `type`, `datetime`, `data` to the fields' values and leaves every other key untouched |
| `JsonMessage.ReadAfterWrite` | RFIDMonitor/CoreLibrary/json/nodejsmessage.cpp:13-25 | reading what was written gives back the same type and data; the date only as far as the ISO text keeps it |
| `JsonMessage.ReadIgnoresOtherKeys` | RFIDMonitor/CoreLibrary/json/nodejsmessage.cpp:13-18 | keys other than the three envelope keys do not affect what is read |
| `JsonMessage.NodeJSMessage.constructor` | RFIDMonitor/CoreLibrary/json/nodejsmessage.cpp:9-11 | a new message has an empty type, a null date-time and empty data |
| `JsonMessage.NodeJSMessage.Read` | RFIDMonitor/CoreLibrary/json/nodejsmessage.cpp:13-18 | the new fields are `ReadMessage` of the object, whatever they were before |
| `JsonMessage.NodeJSMessage.Write` | RFIDMonitor/CoreLibrary/json/nodejsmessage.cpp:20-25 | the caller's object becomes `WriteMessage` of it, from which the message's type and data read back |
| `JsonMessage.NodeJSMessage.SetType` | RFIDMonitor/CoreLibrary/json/nodejsmessage.cpp:27-35 | the getter then returns the value set; the other two fields are unchanged |
| `JsonMessage.NodeJSMessage.SetJsonData` | RFIDMonitor/CoreLibrary/json/nodejsmessage.cpp:36-44 | the getter then returns the value set; the other two fields are unchanged |
| `JsonMessage.NodeJSMessage.SetDateTime` | RFIDMonitor/CoreLibrary/json/nodejsmessage.cpp:46-54 | the getter then returns the value set; the other two fields are unchanged |
| `Communicator.BuildEnvelope` | RFIDMonitor/CommunicatorModule/communicationservice.cpp:75-81 | the built object has exactly the keys `type`, `datetime`, `data`, carrying the given type, the formatted time and the given data unchanged |
| `Communicator.BuildEnvelopeIsWrite` | RFIDMonitor/CommunicatorModule/communicationservice.cpp:76-81 | the built object equals what `NodeJSMessage::write` puts into an empty object |
| `Communicator.BuiltEnvelopeReads` | RFIDMonitor/CommunicatorModule/communicationservice.cpp:73-81 | with no hypothesis, the built envelope read as a message carries exactly the type and data it was built from |
| `Communicator.HandshakeEnvelope` | RFIDMonitor/CommunicatorModule/communicationservice.cpp:87-90 | the object sent on connect has exactly the three envelope keys and reads as type `SYN` with empty data |
| `Communicator.EnvelopeDecodes` | RFIDMonitor/CommunicatorModule/communicationservice.cpp:73-85 | when the codec round-trips this envelope, the sent bytes decode to the type and data it was built from |
| `Communicator.UnparseableIsNotAck` | RFIDMonitor/CommunicatorModule/communicationservice.cpp:99-111 | bytes that are not JSON read as type `""` and are not taken for the acknowledgement |
| `Communicator.MissingTypeIsNotAck` | RFIDMonitor/CommunicatorModule/communicationservice.cpp:101-111 | a root object without a string `type` is never taken for the acknowledgement |
| `Communicator.EnvelopeIsAckIff` | RFIDMonitor/CommunicatorModule/communicationservice.cpp:104-111 | when the codec round-trips this envelope, its bytes are consumed iff its type is `"ACK-SYN"` |
| `Communicator.Step` | RFIDMonitor/CommunicatorModule/communicationservice.cpp:64-111 | every operation and handler only appends to the writes, the forwarded messages and the log, and adds at most one write or forward |
| `Communicator.RunSends` | RFIDMonitor/CommunicatorModule/communicationservice.cpp:64-90 | over any sequence of calls, the socket receives exactly the raw values, the built envelopes and one `SYN` per connect, in call order |
| `Communicator.RunForwards` | RFIDMonitor/CommunicatorModule/communicationservice.cpp:97-111 | over any sequence of calls, every inbound read other than `ACK-SYN` is forwarded exactly once, as the original bytes, in arrival order |
| `Communicator.SentByHandshakesOnly` | RFIDMonitor/CommunicatorModule/communicationservice.cpp:87-111 | in a notification-only call sequence the writes are exactly `HandshakesOf` the calls: the k-th write is the printed `SYN` envelope of the k-th connect's time, one per connect |
| `Communicator.OnlyHandshakesSent` | RFIDMonitor/CommunicatorModule/communicationservice.cpp:87-111 | when only socket notifications arrive, `Run`'s writes are the earlier writes followed by `HandshakesOf` the calls: one `SYN` envelope per connect, the k-th stamped with the k-th connect's time |
| `Communicator.CommunicationService.constructor` | RFIDMonitor/CommunicatorModule/communicationservice.cpp:34-47 | a new service targets the server `RFIDMonitorDaemon` and has written, forwarded and logged nothing |
| `Communicator.CommunicationService.ServiceName` | RFIDMonitor/CommunicatorModule/communicationservice.cpp:49-52 | the service name is `communication.service` |
| `Communicator.CommunicationService.SendMessage` | RFIDMonitor/CommunicatorModule/communicationservice.cpp:64-70 | the bytes are appended to the outbound stream unchanged and logged; nothing is forwarded |
| `Communicator.CommunicationService.SendJsonMessage` | RFIDMonitor/CommunicatorModule/communicationservice.cpp:73-85 | exactly one write, the printed envelope of the given data and type; nothing forwarded or logged |
| `Communicator.CommunicationService.IpcConnected` | RFIDMonitor/CommunicatorModule/communicationservice.cpp:87-90 | exactly one write, the printed handshake envelope (type `SYN`, empty data); when the codec round-trips it, the bytes decode to `SYN` with empty data; nothing forwarded or logged |
| `Communicator.CommunicationService.IpcDisconnected` | RFIDMonitor/CommunicatorModule/communicationservice.cpp:92-95 | nothing written, nothing forwarded, one log record |
| `Communicator.CommunicationService.IpcReadyRead` | RFIDMonitor/CommunicatorModule/communicationservice.cpp:97-111 | never writes; an `ACK-SYN` forwards nothing; any other type is forwarded once as the original bytes |
| `Communicator.CommunicationService.IpcHandleError` | RFIDMonitor/CommunicatorModule/communicationservice.cpp:163-166 | nothing written, nothing forwarded, one log record of the socket's error |

## Left out

- Printing and parsing of JSON text (`QJsonDocument::toJson`/`fromJson`): a parameter of the model, with the round trip as an explicit hypothesis, not a verified parser.
- Formatting and parsing of ISO-8601 dates and `QDateTime::currentDateTime()`: the format is a parameter and the current time is passed to each send; no date round trip is claimed.
- JSON numbers are kept as mathematical reals; `double` rounding is not modelled.
- `QLocalSocket`: connecting to `"RFIDMonitorDaemon"`, flushing, write failures, and `readAll` (its result is the parameter of `IpcReadyRead`). Each write is recorded as one element of `sent`.
- The outcome of the connection attempt the constructor starts (communicationservice.cpp:46): it enters the model as a later call to `IpcConnected` (the `SYN` write) or `IpcHandleError` (a log record), not as part of the constructor, even where the socket would report it before the constructor returns.
- The text of Logger records: each record is a value naming the event and its data, not a formatted string.
- `boost::any` and `std::function` internals: the held type is a tag value and the held callable an opaque handle; calling it is not modelled.
- `Service::serviceName` and `Service::init` (pure virtual). The body of `Service::Service` is not part of this model; the model states only that the default-constructed `m_serviceMap` is empty.
- `m_serviceToOffer` (MutlthreadTest/service.h:59): declared but never read or written.
- `CommunicationService::init` (communicationservice.cpp:54-56): its body is empty.
- `Communicator.CommunicationService.Type`: has no contract, because it returns the only enumerator declared; the core library's `ServiceType` enumeration that holds `KCommunicator` is not part of this model.
- The commented-out dispatch branches (communicationservice.cpp:113-160) are inactive text, not behaviour.
- Concurrency and signal/slot delivery: handlers are calls in the order the event loop delivers them.
