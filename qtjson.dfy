/**
 * The slice of Qt's JSON and date-time support that the envelope code relies on:
 * QJsonValue / QJsonObject as a datatype, the lenient accessors toString() and
 * toObject(), and QJsonDocument::fromJson(...).object().
 *
 * Printing and parsing JSON text and ISO-8601 dates belong to Qt, not to this
 * program, so they enter the model as parameters (JsonDocument, IsoDate).
 */
module QtJson {
  import opened Wrappers

  /** A QByteArray. */
  type Bytes = seq<bv8>

  /** A QJsonValue other than Undefined (an absent key is `None` at lookup). */
  datatype Json =
    | JNull
    | JBool(b: bool)
    | JNumber(n: real)
    | JString(str: string)
    | JArray(items: seq<Json>)
    | JObject(fields: map<string, Json>)

  /** A QJsonObject: string keys, unordered. */
  type JsonObject = map<string, Json>

  /** `json[key]` on a const QJsonObject: Undefined (`None`) when the key is absent. */
  function Value(o: JsonObject, key: string): Option<Json>
  {
    if key in o then Some(o[key]) else None
  }

  /** QJsonValue::toString(): the string held, or "" for any other kind of value. */
  function ToString(v: Option<Json>): string
  {
    if v.Some? && v.value.JString? then v.value.str else ""
  }

  /** QJsonValue::toObject(): the object held, or the empty object otherwise. */
  function ToObject(v: Option<Json>): JsonObject
  {
    if v.Some? && v.value.JObject? then v.value.fields else map[]
  }

  /**
   * QJsonDocument as a text codec: `toJson` prints an object document,
   * `fromJson` parses bytes into the document's root value, or `None`
   * when the bytes are not well-formed JSON (a null document).
   */
  datatype JsonDocument = JsonDocument(toJson: JsonObject -> Bytes, fromJson: Bytes -> Option<Json>)

  /**
   * The hypothesis the model needs of Qt, for one object at a time: parsing
   * the printed text of `o` gives `o` back. It is never assumed for all
   * objects at once (numbers are reals here, and no printer into finite byte
   * strings is injective on all of them).
   */
  predicate RoundTripsOn(doc: JsonDocument, o: JsonObject)
  {
    doc.fromJson(doc.toJson(o)) == Some(JObject(o))
  }

  /** The hypothesis can be met for any one object. */
  lemma RoundTripsOnSatisfiable(o: JsonObject)
    ensures RoundTripsOn(JsonDocument(_ => [], _ => Some(JObject(o))), o)
  {
  }

  /**
   * `QJsonDocument::fromJson(bytes).object()`: the root object, or the empty
   * object when the bytes do not parse or their root is not an object.
   */
  function DocumentObject(doc: JsonDocument, bytes: Bytes): (o: JsonObject)
    ensures doc.fromJson(bytes).None? ==> o == map[]
    ensures doc.fromJson(bytes).Some? && !doc.fromJson(bytes).value.JObject? ==> o == map[]
    ensures doc.fromJson(bytes).Some? && doc.fromJson(bytes).value.JObject? ==> o == doc.fromJson(bytes).value.fields
  {
    match doc.fromJson(bytes)
    case Some(JObject(fields)) => fields
    case _ => map[]
  }

  /** When the codec round-trips `o`, the object of a printed document is the object printed. */
  lemma DocumentRoundTrip(doc: JsonDocument, o: JsonObject)
    requires RoundTripsOn(doc, o)
    ensures DocumentObject(doc, doc.toJson(o)) == o
  {
  }

  /** A QDateTime: either null (invalid) or an instant in milliseconds since the epoch. */
  datatype DateTime = NullDateTime | DateTime(msecsSinceEpoch: int)

  /**
   * `QDateTime::toString(Qt::ISODate)` and `QDateTime::fromString(_, Qt::ISODate)`.
   * No round trip is assumed: the ISO format drops milliseconds.
   */
  datatype IsoDate = IsoDate(format: DateTime -> string, parse: string -> DateTime)
}
