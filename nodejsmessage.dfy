/**
 * json::NodeJSMessage: the three-field envelope exchanged with the daemon,
 * and its conversion to and from a JSON object under the keys
 * "type", "datetime" and "data".
 */
module JsonMessage {
  import opened Wrappers
  import opened QtJson

  /** The values of the fields m_type, m_dateTime and m_jsonData. */
  datatype Message = Message(messageType: string, dateTime: DateTime, jsonData: JsonObject)

  /** The state of a freshly constructed NodeJSMessage: empty string, null date, empty object. */
  const EmptyMessage := Message("", NullDateTime, map[])

  /** True when `o` holds a string under `key`. */
  predicate HasString(o: JsonObject, key: string)
  {
    key in o && o[key].JString?
  }

  /** True when `o` holds an object under `key`. */
  predicate HasObject(o: JsonObject, key: string)
  {
    key in o && o[key].JObject?
  }

  /**
   * NodeJSMessage::read: every field is taken from `json` alone, with lenient
   * defaults instead of failure.
   */
  function ReadMessage(json: JsonObject, iso: IsoDate): (m: Message)
    ensures HasString(json, "type") ==> m.messageType == json["type"].str
    ensures !HasString(json, "type") ==> m.messageType == ""
    ensures HasObject(json, "data") ==> m.jsonData == json["data"].fields
    ensures !HasObject(json, "data") ==> m.jsonData == map[]
    ensures HasString(json, "datetime") ==> m.dateTime == iso.parse(json["datetime"].str)
    ensures !HasString(json, "datetime") ==> m.dateTime == iso.parse("")
  {
    Message(ToString(Value(json, "type")),
            iso.parse(ToString(Value(json, "datetime"))),
            ToObject(Value(json, "data")))
  }

  /**
   * NodeJSMessage::write: sets exactly the keys "type", "datetime" and "data"
   * of the caller's object and leaves every other key as it was.
   */
  function WriteMessage(m: Message, json: JsonObject, iso: IsoDate): (r: JsonObject)
    ensures r.Keys == json.Keys + {"type", "datetime", "data"}
    ensures r["type"] == JString(m.messageType)
    ensures r["datetime"] == JString(iso.format(m.dateTime))
    ensures r["data"] == JObject(m.jsonData)
    ensures forall k :: k in json && k != "type" && k != "datetime" && k != "data" ==> r[k] == json[k]
  {
    json["type" := JString(m.messageType)]
        ["datetime" := JString(iso.format(m.dateTime))]
        ["data" := JObject(m.jsonData)]
  }

  /**
   * Reading back what was written restores the type and the data; the
   * date-time comes back only as far as the ISO text preserves it.
   */
  lemma ReadAfterWrite(m: Message, json: JsonObject, iso: IsoDate)
    ensures ReadMessage(WriteMessage(m, json, iso), iso).messageType == m.messageType
    ensures ReadMessage(WriteMessage(m, json, iso), iso).jsonData == m.jsonData
    ensures ReadMessage(WriteMessage(m, json, iso), iso).dateTime == iso.parse(iso.format(m.dateTime))
  {
  }

  /** Keys other than the three envelope keys have no influence on what is read. */
  lemma ReadIgnoresOtherKeys(json: JsonObject, key: string, v: Json, iso: IsoDate)
    requires key != "type" && key != "datetime" && key != "data"
    ensures ReadMessage(json[key := v], iso) == ReadMessage(json, iso)
  {
  }

  /** The message object of json/nodejsmessage.cpp. */
  class NodeJSMessage {
    var messageType: string
    var dateTime: DateTime
    var jsonData: JsonObject

    /** The three fields as one value. */
    function Contents(): Message
      reads this
    {
      Message(messageType, dateTime, jsonData)
    }

    constructor ()
      ensures Contents() == EmptyMessage
    {
      messageType := "";
      dateTime := NullDateTime;
      jsonData := map[];
    }

    /** read(): overwrites all three fields, so the prior state does not matter. */
    method Read(json: JsonObject, iso: IsoDate)
      modifies this
      ensures Contents() == ReadMessage(json, iso)
    {
      messageType := ToString(Value(json, "type"));
      dateTime := iso.parse(ToString(Value(json, "datetime")));
      jsonData := ToObject(Value(json, "data"));
    }

    /** write(): the caller's object with the three envelope keys set. */
    method Write(json: JsonObject, iso: IsoDate) returns (out: JsonObject)
      ensures out == WriteMessage(Contents(), json, iso)
      ensures ReadMessage(out, iso).messageType == messageType
      ensures ReadMessage(out, iso).jsonData == jsonData
    {
      out := json;
      out := out["type" := JString(messageType)];
      out := out["datetime" := JString(iso.format(dateTime))];
      out := out["data" := JObject(jsonData)];
      ReadAfterWrite(Contents(), json, iso);
    }

    function Type(): string
      reads this
    {
      messageType
    }

    method SetType(t: string)
      modifies this
      ensures Type() == t
      ensures Contents() == old(Contents()).(messageType := t)
    {
      messageType := t;
    }

    function JsonData(): JsonObject
      reads this
    {
      jsonData
    }

    method SetJsonData(d: JsonObject)
      modifies this
      ensures JsonData() == d
      ensures Contents() == old(Contents()).(jsonData := d)
    {
      jsonData := d;
    }

    function DateTimeValue(): DateTime
      reads this
    {
      dateTime
    }

    method SetDateTime(t: DateTime)
      modifies this
      ensures DateTimeValue() == t
      ensures Contents() == old(Contents()).(dateTime := t)
    {
      dateTime := t;
    }
  }
}
