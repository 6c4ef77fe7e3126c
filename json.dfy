/**
 * JSON values as the firmware builds them with ArduinoJson: the text encoding is
 * abstracted away, a document is a map from member names to values.
 */
module Json {
  datatype Json =
    | JStr(s: string)
    | JNum(n: int)
    | JBool(b: bool)
    | JObj(members: map<string, Json>)
    | JArr(items: seq<Json>)

  /** A top-level JSON object (a `JsonObject` / `JsonDocument` holding an object). */
  type JsonObject = map<string, Json>

  /**
   * The two directions of the text encoding (`printTo` / `parseObject`), left
   * abstract. A `parse` of text that is not an object yields the empty object,
   * as ArduinoJson's invalid object answers every lookup with "absent".
   */
  datatype JsonCodec = JsonCodec(format: JsonObject -> string, parse: string -> JsonObject)

  /** The codec reads back every document it writes. */
  ghost predicate Faithful(codec: JsonCodec) {
    forall d: JsonObject :: codec.parse(codec.format(d)) == d
  }
}
