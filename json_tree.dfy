/**
 * A parsed JSON document, as Gson's `JsonElement` and org.json's values hold
 * it. Numbers keep the literal text they were parsed from.
 */
module JsonTree {

  datatype Json =
    | JStr(str: string)
    | JNum(literal: string)
    | JBool(truth: bool)
    | JNull
    | JObj(fields: map<string, Json>)
    | JArr(items: seq<Json>)

  /** A JSON object: member names are unique. */
  type JsonObject = map<string, Json>
}
