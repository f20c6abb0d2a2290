/**
 JSON values as the handlers see them: upstream response bodies after
 parsing, and the bodies the handlers send back.

 An object is a map from key to value, which is what a parsed object is
 once duplicate keys have been resolved (the last one wins). Numbers are
 kept as exact decimals.
 */
module JsonValues {

  import opened Optional

  datatype Json =
    | JNull
    | JBool(b: bool)
    | JNum(n: real)
    | JStr(s: string)
    | JArr(elems: seq<Json>)
    | JObj(fields: map<string, Json>)

  /** The `{ error: message }` body every failing route replies with. */
  function ErrorBody(message: string): Json {
    JObj(map["error" := JStr(message)])
  }

  /** `value[key]` where `value` is an object holding `key`; `None` where
      it is not. Callers decide whether JavaScript would throw there: it
      does on `null`. */
  function Field(value: Json, key: string): Option<Json> {
    if value.JObj? && key in value.fields then Some(value.fields[key]) else None
  }
}
