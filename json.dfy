/** JSON values as `encoding/json` decodes them into `interface{}`: `nil`,
    `bool`, `float64`, `string`, `[]interface{}` and
    `map[string]interface{}`. A `JNum` holds the float64 the decoder
    produced, written as a real: the decoder has already rounded the literal
    to the nearest float64 (so `3.0000000000000001` arrives as 3) and has
    refused a literal outside float64's range. */
module Json {
  import opened Wrappers

  datatype Json =
    | JNull
    | JBool(b: bool)
    | JNum(n: real)
    | JStr(s: string)
    | JArr(elems: seq<Json>)
    | JObj(fields: map<string, Json>)

  /** `json.Unmarshal` into a `map[string]interface{}` succeeds on an object
      and on `null` (which leaves the map nil); a boolean, a number, a string
      or an array is an error. */
  function DecodesAsMap(j: Json): (ok: bool)
    ensures !ok <==> j.JBool? || j.JNum? || j.JStr? || j.JArr?
  {
    j.JObj? || j.JNull?
  }

  /** The map a successful decoding yields; a nil map reads as empty. */
  function Fields(j: Json): (m: map<string, Json>)
    requires DecodesAsMap(j)
    ensures j.JNull? ==> m == map[]
  {
    if j.JObj? then j.fields else map[]
  }

  /** `m["items"].([]interface{})` with the comma-ok form: the `items` array
      of a decoded envelope, if it has one (a nil map has none). */
  function ItemsOf(envelope: Json): (r: Option<seq<Json>>)
    ensures r.Some? <==> envelope.JObj? && "items" in envelope.fields && envelope.fields["items"].JArr?
    ensures r.Some? ==> envelope.fields["items"] == JArr(r.value)
  {
    if envelope.JObj? && "items" in envelope.fields && envelope.fields["items"].JArr? then
      Some(envelope.fields["items"].elems)
    else
      None
  }

  /** `m[key]` on a `map[string]interface{}`: `None` for a missing key
      (which Go reads as a nil interface). */
  function FieldOf(fields: map<string, Json>, key: string): (r: Option<Json>)
    ensures r.Some? <==> key in fields
    ensures r.Some? ==> r.value == fields[key]
  {
    if key in fields then Some(fields[key]) else None
  }
}
