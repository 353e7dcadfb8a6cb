/** The raw JSON documents the validators are built from, as Python's `json`
    module delivers them: integers and floating-point numbers are distinct
    kinds, and an object is a dictionary from keys to values. */
module Json {

  datatype Json =
    | JNull
    | JBool(b: bool)
    | JInt(i: int)
    | JFloat(r: real)
    | JString(s: string)
    | JArray(elems: seq<Json>)
    | JObject(fields: map<string, Json>)

  /** The members of a JSON object. */
  type Fields = map<string, Json>

  /** A JSON number, integer or floating-point, read as an opaque value. */
  predicate IsNumber(j: Json) {
    j.JInt? || j.JFloat?
  }

  function NumberValue(j: Json): real
    requires IsNumber(j)
  {
    if j.JInt? then j.i as real else j.r
  }
}
