/** Decoded JSON, as `response.json()` hands it to the schema validators.
    Numbers are exact reals: the IEEE-754 details of JavaScript numbers are not
    modelled. An object is a map from keys to values (a decoder keeps the last
    of duplicated keys). */
module JsonValues {

  datatype Json =
    | JNull
    | JBool(b: bool)
    | JNumber(n: real)
    | JString(s: string)
    | JArray(items: seq<Json>)
    | JObject(fields: map<string, Json>)

  /** A sequence of strings as a JSON array of strings. */
  function StringsToJson(ss: seq<string>): (r: seq<Json>)
    ensures |r| == |ss|
    ensures forall i :: 0 <= i < |ss| ==> r[i] == JString(ss[i])
  {
    seq(|ss|, i requires 0 <= i < |ss| => JString(ss[i]))
  }
}
