/** Parsed JSON values, as the API's response bodies and the request bodies are modelled. */
module Json {
  import opened Common

  /** Object members keep their order, as JSON.stringify writes them. */
  datatype Json =
    | JNull
    | JBool(b: bool)
    | JNum(n: real)
    | JStr(s: string)
    | JArr(items: seq<Json>)
    | JObj(fields: seq<(string, Json)>)

  /** JavaScript truthiness of a parsed value (JSON has no NaN, so a number is falsy only when 0). */
  predicate Truthy(j: Json) {
    match j
    case JNull => false
    case JBool(b) => b
    case JNum(n) => n != 0.0
    case JStr(s) => s != ""
    case _ => true
  }

  /** The value of the last member named key: JSON.parse keeps the last of duplicate keys. */
  function LastValue(fields: seq<(string, Json)>, key: string): (r: Option<Json>)
    ensures r.None? <==> forall i :: 0 <= i < |fields| ==> fields[i].0 != key
    ensures r.Some? ==> exists i :: (0 <= i < |fields| && fields[i] == (key, r.value) &&
      forall j :: i < j < |fields| ==> fields[j].0 != key)
  {
    if fields == [] then None
    else
      var n := |fields| - 1;
      if fields[n].0 == key then Some(fields[n].1)
      else
        var r := LastValue(fields[..n], key);
        assert forall i :: 0 <= i < n ==> fields[..n][i] == fields[i];
        r
  }

  /** `value[key]`: the member of an object, undefined (None) on any other value. */
  function Get(j: Json, key: string): (r: Option<Json>)
    ensures r.Some? ==> j.JObj?
    ensures j.JObj? ==> r == LastValue(j.fields, key)
  {
    if j.JObj? then LastValue(j.fields, key) else None
  }

  /** The member names of an object, in order. */
  function Names(fields: seq<(string, Json)>): (names: seq<string>)
    ensures |names| == |fields|
    ensures forall i :: 0 <= i < |fields| ==> names[i] == fields[i].0
  {
    if fields == [] then [] else [fields[0].0] + Names(fields[1..])
  }
}
