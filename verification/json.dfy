/** JSON values as the server handles them once `encoding/json` has done its
    work: identifiers, parameters and results are opaque values of this type. */
module Json {
  import opened Wrappers

  /** A JSON document. The server never inspects a JSON number itself; numbers
      are integers here so that error codes can be written out. Objects keep
      their members in order. */
  datatype Json =
    | JNull
    | JBool(b: bool)
    | JNum(n: int)
    | JStr(s: string)
    | JArr(items: seq<Json>)
    | JObj(members: seq<(string, Json)>)

  /** The value of the first member named `key`, if there is one. */
  function Get(members: seq<(string, Json)>, key: string): (r: Option<Json>)
    ensures r.Some? <==> exists i :: 0 <= i < |members| && members[i].0 == key
    ensures r.Some? ==> (key, r.value) in members
    ensures r.Some? ==> exists i :: 0 <= i < |members| && members[i] == (key, r.value)
                                     && forall j :: 0 <= j < i ==> members[j].0 != key
  {
    if members == [] then None
    else if members[0].0 == key then Some(members[0].1)
    else Get(members[1..], key)
  }
}
