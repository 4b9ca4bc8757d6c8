/** JSON-like values as JavaScript sees them after `JSON.parse` or as request
    bodies: an object is its entries in insertion order (the order
    `Object.entries` reports), and a key that is absent is `undefined`. */
module Json {
  import opened Wrappers

  datatype Json =
    | JNull
    | JBool(b: bool)
    | JNum(n: real)
    | JStr(s: string)
    | JArr(items: seq<Json>)
    | JObj(entries: seq<Entry>)

  datatype Entry = Entry(key: string, value: Json)

  /** `obj[key]`: the value of the first entry with that key, if any. */
  function Lookup(entries: seq<Entry>, key: string): (r: Option<Json>)
    ensures r.Some? <==> key in Keys(entries)
    ensures r.Some? ==> exists i :: 0 <= i < |entries| && entries[i] == Entry(key, r.value)
    decreases |entries|
  {
    if |entries| == 0 then None
    else if entries[0].key == key then Some(entries[0].value)
    else Lookup(entries[1..], key)
  }

  /** `Object.keys(obj)`. */
  function Keys(entries: seq<Entry>): (ks: seq<string>)
    ensures |ks| == |entries|
    ensures forall i :: 0 <= i < |entries| ==> ks[i] == entries[i].key
    decreases |entries|
  {
    if |entries| == 0 then [] else [entries[0].key] + Keys(entries[1..])
  }
}
