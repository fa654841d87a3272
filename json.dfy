/** Decoded JSON documents and Python dictionaries of JSON-like values. */
module Json {
  import opened Wrappers

  /** A Python value as it appears in decoded JSON, request bodies and torrent dicts.
      `JBytes` stands for a Python `bytes` object (raw .torrent content). */
  datatype Json =
    | JNull
    | JBool(b: bool)
    | JInt(i: int)
    | JStr(s: string)
    | JBytes(bytes: seq<bv8>)
    | JList(items: seq<Json>)
    | JObj(fields: map<string, Json>)

  type Dict = map<string, Json>

  /** Python truthiness: `None`, `False`, `0` and empty containers are falsy. */
  predicate Truthy(j: Json) {
    match j
    case JNull => false
    case JBool(b) => b
    case JInt(i) => i != 0
    case JStr(s) => s != []
    case JBytes(bs) => bs != []
    case JList(xs) => xs != []
    case JObj(m) => m != map[]
  }

  /** `d.get(k, default)`. */
  function Get(d: Dict, k: string, default: Json): Json {
    if k in d then d[k] else default
  }

  /** A Python `str` or `None`. */
  function StrOrNull(s: Option<string>): Json {
    match s
    case None => JNull
    case Some(t) => JStr(t)
  }

  /** A Python list of strings. */
  function StrList(xs: seq<string>): (r: Json)
    ensures r.JList? && |r.items| == |xs|
    ensures forall i :: 0 <= i < |xs| ==> r.items[i] == JStr(xs[i])
  {
    JList(seq(|xs|, i requires 0 <= i < |xs| => JStr(xs[i])))
  }
}
