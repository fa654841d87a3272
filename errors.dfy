/** What the modelled code raises, as values, and the Python operations on decoded JSON
    that raise it. */
module Errors {
  import opened Wrappers
  import opened Json
  import opened Text

  /** The torrent-client backend whose RPC exception class was raised. */
  datatype Backend = QBittorrent | Transmission | Deluge

  /** Why an RPC exception was raised (the message texts themselves are not modelled). */
  datatype Reason =
    | UnknownAction                 // the action has no entry in the endpoint table
    | FormatMismatch                // the endpoint template does not take the given argument
    | TransportFailed(msg: string)  // the HTTP layer raised
    | BadStatus(status: int)        // a non-200 answer
    | AuthRejected                  // login answer was not "Ok." with cookies
    | NotSuccess(result: Json)      // Transmission answered with a result other than "success"
    | ServerError(error: Json)      // Deluge answered with a non-null error
    | NotConnected                  // Deluge web UI reports no daemon

  datatype Failure =
    | RpcException(backend: Backend, reason: Reason)
    | KeyError(key: string)
    | TypeError
    | ValueError
    | IndexError
    | AttributeError
    | RecursionError

  /** `j[key]` with a string key: a dict without the key raises `KeyError`, anything that is
      not a dict raises `TypeError`. */
  function Subscript(j: Json, key: string): (r: Result<Json, Failure>)
    ensures r.Ok? <==> j.JObj? && key in j.fields
    ensures r.Ok? ==> r.value == j.fields[key]
    ensures r.Err? ==> r.error == (if j.JObj? then KeyError(key) else TypeError)
  {
    if !j.JObj? then Err(TypeError)
    else if key in j.fields then Ok(j.fields[key])
    else Err(KeyError(key))
  }

  /** A value used where the code needs a dict (it subscripts it or tests membership in it). */
  function AsDict(j: Json): (r: Result<Dict, Failure>)
    ensures r.Ok? <==> j.JObj?
    ensures r.Ok? ==> r.value == j.fields
  {
    if j.JObj? then Ok(j.fields) else Err(TypeError)
  }

  /** The elements a `for` loop visits: a list's items, a string's one-character strings,
      a bytes value's integers. A non-empty dict is iterated by key in insertion order,
      which a `map` does not record: the model raises `TypeError` for it. Numbers, booleans
      and `None` are not iterable. */
  function Elements(j: Json): (r: Result<seq<Json>, Failure>)
    ensures j.JList? ==> r == Ok(j.items)
    ensures r.Ok? ==> j.JList? || j.JStr? || j.JBytes? || j == JObj(map[])
    ensures r.Err? ==> r.error == TypeError
  {
    match j
    case JList(items) => Ok(items)
    case JStr(s) => Ok(seq(|s|, i requires 0 <= i < |s| => JStr([s[i]])))
    case JBytes(bs) => Ok(seq(|bs|, i requires 0 <= i < |bs| => JInt(bs[i] as int)))
    case JObj(m) => if m == map[] then Ok([]) else Err(TypeError)
    case _ => Err(TypeError)
  }

  /** `len(j)`. */
  function Len(j: Json): (r: Result<nat, Failure>)
    ensures j.JList? ==> r == Ok(|j.items|)
    ensures r.Err? ==> r.error == TypeError
  {
    match j
    case JList(items) => Ok(|items|)
    case JStr(s) => Ok(|s|)
    case JBytes(bs) => Ok(|bs|)
    case JObj(m) => Ok(|m.Keys|)
    case _ => Err(TypeError)
  }

  /** `j[idx]` with a non-negative integer index: sequences raise `IndexError` past their
      end; a dict (whose keys are strings) raises `KeyError`. */
  function IndexAt(j: Json, idx: nat): (r: Result<Json, Failure>)
    ensures j.JList? ==> (r.Ok? <==> idx < |j.items|)
    ensures j.JList? && idx < |j.items| ==> r.value == j.items[idx]
    ensures j.JList? && idx >= |j.items| ==> r == Err(IndexError)
  {
    match j
    case JList(items) => if idx < |items| then Ok(items[idx]) else Err(IndexError)
    case JStr(s) => if idx < |s| then Ok(JStr([s[idx]])) else Err(IndexError)
    case JBytes(bs) => if idx < |bs| then Ok(JInt(bs[idx] as int)) else Err(IndexError)
    case JObj(m) => Err(KeyError(IntToString(idx)))
    case _ => Err(TypeError)
  }
}
