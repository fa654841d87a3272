/** The Transmission RPC client: JSON requests with basic auth, a CSRF session id that a 409
    answer renews, torrent listings reshaped into torrt's `params.files` form. */
module Transmission {
  import opened Wrappers
  import opened Json
  import opened Errors
  import opened Text
  import opened Http
  import opened BaseRpc

  const ALIAS: string := "transmission"
  const CSRF_HEADER: string := "X-Transmission-Session-Id"
  const FIELDS_MAP: FieldsMap := [("hashString", "hash"), ("downloadDir", "download_to")]

  const DEFAULT_HOST: string := "localhost"
  const DEFAULT_PORT: int := 9091

  /** The torrent fields `method_get_torrents` asks for. */
  const TORRENT_FIELDS: seq<string> := ["id", "name", "hashString", "comment", "downloadDir", "files", "fileStats"]

  /** `'http://%s:%s/transmission/rpc' % (host, port)`. */
  function DefaultUrl(host: string, port: int): string {
    "http://" + host + ":" + IntToString(port) + "/transmission/rpc"
  }

  /** `build_request_payload`: the method, then `arguments` and `tag` when given. */
  function BuildRequestPayload(name: string, arguments: Option<Json>, tag: Option<string>): (d: Dict)
    ensures "method" in d && d["method"] == JStr(name)
    ensures "arguments" in d <==> arguments.Some?
    ensures arguments.Some? ==> d["arguments"] == arguments.value
    ensures "tag" in d <==> tag.Some?
    ensures tag.Some? ==> d["tag"] == JStr(tag.value)
    ensures forall k :: k in d ==> k in {"method", "arguments", "tag"}
  {
    var doc := map["method" := JStr(name)];
    var doc := if arguments.Some? then doc["arguments" := arguments.value] else doc;
    if tag.Some? then doc["tag" := JStr(tag.value)] else doc
  }

  // ---------------------------------------------------------------------------
  // The session

  datatype Config = Config(url: string, user: Option<string>, password: Option<string>, server: Server)

  /** The CSRF session id the client holds, and the transport's request log. */
  datatype Session = Session(sessionId: string, log: seq<Request>)

  /** The POST `query_` sends: basic auth, the document as JSON, the session id header. */
  function PostRequest(c: Config, sessionId: string, data: Dict): Request {
    Request(POST, c.url, None, map[CSRF_HEADER := sessionId], Some((c.user, c.password)), None, None, Some(JObj(data)))
  }

  /** `query_(data)`: an exception of the HTTP layer becomes an RPC exception. */
  function SendSpec(c: Config, s: Session, data: Dict): (Result<Response, Failure>, Session) {
    var req := PostRequest(c, s.sessionId, data);
    var s1 := Session(s.sessionId, s.log + [req]);
    match c.server(s.log, req)
    case Raised(msg) => (Err(RpcException(Transmission, TransportFailed(msg))), s1)
    case Answered(resp) => (Ok(resp), s1)
  }

  /** The answer of `query`: the `arguments` of a JSON body whose `result` is "success". */
  function Decode(resp: Response): (r: Result<Json, Failure>)
    ensures r.Ok? <==>
      && resp.json.Some? && resp.json.value.JObj?
      && "result" in resp.json.value.fields && resp.json.value.fields["result"] == JStr("success")
      && "arguments" in resp.json.value.fields
    ensures r.Ok? ==> r.value == resp.json.value.fields["arguments"]
    ensures resp.json.Some? && resp.json.value.JObj? && "result" in resp.json.value.fields
            && resp.json.value.fields["result"] != JStr("success") ==>
      r == Err(RpcException(Transmission, NotSuccess(resp.json.value.fields["result"])))
  {
    if resp.json.None? then Err(ValueError)
    else
      var body := resp.json.value;
      var result :- Subscript(body, "result");
      if result != JStr("success") then Err(RpcException(Transmission, NotSuccess(result)))
      else Subscript(body, "arguments")
  }

  /** `query(data)`: on a 409 answer, take the new session id from its header and send once
      more. */
  function QuerySpec(c: Config, s: Session, data: Dict): (Result<Json, Failure>, Session) {
    if "method" !in data then (Err(KeyError("method")), s)
    else
      var (r1, s1) := SendSpec(c, s, data);
      if r1.Err? then (Err(r1.error), s1)
      else if r1.value.status == 409 then
        if CSRF_HEADER !in r1.value.headers then (Err(KeyError(CSRF_HEADER)), s1)
        else
          var (r2, s2) := SendSpec(c, Session(r1.value.headers[CSRF_HEADER], s1.log), data);
          if r2.Err? then (Err(r2.error), s2) else (Decode(r2.value), s2)
      else (Decode(r1.value), s1)
  }

  /** A 409 answer carrying a session id makes the client adopt it and send the same document
      exactly once more, now with that id, and the second answer is what gets decoded (even
      another 409); a 409 without the header raises `KeyError`; any other answer is used as
      it is. */
  lemma QueryRetry(c: Config, s: Session, data: Dict)
    requires "method" in data
    ensures var first := c.server(s.log, PostRequest(c, s.sessionId, data));
      var (r, s') := QuerySpec(c, s, data);
      && (first.Answered? && first.response.status == 409 && CSRF_HEADER in first.response.headers ==>
            var sid := first.response.headers[CSRF_HEADER];
            var second := c.server(s.log + [PostRequest(c, s.sessionId, data)], PostRequest(c, sid, data));
            && s'.sessionId == sid
            && s'.log == s.log + [PostRequest(c, s.sessionId, data), PostRequest(c, sid, data)]
            && (second.Answered? ==> r == Decode(second.response))
            && (second.Raised? ==> r == Err(RpcException(Transmission, TransportFailed(second.message)))))
      && (first.Answered? && first.response.status == 409 && CSRF_HEADER !in first.response.headers ==>
            && r == Err(KeyError(CSRF_HEADER))
            && s' == Session(s.sessionId, s.log + [PostRequest(c, s.sessionId, data)]))
      && (first.Answered? && first.response.status != 409 ==>
            && s' == Session(s.sessionId, s.log + [PostRequest(c, s.sessionId, data)])
            && r == Decode(first.response))
      && (first.Raised? ==> r == Err(RpcException(Transmission, TransportFailed(first.message))))
  {
  }

  // ---------------------------------------------------------------------------
  // method_get_torrents

  /** The `torrent-get` arguments: the fields, and `ids` exactly when hashes are given. */
  function GetTorrentsArgs(hashes: Option<seq<string>>): (args: Dict)
    ensures "fields" in args && args["fields"] == StrList(TORRENT_FIELDS)
    ensures "ids" in args <==> hashes.Some?
    ensures hashes.Some? ==> args["ids"] == StrList(hashes.value)
    ensures forall k :: k in args ==> k == "fields" || k == "ids"
  {
    var args := map["fields" := StrList(TORRENT_FIELDS)];
    if hashes.Some? then args["ids" := StrList(hashes.value)] else args
  }

  /** The entry for file `idx` of a torrent: its name and `{name, exclude: not wanted,
      priority}`, from `files[idx]` and `fileStats[idx]`. A name that is not a string is not
      representable as a key here. */
  function FileEntry(t: Dict, filesVal: Json, idx: nat): Result<(string, Json), Failure> {
    var f :- IndexAt(filesVal, idx);
    var name :- Subscript(f, "name");
    var fileStats :- Subscript(JObj(t), "fileStats");
    var stats :- IndexAt(fileStats, idx);
    var wanted :- Subscript(stats, "wanted");
    var priority :- Subscript(stats, "priority");
    if !name.JStr? then Err(TypeError)
    else Ok((name.s, JObj(map["name" := name, "exclude" := JBool(!Truthy(wanted)), "priority" := priority])))
  }

  /** The name file `idx` is filed under, when its entry can be built: its `name` field
      (see `FileEntryShape`). */
  function NameAt(t: Dict, filesVal: Json, idx: nat): Option<string> {
    match FileEntry(t, filesVal, idx)
    case Ok(entry) => Some(entry.0)
    case Err(_) => None
  }

  /** The `files` dict after the first `n` turns of the inner loop. */
  function FileTable(t: Dict, filesVal: Json, n: nat): Result<Dict, Failure>
    decreases n
  {
    if n == 0 then Ok(map[])
    else
      var prev :- FileTable(t, filesVal, n - 1);
      var entry :- FileEntry(t, filesVal, n - 1);
      Ok(prev[entry.0 := entry.1])
  }

  /** A failure while filling the table is the failure of the whole table. */
  lemma {:induction false} FileTableStops(t: Dict, filesVal: Json, k: nat, n: nat)
    requires k <= n
    requires FileTable(t, filesVal, k).Err?
    ensures FileTable(t, filesVal, n) == FileTable(t, filesVal, k)
    decreases n
  {
    if n > k {
      FileTableStops(t, filesVal, k, n - 1);
    }
  }

  /** One torrent after reshaping: normalized, `params = {'files': files}`, and the raw
      `files` and `fileStats` deleted. */
  function Reshaped(item: Json): Result<Json, Failure> {
    var t :- NormalizeAny(FIELDS_MAP, item);
    var filesVal :- Subscript(t, "files");
    var n :- Len(filesVal);
    var table :- FileTable(t.fields, filesVal, n);
    var withParams := t.fields["params" := JObj(map["files" := JObj(table)])];
    if "fileStats" !in withParams then Err(KeyError("fileStats"))
    else Ok(JObj(withParams - {"files", "fileStats"}))
  }

  /** The reshaping loop over every torrent, in order; the first failure stops it. */
  function ReshapedAll(items: seq<Json>): Result<seq<Json>, Failure>
    decreases |items|
  {
    if items == [] then Ok([])
    else
      var head :- Reshaped(items[0]);
      var rest :- ReshapedAll(items[1..]);
      Ok([head] + rest)
  }

  /** Every torrent of the answer is reshaped, and the list keeps its order and length. */
  lemma {:induction false} ReshapedAllEach(items: seq<Json>)
    requires ReshapedAll(items).Ok?
    ensures |ReshapedAll(items).value| == |items|
    ensures forall k :: 0 <= k < |items| ==> Reshaped(items[k]) == Ok(ReshapedAll(items).value[k])
    decreases |items|
  {
    if items != [] {
      ReshapedAllEach(items[1..]);
      assert forall k :: 1 <= k < |items| ==> items[k] == items[1..][k - 1];
    }
  }

  /** The outcome of a loop that already produced `done` and then ends in `rest`. */
  function After(done: seq<Json>, rest: Result<seq<Json>, Failure>): Result<seq<Json>, Failure> {
    match rest
    case Ok(more) => Ok(done + more)
    case Err(e) => Err(e)
  }

  /** One turn of the reshaping loop: a failure ends it, a success moves the torrent to the
      output. */
  lemma ReshapedAllStep(items: seq<Json>, i: nat, out: seq<Json>)
    requires i < |items|
    ensures Reshaped(items[i]).Err? ==> After(out, ReshapedAll(items[i..])) == Err(Reshaped(items[i]).error)
    ensures Reshaped(items[i]).Ok? ==>
      After(out, ReshapedAll(items[i..])) == After(out + [Reshaped(items[i]).value], ReshapedAll(items[i + 1..]))
  {
    assert items[i..][0] == items[i] && items[i..][1..] == items[i + 1..];
    var one := Reshaped(items[i]);
    if one.Ok? {
      var rest := ReshapedAll(items[i + 1..]);
      if rest.Ok? {
        assert out + ([one.value] + rest.value) == (out + [one.value]) + rest.value;
      }
    }
  }

  /** The `torrents` of a `torrent-get` answer, each reshaped; the list is returned, or the
      value itself when it is an empty non-list. */
  function TorrentsOf(result: Json): Result<Json, Failure> {
    var torrents :- Subscript(result, "torrents");
    var items :- Elements(torrents);
    var out :- ReshapedAll(items);
    Ok(if torrents.JList? then JList(out) else torrents)
  }

  /** `method_get_torrents(hashes)`. */
  function GetTorrentsSpec(c: Config, s: Session, hashes: Option<seq<string>>): (Result<Json, Failure>, Session) {
    var (q, s1) := QuerySpec(c, s, BuildRequestPayload("torrent-get", Some(JObj(GetTorrentsArgs(hashes))), None));
    if q.Err? then (Err(q.error), s1) else (TorrentsOf(q.value), s1)
  }

  /** Each file entry is built from the entries at the same index of `files` and
      `fileStats`. */
  lemma FileEntryShape(t: Dict, filesVal: Json, idx: nat)
    requires FileEntry(t, filesVal, idx).Ok?
    ensures filesVal.JList? && idx < |filesVal.items| && filesVal.items[idx].JObj?
    ensures "name" in filesVal.items[idx].fields
      && filesVal.items[idx].fields["name"] == JStr(FileEntry(t, filesVal, idx).value.0)
    ensures "fileStats" in t && IndexAt(t["fileStats"], idx).Ok?
    ensures var (name, entry) := FileEntry(t, filesVal, idx).value;
      var stats := IndexAt(t["fileStats"], idx).value;
      && stats.JObj? && "wanted" in stats.fields && "priority" in stats.fields
      && entry == JObj(map["name" := JStr(name), "exclude" := JBool(!Truthy(stats.fields["wanted"])),
                           "priority" := stats.fields["priority"]])
  {
  }

  /** The index of the last of the first `n` files filed under `name`, or -1. */
  function LastNamed(t: Dict, filesVal: Json, n: nat, name: string): (j: int)
    ensures -1 <= j < n
    ensures j >= 0 ==> NameAt(t, filesVal, j) == Some(name)
    ensures forall later :: j < later < n ==> NameAt(t, filesVal, later) != Some(name)
    decreases n
  {
    if n == 0 then -1
    else if NameAt(t, filesVal, n - 1) == Some(name) then n - 1
    else LastNamed(t, filesVal, n - 1, name)
  }

  /** A name is in the table exactly when some file is filed under it, and holds the entry of
      the last such file. */
  lemma {:induction false} FileTableLast(t: Dict, filesVal: Json, n: nat, name: string)
    requires FileTable(t, filesVal, n).Ok?
    ensures var j := LastNamed(t, filesVal, n, name);
      && (name in FileTable(t, filesVal, n).value <==> j >= 0)
      && (j >= 0 ==> FileTable(t, filesVal, n).value[name] == FileEntry(t, filesVal, j).value.1)
    decreases n
  {
    if n > 0 {
      var prev := FileTable(t, filesVal, n - 1).value;
      var entry := FileEntry(t, filesVal, n - 1).value;
      assert FileTable(t, filesVal, n).value == prev[entry.0 := entry.1];
      assert NameAt(t, filesVal, n - 1) == Some(entry.0);
      if entry.0 != name {
        FileTableLast(t, filesVal, n - 1, name);
      }
    }
  }

  /** The table has one key per file name, and a name's entry is built from the last file
      with that name. */
  lemma FileTableKeys(t: Dict, filesVal: Json, n: nat, name: string)
    requires FileTable(t, filesVal, n).Ok?
    ensures name in FileTable(t, filesVal, n).value <==>
      exists idx :: 0 <= idx < n && NameAt(t, filesVal, idx) == Some(name)
    ensures forall idx ::
      (&& 0 <= idx < n && NameAt(t, filesVal, idx) == Some(name)
       && (forall later :: idx < later < n ==> NameAt(t, filesVal, later) != Some(name)))
      ==> FileTable(t, filesVal, n).value[name] == FileEntry(t, filesVal, idx).value.1
  {
    FileTableLast(t, filesVal, n, name);
    var j := LastNamed(t, filesVal, n, name);
    forall idx |
      && 0 <= idx < n && NameAt(t, filesVal, idx) == Some(name)
      && (forall later :: idx < later < n ==> NameAt(t, filesVal, later) != Some(name))
      ensures FileTable(t, filesVal, n).value[name] == FileEntry(t, filesVal, idx).value.1
    {
      assert idx <= j;
      assert idx == j;
    }
  }

  /** A table that was built for `n` files was built for every shorter prefix too. */
  lemma {:induction false} FileTableOk(t: Dict, filesVal: Json, k: nat, n: nat)
    requires k <= n
    requires FileTable(t, filesVal, n).Ok?
    ensures FileTable(t, filesVal, k).Ok?
    ensures forall idx :: 0 <= idx < n ==> FileEntry(t, filesVal, idx).Ok?
    decreases n
  {
    if n > 0 {
      FileTableOk(t, filesVal, if k == n then n - 1 else k, n - 1);
    }
  }

  /** After reshaping, the raw `files` and `fileStats` are gone, `params.files` holds the
      table, and every other field is the normalized one. */
  lemma ReshapedShape(item: Json)
    requires Reshaped(item).Ok?
    ensures var r := Reshaped(item).value;
      var t := NormalizeAny(FIELDS_MAP, item).value;
      && item.JObj? && t.JObj? && r.JObj?
      && "files" !in r.fields && "fileStats" !in r.fields
      && "files" in t.fields && "fileStats" in t.fields
      && Len(t.fields["files"]).Ok?
      && FileTable(t.fields, t.fields["files"], Len(t.fields["files"]).value).Ok?
      && "params" in r.fields
      && r.fields["params"] == JObj(map["files" := JObj(FileTable(t.fields, t.fields["files"], Len(t.fields["files"]).value).value)])
      && (forall k :: k in t.fields && k !in {"files", "fileStats", "params"} ==> k in r.fields && r.fields[k] == t.fields[k])
      && (forall k :: k in r.fields ==> k == "params" || k in t.fields)
  {
  }

  // ---------------------------------------------------------------------------
  // method_add_torrent

  /** `params.get(filename)` for a file name; an unhashable name raises `TypeError`. */
  function FileParams(params: Dict, filename: Json): Result<Json, Failure> {
    match filename
    case JStr(s) => Ok(Get(params, s, JNull))
    case JList(_) => Err(TypeError)
    case JObj(_) => Err(TypeError)
    case _ => Ok(JNull)
  }

  /** `file_info and file_info.get('exclude', False)`: a truthy value that is not a dict has
      no `get`. */
  function IsExcluded(fileInfo: Json): Result<bool, Failure> {
    if !Truthy(fileInfo) then Ok(false)
    else if !fileInfo.JObj? then Err(AttributeError)
    else Ok(Truthy(Get(fileInfo.fields, "exclude", JBool(false))))
  }

  /** The indices of the files marked excluded, after the first `n` files. */
  function ExcludedIndices(files: seq<Json>, params: Dict, n: nat): (r: Result<seq<int>, Failure>)
    requires n <= |files|
    decreases n
  {
    if n == 0 then Ok([])
    else
      var prev :- ExcludedIndices(files, params, n - 1);
      var info :- FileParams(params, files[n - 1]);
      var excluded :- IsExcluded(info);
      Ok(if excluded then prev + [n - 1] else prev)
  }

  /** A failure while collecting is the failure of the whole collection. */
  lemma {:induction false} ExcludedIndicesStop(files: seq<Json>, params: Dict, k: nat, n: nat)
    requires k <= n <= |files|
    requires ExcludedIndices(files, params, k).Err?
    ensures ExcludedIndices(files, params, n) == ExcludedIndices(files, params, k)
    decreases n
  {
    if n > k {
      ExcludedIndicesStop(files, params, k, n - 1);
    }
  }

  /** The file with index `idx` is marked excluded. */
  predicate Excluded(files: seq<Json>, params: Dict, idx: int) {
    && 0 <= idx < |files|
    && FileParams(params, files[idx]).Ok?
    && IsExcluded(FileParams(params, files[idx]).value) == Ok(true)
  }

  /** The collected indices are increasing, and are exactly the excluded files. */
  lemma {:induction false} ExcludedIndicesExact(files: seq<Json>, params: Dict, n: nat)
    requires n <= |files|
    requires ExcludedIndices(files, params, n).Ok?
    ensures var ex := ExcludedIndices(files, params, n).value;
      && (forall i, j :: 0 <= i < j < |ex| ==> ex[i] < ex[j])
      && (forall idx :: idx in ex <==> 0 <= idx < n && Excluded(files, params, idx))
    decreases n
  {
    if n > 0 {
      ExcludedIndicesExact(files, params, n - 1);
      var prev := ExcludedIndices(files, params, n - 1).value;
      var info := FileParams(params, files[n - 1]).value;
      var excluded := IsExcluded(info).value;
      assert forall i :: 0 <= i < |prev| ==> prev[i] < n - 1 by {
        forall i | 0 <= i < |prev| ensures prev[i] < n - 1 {
          assert prev[i] in prev;
        }
      }
      assert Excluded(files, params, n - 1) <==> excluded;
      assert ExcludedIndices(files, params, n).value == if excluded then prev + [n - 1] else prev;
    }
  }

  /** The `torrent-add` arguments as written: `files-unwanted` is set, to the empty list,
      when `params` is non-empty and no file is excluded. */
  function AddTorrentArgs(torrent: Dict, downloadTo: Option<string>, params: Option<Dict>, base64: Json -> string)
    : Result<Dict, Failure>
  {
    var raw :- Subscript(JObj(torrent), "torrent");
    var args := map["metainfo" := JStr(base64(raw))];
    var args :-
      if params.Some? && params.value != map[] then
        var filesVal :- Subscript(JObj(torrent), "files");
        var files :- Elements(filesVal);
        var excluded :- ExcludedIndices(files, params.value, |files|);
        Ok(if excluded == [] then args["files-unwanted" := JList([])] else args)
      else Ok(args);
    Ok(if downloadTo.Some? then args["download-dir" := JStr(downloadTo.value)] else args)
  }

  function IntList(xs: seq<int>): (r: Json)
    ensures r.JList? && |r.items| == |xs|
    ensures forall i :: 0 <= i < |xs| ==> r.items[i] == JInt(xs[i])
  {
    JList(seq(|xs|, i requires 0 <= i < |xs| => JInt(xs[i])))
  }

  /** The `torrent-add` arguments as evidently intended: `files-unwanted` lists the excluded
      files whenever there are any. */
  function AddTorrentArgsIntended(torrent: Dict, downloadTo: Option<string>, params: Option<Dict>, base64: Json -> string)
    : Result<Dict, Failure>
  {
    var raw :- Subscript(JObj(torrent), "torrent");
    var args := map["metainfo" := JStr(base64(raw))];
    var args :-
      if params.Some? && params.value != map[] then
        var filesVal :- Subscript(JObj(torrent), "files");
        var files :- Elements(filesVal);
        var excluded :- ExcludedIndices(files, params.value, |files|);
        Ok(if excluded != [] then args["files-unwanted" := IntList(excluded)] else args)
      else Ok(args);
    Ok(if downloadTo.Some? then args["download-dir" := JStr(downloadTo.value)] else args)
  }

  /** As written: `metainfo` always, `download-dir` exactly when a directory is given, and
      `files-unwanted` only as an empty list, when no file of a non-empty `params` is
      excluded. */
  lemma AddTorrentArgsShape(torrent: Dict, downloadTo: Option<string>, params: Option<Dict>, base64: Json -> string)
    requires AddTorrentArgs(torrent, downloadTo, params, base64).Ok?
    ensures var args := AddTorrentArgs(torrent, downloadTo, params, base64).value;
      && "torrent" in torrent
      && "metainfo" in args && args["metainfo"] == JStr(base64(torrent["torrent"]))
      && ("download-dir" in args <==> downloadTo.Some?)
      && (downloadTo.Some? ==> args["download-dir"] == JStr(downloadTo.value))
      && ("files-unwanted" in args ==> args["files-unwanted"] == JList([]))
      && ("files-unwanted" in args <==>
            && params.Some? && params.value != map[]
            && var files := Elements(torrent["files"]).value;
               forall idx :: 0 <= idx < |files| ==> !Excluded(files, params.value, idx))
  {
    if params.Some? && params.value != map[] {
      var files := Elements(torrent["files"]).value;
      ExcludedIndicesExact(files, params.value, |files|);
      var ex := ExcludedIndices(files, params.value, |files|).value;
      if ex != [] {
        assert ex[0] in ex;
      }
    }
  }

  /** As intended: `files-unwanted` is present exactly when some file is excluded, and lists
      the excluded indices in increasing order. */
  lemma AddTorrentArgsIntendedShape(torrent: Dict, downloadTo: Option<string>, params: Option<Dict>, base64: Json -> string)
    requires AddTorrentArgsIntended(torrent, downloadTo, params, base64).Ok?
    ensures var args := AddTorrentArgsIntended(torrent, downloadTo, params, base64).value;
      && ("download-dir" in args <==> downloadTo.Some?)
      && ("files-unwanted" in args <==>
            && params.Some? && params.value != map[]
            && var files := Elements(torrent["files"]).value;
               exists idx :: 0 <= idx < |files| && Excluded(files, params.value, idx))
      && ("files-unwanted" in args ==>
            var files := Elements(torrent["files"]).value;
            var unwanted := args["files-unwanted"];
            && unwanted.JList?
            && (forall i, j :: 0 <= i < j < |unwanted.items| ==> unwanted.items[i].i < unwanted.items[j].i)
            && (forall idx :: JInt(idx) in unwanted.items <==> Excluded(files, params.value, idx)))
  {
    if params.Some? && params.value != map[] {
      var files := Elements(torrent["files"]).value;
      ExcludedIndicesExact(files, params.value, |files|);
      var ex := ExcludedIndices(files, params.value, |files|).value;
      if ex != [] {
        assert ex[0] in ex;
        var unwanted := IntList(ex);
        forall idx ensures JInt(idx) in unwanted.items <==> idx in ex {
          if JInt(idx) in unwanted.items {
            var k :| 0 <= k < |unwanted.items| && unwanted.items[k] == JInt(idx);
            assert ex[k] == idx;
          }
          if idx in ex {
            var k :| 0 <= k < |ex| && ex[k] == idx;
            assert unwanted.items[k] == JInt(idx);
          }
        }
      }
    }
  }

  /** Two files, the first marked excluded: as written the exclusion is dropped, as intended
      it is sent. */
  lemma ExclusionDropped(base64: Json -> string)
    ensures var torrent := map["torrent" := JBytes([]), "files" := JList([JStr("a"), JStr("b")])];
      var params := Some(map["a" := JObj(map["exclude" := JBool(true)])]);
      && AddTorrentArgs(torrent, None, params, base64) == Ok(map["metainfo" := JStr(base64(JBytes([])))])
      && AddTorrentArgsIntended(torrent, None, params, base64)
           == Ok(map["metainfo" := JStr(base64(JBytes([]))), "files-unwanted" := JList([JInt(0)])])
  {
    var files := [JStr("a"), JStr("b")];
    var params := map["a" := JObj(map["exclude" := JBool(true)])];
    assert FileParams(params, files[0]).value == JObj(map["exclude" := JBool(true)]);
    assert "exclude" in map["exclude" := JBool(true)];
    assert IsExcluded(FileParams(params, files[0]).value) == Ok(true);
    assert ExcludedIndices(files, params, 0) == Ok([]);
    assert ExcludedIndices(files, params, 1).value == [0];
    assert FileParams(params, files[1]) == Ok(JNull);
    assert ExcludedIndices(files, params, 2).value == [0];
    assert IntList([0]) == JList([JInt(0)]);
  }

  /** `method_add_torrent(torrent, download_to, params)`, with the `files-unwanted` condition
      as written. */
  function AddTorrentSpec(c: Config, s: Session, torrent: Dict, downloadTo: Option<string>, params: Option<Dict>,
                          base64: Json -> string): (Result<Json, Failure>, Session)
  {
    match AddTorrentArgs(torrent, downloadTo, params, base64)
    case Err(e) => (Err(e), s)
    case Ok(args) => QuerySpec(c, s, BuildRequestPayload("torrent-add", Some(JObj(args)), None))
  }

  // ---------------------------------------------------------------------------
  // method_remove_torrent, method_get_version

  /** The `torrent-remove` arguments. */
  function RemoveArgs(hash: string, withData: bool): (args: Dict)
    ensures args.Keys == {"ids", "delete-local-data"}
    ensures args["ids"] == JList([JStr(hash)])
    ensures args["delete-local-data"] == JBool(withData)
  {
    map["ids" := JList([JStr(hash)]), "delete-local-data" := JBool(withData)]
  }

  function RemoveTorrentSpec(c: Config, s: Session, hash: string, withData: bool): (Result<Json, Failure>, Session) {
    QuerySpec(c, s, BuildRequestPayload("torrent-remove", Some(JObj(RemoveArgs(hash, withData))), None))
  }

  /** `method_get_version()`: `rpc-version-minimum` from `session-get`. */
  function GetVersionSpec(c: Config, s: Session): (Result<Json, Failure>, Session) {
    var (q, s1) := QuerySpec(c, s, BuildRequestPayload("session-get", Some(StrList(["rpc-version-minimum"])), None));
    if q.Err? then (Err(q.error), s1) else (Subscript(q.value, "rpc-version-minimum"), s1)
  }

  // ---------------------------------------------------------------------------
  // The client object

  class TransmissionRPC {
    var sessionId: string
    const url: string
    const host: string
    const port: int
    const user: Option<string>
    const password: Option<string>
    const enabled: bool
    const transport: Transport

    constructor (url: Option<string>, host: string, port: int, user: Option<string>, password: Option<string>,
                 enabled: bool, transport: Transport)
      ensures this.url == (if url.Some? then url.value else DefaultUrl(host, port))
      ensures this.host == host && this.port == port && this.enabled == enabled
      ensures this.user == user && this.password == password && this.transport == transport
      ensures sessionId == ""
    {
      this.sessionId := "";
      this.user := user;
      this.password := password;
      this.enabled := enabled;
      this.host := host;
      this.port := port;
      this.url := if url.Some? then url.value else DefaultUrl(host, port);
      this.transport := transport;
    }

    function Cfg(): Config {
      Config(url, user, password, transport.server)
    }

    function State(): Session
      reads this, transport
    {
      Session(sessionId, transport.log)
    }

    method Send(data: Dict) returns (r: Result<Response, Failure>)
      modifies transport
      ensures (r, State()) == SendSpec(Cfg(), old(State()), data)
    {
      var reply := transport.Send(PostRequest(Cfg(), sessionId, data));
      match reply
      case Raised(msg) => r := Err(RpcException(Transmission, TransportFailed(msg)));
      case Answered(resp) => r := Ok(resp);
    }

    method Query(data: Dict) returns (r: Result<Json, Failure>)
      modifies this, transport
      ensures (r, State()) == QuerySpec(Cfg(), old(State()), data)
    {
      if "method" !in data {
        return Err(KeyError("method"));
      }
      var response :- Send(data);
      if response.status == 409 {
        if CSRF_HEADER !in response.headers {
          return Err(KeyError(CSRF_HEADER));
        }
        sessionId := response.headers[CSRF_HEADER];
        response :- Send(data);
      }
      r := Decode(response);
    }

    /** Reshapes one torrent, filling the `files` table index by index. */
    method Reshape(item: Json) returns (r: Result<Json, Failure>)
      ensures r == Reshaped(item)
    {
      var t :- NormalizeAny(FIELDS_MAP, item);
      var filesVal :- Subscript(t, "files");
      var n :- Len(filesVal);
      var table: Dict := map[];
      for idx := 0 to n
        invariant FileTable(t.fields, filesVal, idx) == Ok(table)
      {
        var entry := FileEntry(t.fields, filesVal, idx);
        if entry.Err? {
          FileTableStops(t.fields, filesVal, idx + 1, n);
          return Err(entry.error);
        }
        table := table[entry.value.0 := entry.value.1];
      }
      var info := t.fields["params" := JObj(map["files" := JObj(table)])];
      if "fileStats" !in info {
        return Err(KeyError("fileStats"));
      }
      r := Ok(JObj(info - {"files", "fileStats"}));
    }

    /** Reshapes every torrent of a `torrent-get` answer, in order. */
    method ReshapeTorrents(result: Json) returns (r: Result<Json, Failure>)
      ensures r == TorrentsOf(result)
    {
      var torrents :- Subscript(result, "torrents");
      var items :- Elements(torrents);
      var out: seq<Json> := [];
      assert items[0..] == items;
      assert After([], ReshapedAll(items)) == ReshapedAll(items) by {
        if ReshapedAll(items).Ok? {
          assert [] + ReshapedAll(items).value == ReshapedAll(items).value;
        }
      }
      for i := 0 to |items|
        invariant ReshapedAll(items) == After(out, ReshapedAll(items[i..]))
      {
        var one := Reshape(items[i]);
        ReshapedAllStep(items, i, out);
        if one.Err? {
          return Err(one.error);
        }
        out := out + [one.value];
      }
      assert items[|items|..] == [];
      assert out + [] == out;
      r := Ok(if torrents.JList? then JList(out) else torrents);
    }

    method MethodGetTorrents(hashes: Option<seq<string>>) returns (r: Result<Json, Failure>)
      modifies this, transport
      ensures (r, State()) == GetTorrentsSpec(Cfg(), old(State()), hashes)
    {
      var result :- Query(BuildRequestPayload("torrent-get", Some(JObj(GetTorrentsArgs(hashes))), None));
      r := ReshapeTorrents(result);
    }

    /** Collects the indices of the files marked excluded. */
    method CollectExcluded(files: seq<Json>, params: Dict) returns (r: Result<seq<int>, Failure>)
      ensures r == ExcludedIndices(files, params, |files|)
    {
      var excluded: seq<int> := [];
      for idx := 0 to |files|
        invariant ExcludedIndices(files, params, idx) == Ok(excluded)
      {
        var fileInfo := FileParams(params, files[idx]);
        var isExcluded := if fileInfo.Ok? then IsExcluded(fileInfo.value) else Err(fileInfo.error);
        if isExcluded.Err? {
          ExcludedIndicesStop(files, params, idx + 1, |files|);
          return Err(isExcluded.error);
        }
        if isExcluded.value {
          excluded := excluded + [idx];
        }
      }
      r := Ok(excluded);
    }

    method MethodAddTorrent(torrent: Dict, downloadTo: Option<string>, params: Option<Dict>, base64: Json -> string)
      returns (r: Result<Json, Failure>)
      modifies this, transport
      ensures (r, State()) == AddTorrentSpec(Cfg(), old(State()), torrent, downloadTo, params, base64)
    {
      var raw :- Subscript(JObj(torrent), "torrent");
      var args := map["metainfo" := JStr(base64(raw))];
      if params.Some? && params.value != map[] {
        var filesVal :- Subscript(JObj(torrent), "files");
        var files :- Elements(filesVal);
        var excluded :- CollectExcluded(files, params.value);
        if excluded == [] {
          args := args["files-unwanted" := JList([])];
        }
      }
      if downloadTo.Some? {
        args := args["download-dir" := JStr(downloadTo.value)];
      }
      r := Query(BuildRequestPayload("torrent-add", Some(JObj(args)), None));
    }

    method MethodRemoveTorrent(hash: string, withData: bool) returns (r: Result<Json, Failure>)
      modifies this, transport
      ensures (r, State()) == RemoveTorrentSpec(Cfg(), old(State()), hash, withData)
    {
      r := Query(BuildRequestPayload("torrent-remove", Some(JObj(RemoveArgs(hash, withData))), None));
    }

    method MethodGetVersion() returns (r: Result<Json, Failure>)
      modifies this, transport
      ensures (r, State()) == GetVersionSpec(Cfg(), old(State()))
    {
      var result :- Query(BuildRequestPayload("session-get", Some(StrList(["rpc-version-minimum"])), None));
      r := Subscript(result, "rpc-version-minimum");
    }

    /** `test_configuration()`: the version request. */
    method TestConfiguration() returns (r: Result<Json, Failure>)
      modifies this, transport
      ensures (r, State()) == GetVersionSpec(Cfg(), old(State()))
    {
      r := MethodGetVersion();
    }
  }
}
