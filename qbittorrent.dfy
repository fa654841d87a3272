/** The qBittorrent Web UI client: form and multipart requests, a cookie session opened by
    `login`, and one detail request per listed torrent. */
module QBittorrent {
  import opened Wrappers
  import opened Json
  import opened Errors
  import opened Text
  import opened Http
  import opened BaseRpc

  const ALIAS: string := "qbittorrent"

  /** An endpoint path relative to the client URL: a plain path, or a path around one
      `%s` that the action's argument fills. */
  datatype Endpoint = Plain(path: string) | WithArg(prefix: string, suffix: string)

  /** The endpoint as written in the source table. */
  function Template(e: Endpoint): string {
    match e
    case Plain(p) => p
    case WithArg(pre, suf) => pre + "%s" + suf
  }

  /** `api_map`: action name to endpoint. */
  const API_MAP: map<string, Endpoint> := map[
    "login" := Plain("login"),
    "api_version_path" := Plain("version/api"),
    "add_torrent" := Plain("command/upload"),
    "rem_torrent" := Plain("command/delete"),
    "rem_torrent_with_data" := Plain("command/deletePerm"),
    "get_torrent" := WithArg("query/propertiesGeneral/", ""),
    "get_torrents" := Plain("query/torrents")]

  const FIELDS_MAP: FieldsMap := [("save_path", "download_to")]

  const DEFAULT_HOST: string := "localhost"
  const DEFAULT_PORT: int := 8080
  const DEFAULT_USER: string := "admin"
  const DEFAULT_PASSWORD: string := "admin"

  /** `'http://%s:%s/' % (host, port)`. */
  function DefaultUrl(host: string, port: int): (u: string)
    ensures u != [] && u[|u| - 1] == '/'
  {
    "http://" + host + ":" + IntToString(port) + "/"
  }

  /** `build_params`: `{'action': action}` updated with `params`, whose keys win. */
  function BuildParams(action: Option<string>, params: Option<Dict>): (d: Dict)
    ensures "action" in d
    ensures params.None? || "action" !in params.value ==> d["action"] == StrOrNull(action)
    ensures params.Some? ==> forall k :: k in params.value ==> k in d && d[k] == params.value[k]
    ensures forall k :: k in d ==> k == "action" || (params.Some? && k in params.value)
  {
    var doc := map["action" := StrOrNull(action)];
    if params.Some? then doc + params.value else doc
  }

  // ---------------------------------------------------------------------------
  // Endpoint URLs

  /** `str(x)` for a scalar; `None` for a list, dict or bytes value. */
  function ScalarStr(j: Json): Option<string> {
    match j
    case JNull => Some("None")
    case JBool(b) => Some(if b then "True" else "False")
    case JInt(i) => Some(IntToString(i))
    case JStr(s) => Some(s)
    case _ => None
  }

  /** A value Python's `%` takes for a mapping: anything subscriptable other than a tuple
      or a string. */
  predicate Subscriptable(j: Json) {
    j.JObj? || j.JList? || j.JBytes?
  }

  /** `template % arg`: a scalar fills the `%s`; a template without specifiers accepts an
      argument it takes for a mapping and is left unchanged; any other argument there is
      "not all arguments converted". */
  function Percent(e: Endpoint, arg: Json): (r: Result<string, Reason>)
    ensures r.Err? ==> r.error == FormatMismatch
    ensures e.Plain? ==> (r.Ok? <==> Subscriptable(arg))
    ensures e.Plain? && r.Ok? ==> r.value == e.path
    ensures e.WithArg? ==> (r.Ok? <==> ScalarStr(arg).Some?)
    ensures e.WithArg? && r.Ok? ==> r.value == e.prefix + ScalarStr(arg).value + e.suffix
  {
    match e
    case Plain(p) => if Subscriptable(arg) then Ok(p) else Err(FormatMismatch)
    case WithArg(pre, suf) =>
      match ScalarStr(arg)
      case Some(s) => Ok(pre + s + suf)
      case None => Err(FormatMismatch)
  }

  /** The action names a known endpoint. */
  predicate KnownAction(params: Dict) {
    "action" in params && params["action"].JStr? && params["action"].s in API_MAP
  }

  /** `get_request_url`: the endpoint of the action, formatted with `action_params` when
      present, joined to the client URL. */
  function GetRequestUrl(base: string, params: Dict): (r: Result<string, Reason>)
    ensures r == Err(UnknownAction) <==> !KnownAction(params)
    ensures r.Err? && KnownAction(params) ==> "action_params" in params && r.error == FormatMismatch
    ensures KnownAction(params) && "action_params" !in params ==>
      r == Ok(UrlJoin(base, Template(API_MAP[params["action"].s])))
    ensures KnownAction(params) && "action_params" in params
            && Percent(API_MAP[params["action"].s], params["action_params"]).Ok? ==>
      r == Ok(UrlJoin(base, Percent(API_MAP[params["action"].s], params["action_params"]).value))
  {
    if !KnownAction(params) then Err(UnknownAction)
    else
      var segment := API_MAP[params["action"].s];
      if "action_params" in params then
        match Percent(segment, params["action_params"])
        case Ok(seg) => Ok(UrlJoin(base, seg))
        case Err(e) => Err(e)
      else Ok(UrlJoin(base, Template(segment)))
  }

  /** The details URL of the torrent with hash `h`. */
  lemma TorrentDetailsUrl(base: string, h: string)
    requires base != [] && base[|base| - 1] == '/'
    ensures GetRequestUrl(base, DetailParams(JStr(h))) == Ok(base + "query/propertiesGeneral/" + h)
  {
    var p := DetailParams(JStr(h));
    assert KnownAction(p);
    var seg := "query/propertiesGeneral/" + h;
    assert Percent(API_MAP["get_torrent"], JStr(h)) == Ok(seg) by {
      assert seg + "" == seg;
    }
    assert base + seg == base + "query/propertiesGeneral/" + h;
  }

  /** An endpoint that takes no argument rejects a string argument. */
  lemma PlainEndpointRejectsArgument(base: string, action: string, arg: string)
    requires action in API_MAP && action != "get_torrent"
    ensures GetRequestUrl(base, BuildParams(Some(action), Some(map["action_params" := JStr(arg)])))
      == Err(FormatMismatch)
  {
  }

  // ---------------------------------------------------------------------------
  // One request

  /** The request `query` sends: a GET unless there are form fields or files. */
  function QueryRequest(u: string, cookies: Option<Cookies>, params: Dict, files: Option<Dict>): (req: Request)
    ensures req.verb == POST <==> "data" in params || files.Some?
    ensures req.url == u && req.cookies == cookies && req.files == files
    ensures req.data == (if "data" in params then Some(params["data"]) else None)
  {
    Request(
      if "data" in params || files.Some? then POST else GET,
      u, cookies, map[], None,
      if "data" in params then Some(params["data"]) else None,
      files, None)
  }

  /** What `query` makes of the reply: the response when the status is 200, an RPC
      exception otherwise. */
  function QueryOutcome(reply: Reply): (r: Result<Response, Failure>)
    ensures r.Ok? <==> reply.Answered? && reply.response.status == 200
    ensures r.Ok? ==> r.value == reply.response
    ensures r.Err? ==> r.error.RpcException? && r.error.backend == QBittorrent
  {
    match reply
    case Raised(msg) => Err(RpcException(QBittorrent, TransportFailed(msg)))
    case Answered(resp) =>
      if resp.status != 200 then Err(RpcException(QBittorrent, BadStatus(resp.status)))
      else Ok(resp)
  }

  // ---------------------------------------------------------------------------
  // The session, as a function of the requests sent so far

  /** What a client is configured with. */
  datatype Config = Config(url: string, user: string, password: string, server: Server)

  /** The client's cookies and the transport's request log. */
  datatype Session = Session(cookies: Option<Cookies>, log: seq<Request>)

  /** `query(data, files)`. */
  function QuerySpec(c: Config, s: Session, params: Dict, files: Option<Dict>): (Result<Response, Failure>, Session) {
    if "action" !in params then (Err(KeyError("action")), s)
    else
      match GetRequestUrl(c.url, params)
      case Err(reason) => (Err(RpcException(QBittorrent, reason)), s)
      case Ok(u) =>
        var req := QueryRequest(u, s.cookies, params, files);
        (QueryOutcome(c.server(s.log, req)), Session(s.cookies, s.log + [req]))
  }

  function LoginParams(c: Config): Dict {
    BuildParams(Some("login"), Some(map["data" := JObj(map["username" := JStr(c.user), "password" := JStr(c.password)])]))
  }

  /** `login()`: keeps the answer's cookies when it is "Ok." and carries cookies. */
  function LoginSpec(c: Config, s: Session): (Result<(), Failure>, Session) {
    var (q, s1) := QuerySpec(c, s, LoginParams(c), None);
    if q.Err? then (Err(q.error), s1)
    else if q.value.text != "Ok." || q.value.cookies.None? then (Err(RpcException(QBittorrent, AuthRejected)), s1)
    else (Ok(()), Session(q.value.cookies, s1.log))
  }

  /** `auth_query(data, files)`: logs in first when there are no cookies. */
  function AuthQuerySpec(c: Config, s: Session, params: Dict, files: Option<Dict>): (Result<Response, Failure>, Session) {
    if NoCookies(s.cookies) then
      var (l, s1) := LoginSpec(c, s);
      if l.Err? then (Err(l.error), s1) else QuerySpec(c, s1, params, files)
    else QuerySpec(c, s, params, files)
  }

  /** `auth_query_json(data, files)`: as `auth_query`, then the decoded body. */
  function AuthQueryJsonSpec(c: Config, s: Session, params: Dict, files: Option<Dict>): (Result<Json, Failure>, Session) {
    var (q, s1) := AuthQuerySpec(c, s, params, files);
    if q.Err? then (Err(q.error), s1)
    else if q.value.json.None? then (Err(ValueError), s1)
    else (Ok(q.value.json.value), s1)
  }

  /** The login request for the given cookies. */
  function LoginRequest(c: Config, cookies: Option<Cookies>): Request {
    QueryRequest(UrlJoin(c.url, "login"), cookies,
      LoginParams(c), None)
  }

  /** A query sends exactly one request when its action is known, and never touches the
      cookies. */
  lemma QuerySends(c: Config, s: Session, params: Dict, files: Option<Dict>)
    requires "action" in params
    ensures QuerySpec(c, s, params, files).1.cookies == s.cookies
    ensures GetRequestUrl(c.url, params).Ok? ==>
      QuerySpec(c, s, params, files).1.log == s.log + [QueryRequest(GetRequestUrl(c.url, params).value, s.cookies, params, files)]
    ensures GetRequestUrl(c.url, params).Err? ==> QuerySpec(c, s, params, files).1 == s
  {
  }

  /** `login()` posts the credentials to the login endpoint once; it succeeds exactly when
      the answer is a 200 "Ok." with cookies, and only then replaces the cookies. */
  lemma LoginOutcome(c: Config, s: Session)
    ensures var (r, s') := LoginSpec(c, s);
      var reply := c.server(s.log, LoginRequest(c, s.cookies));
      && s'.log == s.log + [LoginRequest(c, s.cookies)]
      && (r.Ok? <==> reply.Answered? && reply.response.status == 200
                     && reply.response.text == "Ok." && reply.response.cookies.Some?)
      && (r.Ok? ==> s'.cookies == reply.response.cookies)
      && (r.Err? ==> s'.cookies == s.cookies && r.error.RpcException? && r.error.backend == QBittorrent)
  {
    LoginQuery(c, s);
  }

  /** The login is one query of the login endpoint with the current cookies. */
  lemma LoginQuery(c: Config, s: Session)
    ensures var req := LoginRequest(c, s.cookies);
      QuerySpec(c, s, LoginParams(c), None) == (QueryOutcome(c.server(s.log, req)), Session(s.cookies, s.log + [req]))
  {
    var p := LoginParams(c);
    assert KnownAction(p);
    assert GetRequestUrl(c.url, p) == Ok(UrlJoin(c.url, "login"));
  }

  /** `auth_query` logs in first exactly when there are no cookies; with cookies it is a
      plain `query`. */
  lemma AuthQueryLogsIn(c: Config, s: Session, params: Dict, files: Option<Dict>)
    ensures NoCookies(s.cookies) ==>
      var s' := AuthQuerySpec(c, s, params, files).1;
      |s'.log| > |s.log| && s'.log[|s.log|] == LoginRequest(c, s.cookies)
    ensures !NoCookies(s.cookies) ==> AuthQuerySpec(c, s, params, files) == QuerySpec(c, s, params, files)
  {
    if NoCookies(s.cookies) {
      LoginOutcome(c, s);
      var s1 := LoginSpec(c, s).1;
      if LoginSpec(c, s).0.Ok? && "action" in params {
        QuerySends(c, s1, params, files);
      }
    }
  }

  // ---------------------------------------------------------------------------
  // method_get_torrents

  /** What `method_get_torrents` reports for one torrent. */
  datatype TorrentInfo = TorrentInfo(hash: Json, name: Json, downloadTo: Json, comment: Json)

  function ListParams(): Dict {
    BuildParams(Some("get_torrents"), Some(map["reverse" := JStr("true")]))
  }

  function DetailParams(h: Json): Dict {
    BuildParams(Some("get_torrent"), Some(map["action_params" := h]))
  }

  /** `hashes is None or torrent_data_hash in hashes`. */
  predicate Wanted(hashes: Option<seq<string>>, h: Json) {
    hashes.None? || (h.JStr? && h.s in hashes.value)
  }

  /** The record for a listed torrent `t` with hash `h`, given the detail answer. */
  function Record(t: Json, h: Json, addition: Json): Result<TorrentInfo, Failure> {
    var a :- NormalizeAny(FIELDS_MAP, addition);
    var name :- Subscript(t, "name");
    var downloadTo :- Subscript(t, "download_to");
    var comment :- Subscript(a, "comment");
    Ok(TorrentInfo(h, name, downloadTo, comment))
  }

  /** One turn of the loop over the listing. */
  function StepSpec(c: Config, s: Session, acc: seq<TorrentInfo>, item: Json, hashes: Option<seq<string>>)
    : (Result<seq<TorrentInfo>, Failure>, Session)
  {
    match NormalizeAny(FIELDS_MAP, item)
    case Err(e) => (Err(e), s)
    case Ok(t) =>
      match Subscript(t, "hash")
      case Err(e) => (Err(e), s)
      case Ok(h) =>
        if !Wanted(hashes, h) then (Ok(acc), s)
        else
          var (a, s1) := AuthQueryJsonSpec(c, s, DetailParams(h), None);
          if a.Err? then (Err(a.error), s1)
          else
            match Record(t, h, a.value)
            case Err(e) => (Err(e), s1)
            case Ok(info) => (Ok(acc + [info]), s1)
  }

  /** The loop over the remaining listing entries, after `acc` was collected. */
  function DetailsSpec(c: Config, s: Session, items: seq<Json>, acc: seq<TorrentInfo>, hashes: Option<seq<string>>)
    : (Result<seq<TorrentInfo>, Failure>, Session)
    decreases |items|
  {
    if items == [] then (Ok(acc), s)
    else
      var (r, s1) := StepSpec(c, s, acc, items[0], hashes);
      if r.Err? then (r, s1) else DetailsSpec(c, s1, items[1..], r.value, hashes)
  }

  /** `method_get_torrents(hashes)`. */
  function GetTorrentsSpec(c: Config, s: Session, hashes: Option<seq<string>>): (Result<seq<TorrentInfo>, Failure>, Session) {
    var (l, s1) := AuthQueryJsonSpec(c, s, ListParams(), None);
    if l.Err? then (Err(l.error), s1)
    else
      match Elements(l.value)
      case Err(e) => (Err(e), s1)
      case Ok(items) => DetailsSpec(c, s1, items, [], hashes)
  }

  /** The listing entries, normalized, that pass the hash filter, in listing order. */
  function ListedEntries(items: seq<Json>, hashes: Option<seq<string>>): (ts: seq<Json>)
    ensures |ts| <= |items|
    ensures forall k :: 0 <= k < |ts| ==>
      ts[k].JObj? && "hash" in ts[k].fields && Wanted(hashes, ts[k].fields["hash"])
    decreases |items|
  {
    if items == [] then []
    else
      var rest := ListedEntries(items[1..], hashes);
      match NormalizeAny(FIELDS_MAP, items[0])
      case Ok(t) =>
        if t.JObj? && "hash" in t.fields && Wanted(hashes, t.fields["hash"]) then [t] + rest
        else rest
      case Err(_) => rest
  }

  lemma ListedEntriesCons(items: seq<Json>, hashes: Option<seq<string>>)
    requires items != []
    ensures ListedEntries(items, hashes) == ListedEntries([items[0]], hashes) + ListedEntries(items[1..], hashes)
  {
    assert [items[0]][1..] == [];
  }

  /** The detail request for the normalized listing entry `t`, sent after the requests
      `before`, and the record built from its answer: the request is the GET of
      `query/propertiesGeneral/<hash>` with the given cookies; the answer must be a 200 with
      a JSON body whose normalized form has a `comment`; the record takes the hash, name and
      `download_to` of `t` and that comment. `None` when any of this fails. */
  function DetailOf(c: Config, before: seq<Request>, cookies: Option<Cookies>, t: Json): (d: Option<(Request, TorrentInfo)>)
    ensures d.Some? ==>
      && t.JObj? && "hash" in t.fields && "name" in t.fields && "download_to" in t.fields
      && d.value.1.hash == t.fields["hash"] && d.value.1.name == t.fields["name"]
      && d.value.1.downloadTo == t.fields["download_to"]
      && d.value.0.verb == GET && d.value.0.cookies == cookies && d.value.0.files == None
  {
    if t.JObj? && "hash" in t.fields && "name" in t.fields && "download_to" in t.fields
       && ScalarStr(t.fields["hash"]).Some? then
      var h := t.fields["hash"];
      var req := QueryRequest(UrlJoin(c.url, "query/propertiesGeneral/" + ScalarStr(h).value), cookies, DetailParams(h), None);
      var reply := c.server(before, req);
      if reply.Answered? && reply.response.status == 200 && reply.response.json.Some? then
        var a := NormalizeAny(FIELDS_MAP, reply.response.json.value);
        if a.Ok? && a.value.JObj? && "comment" in a.value.fields then
          Some((req, TorrentInfo(h, t.fields["name"], t.fields["download_to"], a.value.fields["comment"])))
        else None
      else None
    else None
  }

  /** `info` is the record built for `t` by the detail request `req` (see `DetailOf`). */
  predicate DetailFetched(c: Config, before: seq<Request>, req: Request, cookies: Option<Cookies>, t: Json, info: TorrentInfo) {
    DetailOf(c, before, cookies, t) == Some((req, info))
  }

  /** With cookies set, the detail query of a wanted hash is one GET of its details URL. */
  lemma DetailQuery(c: Config, s: Session, h: Json)
    requires !NoCookies(s.cookies)
    requires AuthQuerySpec(c, s, DetailParams(h), None).0.Ok?
    ensures ScalarStr(h).Some?
    ensures var req := QueryRequest(UrlJoin(c.url, "query/propertiesGeneral/" + ScalarStr(h).value), s.cookies, DetailParams(h), None);
      AuthQuerySpec(c, s, DetailParams(h), None) == (QueryOutcome(c.server(s.log, req)), Session(s.cookies, s.log + [req]))
  {
    var p := DetailParams(h);
    AuthQueryLogsIn(c, s, p, None);
    assert KnownAction(p);
    var seg := Percent(API_MAP["get_torrent"], h);
    assert seg.Ok?;
    assert seg.value == "query/propertiesGeneral/" + ScalarStr(h).value + "";
    assert "query/propertiesGeneral/" + ScalarStr(h).value + "" == "query/propertiesGeneral/" + ScalarStr(h).value;
  }

  /** One turn of the loop with cookies set: an entry that passes the filter costs one detail
      request and adds its record; any other entry changes nothing. */
  lemma StepRecord(c: Config, s: Session, acc: seq<TorrentInfo>, item: Json, hashes: Option<seq<string>>)
    requires !NoCookies(s.cookies)
    requires StepSpec(c, s, acc, item, hashes).0.Ok?
    ensures var (r, s1) := StepSpec(c, s, acc, item, hashes);
      var ts := ListedEntries([item], hashes);
      && s1.cookies == s.cookies
      && |r.value| == |acc| + |ts| && r.value[..|acc|] == acc
      && |s1.log| == |s.log| + |ts| && s1.log[..|s.log|] == s.log
      && (ts != [] ==> DetailFetched(c, s.log, s1.log[|s.log|], s.cookies, ts[0], r.value[|acc|]))
  {
    assert [item][1..] == [];
    var t := NormalizeAny(FIELDS_MAP, item).value;
    var h := Subscript(t, "hash").value;
    if Wanted(hashes, h) {
      DetailQuery(c, s, h);
      var r := StepSpec(c, s, acc, item, hashes).0.value;
      assert r == acc + [r[|acc|]];
    }
  }

  /** The loop over the listing with cookies set: one detail request per record, the
      records appended after `acc`, the requests after the log, and the cookies kept. */
  lemma {:induction false} DetailsLog(c: Config, s: Session, items: seq<Json>, acc: seq<TorrentInfo>, hashes: Option<seq<string>>)
    requires !NoCookies(s.cookies)
    requires DetailsSpec(c, s, items, acc, hashes).0.Ok?
    ensures var (r, s') := DetailsSpec(c, s, items, acc, hashes);
      var ts := ListedEntries(items, hashes);
      && s'.cookies == s.cookies
      && |r.value| == |acc| + |ts| && r.value[..|acc|] == acc
      && |s'.log| == |s.log| + |ts| && s'.log[..|s.log|] == s.log
    decreases |items|
  {
    if items != [] {
      var (r1, s1) := StepSpec(c, s, acc, items[0], hashes);
      StepRecord(c, s, acc, items[0], hashes);
      DetailsLog(c, s1, items[1..], r1.value, hashes);
      ListedEntriesCons(items, hashes);
      var (r, s') := DetailsSpec(c, s1, items[1..], r1.value, hashes);
      assert s'.log[..|s.log|] == s1.log[..|s.log|];
      assert r.value[..|acc|] == r1.value[..|acc|];
    }
  }

  /** `reqs` and `recs` are the detail requests and the records of the entries `ts`, one
      each, in order: the request for an entry is sent after `log0` and the requests of the
      entries before it, and its record is built from the entry and the answer. */
  predicate Fetches(c: Config, log0: seq<Request>, cookies: Option<Cookies>, ts: seq<Json>,
                    reqs: seq<Request>, recs: seq<TorrentInfo>)
    decreases |ts|
  {
    && |reqs| == |ts| && |recs| == |ts|
    && (ts != [] ==>
          && DetailFetched(c, log0, reqs[0], cookies, ts[0], recs[0])
          && Fetches(c, log0 + [reqs[0]], cookies, ts[1..], reqs[1..], recs[1..]))
  }

  /** The loop over the listing with cookies set: the requests it appends to the log and the
      records it appends after `acc` are the detail fetches of the listed entries that pass
      the hash filter, in listing order. */
  lemma {:induction false} DetailsFetches(c: Config, s: Session, items: seq<Json>, acc: seq<TorrentInfo>,
                                          hashes: Option<seq<string>>)
    requires !NoCookies(s.cookies)
    requires DetailsSpec(c, s, items, acc, hashes).0.Ok?
    ensures var (r, s') := DetailsSpec(c, s, items, acc, hashes);
      && |s.log| <= |s'.log| && |acc| <= |r.value|
      && Fetches(c, s.log, s.cookies, ListedEntries(items, hashes), s'.log[|s.log|..], r.value[|acc|..])
    decreases |items|
  {
    DetailsLog(c, s, items, acc, hashes);
    if items != [] {
      var (r1, s1) := StepSpec(c, s, acc, items[0], hashes);
      StepRecord(c, s, acc, items[0], hashes);
      DetailsLog(c, s1, items[1..], r1.value, hashes);
      DetailsFetches(c, s1, items[1..], r1.value, hashes);
      ListedEntriesCons(items, hashes);
      var (r, s') := DetailsSpec(c, s1, items[1..], r1.value, hashes);
      FetchesCons(c, s.log, s1.log, s'.log, s.cookies, ListedEntries([items[0]], hashes),
                  ListedEntries(items[1..], hashes), |acc|, r1.value, r.value);
    }
  }

  /** One turn's fetch (or none) followed by the fetches of the rest of the loop. */
  lemma FetchesCons(c: Config, log0: seq<Request>, log1: seq<Request>, log: seq<Request>, cookies: Option<Cookies>,
                    head: seq<Json>, tail: seq<Json>, n: nat, r1: seq<TorrentInfo>, r: seq<TorrentInfo>)
    requires |head| <= 1
    requires |log1| == |log0| + |head| && log1[..|log0|] == log0 && |r1| == n + |head|
    requires head != [] ==> DetailFetched(c, log0, log1[|log0|], cookies, head[0], r1[n])
    requires |log1| <= |log| && log[..|log1|] == log1 && |r1| <= |r| && r[..|r1|] == r1
    requires Fetches(c, log1, cookies, tail, log[|log1|..], r[|r1|..])
    ensures Fetches(c, log0, cookies, head + tail, log[|log0|..], r[n..])
  {
    if head == [] {
      assert log1 == log0;
      assert head + tail == tail;
    } else {
      var reqs := log[|log0|..];
      var recs := r[n..];
      assert reqs[0] == log1[|log0|];
      assert recs[0] == r1[n];
      assert log0 + [reqs[0]] == log1;
      assert reqs[1..] == log[|log1|..];
      assert recs[1..] == r[|r1|..];
      assert (head + tail)[0] == head[0];
      assert (head + tail)[1..] == tail;
    }
  }

  /** The k-th fetch: the k-th request follows `log0` and the k requests before it. */
  lemma {:induction false} FetchesAt(c: Config, log0: seq<Request>, cookies: Option<Cookies>, ts: seq<Json>,
                                     reqs: seq<Request>, recs: seq<TorrentInfo>, k: nat)
    requires Fetches(c, log0, cookies, ts, reqs, recs)
    requires k < |ts|
    ensures k < |reqs| && k < |recs|
    ensures DetailFetched(c, log0 + reqs[..k], reqs[k], cookies, ts[k], recs[k])
    decreases k
  {
    if k > 0 {
      FetchesAt(c, log0 + [reqs[0]], cookies, ts[1..], reqs[1..], recs[1..], k - 1);
      PrefixAfterFirst(log0, reqs, k);
      assert reqs[1..][k - 1] == reqs[k] && ts[1..][k - 1] == ts[k] && recs[1..][k - 1] == recs[k];
    } else {
      assert reqs[..0] == [];
      assert log0 + [] == log0;
    }
  }

  /** The requests before the k-th: the first one, then the k - 1 after it. */
  lemma PrefixAfterFirst(log0: seq<Request>, reqs: seq<Request>, k: nat)
    requires 0 < k <= |reqs|
    ensures log0 + [reqs[0]] + reqs[1..][..k - 1] == log0 + reqs[..k]
  {
    assert reqs[..k] == [reqs[0]] + reqs[1..][..k - 1];
  }

  /** The k-th fetch, read off a log that extends `log[..m]` by the requests. */
  lemma FetchedInLog(c: Config, log: seq<Request>, m: nat, cookies: Option<Cookies>, ts: seq<Json>,
                     r: seq<TorrentInfo>, k: nat)
    requires m <= |log| && Fetches(c, log[..m], cookies, ts, log[m..], r)
    requires k < |ts|
    ensures m + k < |log| && k < |r|
    ensures DetailFetched(c, log[..m + k], log[m + k], cookies, ts[k], r[k])
  {
    FetchesAt(c, log[..m], cookies, ts, log[m..], r, k);
    assert log[..m] + log[m..][..k] == log[..m + k];
    assert log[m..][k] == log[m + k];
  }

  /** `method_get_torrents` lists once and then asks once per reported torrent (N + 1
      requests when already logged in), the listing first. */
  lemma GetTorrentsLog(c: Config, s: Session, hashes: Option<seq<string>>)
    requires !NoCookies(s.cookies)
    requires GetTorrentsSpec(c, s, hashes).0.Ok?
    ensures var (r, s') := GetTorrentsSpec(c, s, hashes);
      && |s'.log| == |s.log| + 1 + |r.value|
      && s'.cookies == s.cookies
      && s'.log[..|s.log|] == s.log
      && s'.log[|s.log|] == QueryRequest(UrlJoin(c.url, "query/torrents"), s.cookies, ListParams(), None)
  {
    ListingQuery(c, s);
    GetTorrentsDetails(c, s, hashes);
    var (l, s1) := AuthQueryJsonSpec(c, s, ListParams(), None);
    var items := Elements(l.value).value;
    DetailsLog(c, s1, items, [], hashes);
    var (r, s') := DetailsSpec(c, s1, items, [], hashes);
    assert s'.log[..|s.log|] == s1.log[..|s.log|];
    assert s'.log[|s.log|] == s1.log[|s.log|];
  }

  /** After the listing request, `method_get_torrents` sends exactly the detail fetches of
      the listed entries that pass the hash filter, and returns their records in order: the
      record at position k is built from the k-th such entry and the answer to the (k + 2)-th
      request, its detail GET (read off one position with `FetchedInLog`; the first request
      is in `GetTorrentsLog`). */
  lemma GetTorrentsShape(c: Config, s: Session, hashes: Option<seq<string>>)
    requires !NoCookies(s.cookies)
    requires GetTorrentsSpec(c, s, hashes).0.Ok?
    ensures var (l, s1) := AuthQueryJsonSpec(c, s, ListParams(), None);
      && l.Ok? && Elements(l.value).Ok?
      && var (r, s') := GetTorrentsSpec(c, s, hashes);
         var ts := ListedEntries(Elements(l.value).value, hashes);
         && |r.value| == |ts| && |s'.log| == |s.log| + 1 + |ts|
         && Fetches(c, s'.log[..|s.log| + 1], s.cookies, ts, s'.log[|s.log| + 1..], r.value)
  {
    ListingQuery(c, s);
    GetTorrentsDetails(c, s, hashes);
    var (l, s1) := AuthQueryJsonSpec(c, s, ListParams(), None);
    var items := Elements(l.value).value;
    DetailsLog(c, s1, items, [], hashes);
    DetailsFetches(c, s1, items, [], hashes);
    var (r, s') := DetailsSpec(c, s1, items, [], hashes);
    assert r.value[0..] == r.value;
    assert s'.log[..|s.log| + 1] == s1.log;
  }

  /** With cookies set, a successful `method_get_torrents` is the listing query followed by
      the loop over its entries. */
  lemma GetTorrentsDetails(c: Config, s: Session, hashes: Option<seq<string>>)
    requires GetTorrentsSpec(c, s, hashes).0.Ok?
    ensures var (l, s1) := AuthQueryJsonSpec(c, s, ListParams(), None);
      && l.Ok? && Elements(l.value).Ok?
      && GetTorrentsSpec(c, s, hashes) == DetailsSpec(c, s1, Elements(l.value).value, [], hashes)
  {
  }

  /** With cookies set, the listing is one GET of `query/torrents`. */
  lemma ListingQuery(c: Config, s: Session)
    requires !NoCookies(s.cookies)
    ensures AuthQueryJsonSpec(c, s, ListParams(), None).1
      == Session(s.cookies, s.log + [QueryRequest(UrlJoin(c.url, "query/torrents"), s.cookies, ListParams(), None)])
  {
    var p := ListParams();
    AuthQueryLogsIn(c, s, p, None);
    assert KnownAction(p) && "action_params" !in p;
    assert GetRequestUrl(c.url, p) == Ok(UrlJoin(c.url, "query/torrents"));
  }

  // ---------------------------------------------------------------------------
  // method_add_torrent, method_remove_torrent, method_get_version

  /** The multipart parts of an upload: the torrent under `torrents`, and `savepath` exactly
      when a download directory is given. */
  function AddFiles(torrent: Dict, downloadTo: Option<string>): (r: Result<Dict, Failure>)
    ensures r.Ok? <==> "torrent" in torrent
    ensures r.Err? ==> r.error == KeyError("torrent")
    ensures r.Ok? ==> "torrents" in r.value && r.value["torrents"] == torrent["torrent"]
    ensures r.Ok? ==> ("savepath" in r.value <==> downloadTo.Some?)
    ensures r.Ok? && downloadTo.Some? ==> r.value["savepath"] == JStr(downloadTo.value)
    ensures r.Ok? ==> forall k :: k in r.value ==> k == "torrents" || k == "savepath"
  {
    if "torrent" !in torrent then Err(KeyError("torrent"))
    else
      var fileData := map["torrents" := torrent["torrent"]];
      Ok(if downloadTo.Some? then fileData["savepath" := JStr(downloadTo.value)] else fileData)
  }

  /** `method_add_torrent(torrent, download_to, params)`; `params` is not used. */
  function AddTorrentSpec(c: Config, s: Session, torrent: Dict, downloadTo: Option<string>, params: Option<Dict>)
    : (Result<Response, Failure>, Session)
  {
    match AddFiles(torrent, downloadTo)
    case Err(e) => (Err(e), s)
    case Ok(f) => AuthQuerySpec(c, s, BuildParams(Some("add_torrent"), None), Some(f))
  }

  /** With cookies set, an upload is one POST of the parts to the upload endpoint. */
  lemma AddTorrentRequest(c: Config, s: Session, torrent: Dict, downloadTo: Option<string>, params: Option<Dict>)
    requires !NoCookies(s.cookies) && "torrent" in torrent
    ensures var req := AddTorrentSpec(c, s, torrent, downloadTo, params).1.log[|s.log|];
      && |AddTorrentSpec(c, s, torrent, downloadTo, params).1.log| == |s.log| + 1
      && req.verb == POST
      && req.url == UrlJoin(c.url, "command/upload")
      && req.files == Some(AddFiles(torrent, downloadTo).value)
  {
    var p := BuildParams(Some("add_torrent"), None);
    assert KnownAction(p);
    AuthQueryLogsIn(c, s, p, Some(AddFiles(torrent, downloadTo).value));
  }

  /** The removal action: with data or without. */
  function RemoveParams(hash: string, withData: bool): (p: Dict)
    ensures KnownAction(p) && "data" in p && "action_params" !in p
    ensures p["action"] == JStr(if withData then "rem_torrent_with_data" else "rem_torrent")
    ensures p["data"] == JObj(map["hashes" := JStr(hash)])
  {
    var action := if withData then "rem_torrent_with_data" else "rem_torrent";
    BuildParams(Some(action), Some(map["data" := JObj(map["hashes" := JStr(hash)])]))
  }

  /** `method_remove_torrent(hash_str, with_data)`. */
  function RemoveTorrentSpec(c: Config, s: Session, hash: string, withData: bool): (Result<Response, Failure>, Session) {
    AuthQuerySpec(c, s, RemoveParams(hash, withData), None)
  }

  /** Removal posts the hash to `command/deletePerm` when the data goes too, and to
      `command/delete` otherwise. */
  lemma RemoveTorrentRequest(c: Config, s: Session, hash: string, withData: bool)
    requires !NoCookies(s.cookies)
    ensures var req := RemoveTorrentSpec(c, s, hash, withData).1.log[|s.log|];
      && |RemoveTorrentSpec(c, s, hash, withData).1.log| == |s.log| + 1
      && req.verb == POST
      && req.url == UrlJoin(c.url, if withData then "command/deletePerm" else "command/delete")
      && req.data == Some(JObj(map["hashes" := JStr(hash)]))
  {
    var p := RemoveParams(hash, withData);
    AuthQueryLogsIn(c, s, p, None);
    var segment := if withData then "command/deletePerm" else "command/delete";
    assert GetRequestUrl(c.url, p) == Ok(UrlJoin(c.url, segment));
    QuerySends(c, s, p, None);
  }

  /** `method_get_version()`: the body of the version endpoint. */
  function GetVersionSpec(c: Config, s: Session): (Result<string, Failure>, Session) {
    var (q, s1) := AuthQuerySpec(c, s, BuildParams(Some("api_version_path"), None), None);
    if q.Err? then (Err(q.error), s1) else (Ok(q.value.text), s1)
  }

  // ---------------------------------------------------------------------------
  // The client object

  class QBittorrentRPC {
    var cookies: Option<Cookies>
    const url: string
    const host: string
    const port: int
    const user: string
    const password: string
    const enabled: bool
    const transport: Transport

    constructor (url: Option<string>, host: string, port: int, user: string, password: string,
                 enabled: bool, transport: Transport)
      ensures this.url == (if url.Some? then url.value else DefaultUrl(host, port))
      ensures this.host == host && this.port == port && this.enabled == enabled
      ensures this.user == user && this.password == password && this.transport == transport
      ensures cookies == Some(map[])
    {
      this.cookies := Some(map[]);
      this.user := user;
      this.password := password;
      this.enabled := enabled;
      this.host := host;
      this.port := port;
      this.url := if url.Some? then url.value else DefaultUrl(host, port);
      this.transport := transport;
    }

    function Cfg(): Config {
      Config(url, user, password, transport.server)
    }

    function State(): Session
      reads this, transport
    {
      Session(cookies, transport.log)
    }

    method Query(params: Dict, files: Option<Dict>) returns (r: Result<Response, Failure>)
      modifies transport
      ensures (r, State()) == QuerySpec(Cfg(), old(State()), params, files)
    {
      if "action" !in params {
        return Err(KeyError("action"));
      }
      var u := GetRequestUrl(url, params);
      if u.Err? {
        return Err(RpcException(QBittorrent, u.error));
      }
      var req := QueryRequest(u.value, cookies, params, files);
      var reply := transport.Send(req);
      r := QueryOutcome(reply);
    }

    method Login() returns (r: Result<(), Failure>)
      modifies this, transport
      ensures (r, State()) == LoginSpec(Cfg(), old(State()))
    {
      var q := Query(LoginParams(Cfg()), None);
      if q.Err? {
        return Err(q.error);
      }
      if q.value.text != "Ok." || q.value.cookies.None? {
        return Err(RpcException(QBittorrent, AuthRejected));
      }
      cookies := q.value.cookies;
      r := Ok(());
    }

    method AuthQuery(params: Dict, files: Option<Dict>) returns (r: Result<Response, Failure>)
      modifies this, transport
      ensures (r, State()) == AuthQuerySpec(Cfg(), old(State()), params, files)
    {
      if NoCookies(cookies) {
        var l := Login();
        if l.Err? {
          return Err(l.error);
        }
      }
      r := Query(params, files);
    }

    method AuthQueryJson(params: Dict, files: Option<Dict>) returns (r: Result<Json, Failure>)
      modifies this, transport
      ensures (r, State()) == AuthQueryJsonSpec(Cfg(), old(State()), params, files)
    {
      var q := AuthQuery(params, files);
      if q.Err? {
        return Err(q.error);
      }
      if q.value.json.None? {
        return Err(ValueError);
      }
      r := Ok(q.value.json.value);
    }

    method Step(item: Json, acc: seq<TorrentInfo>, hashes: Option<seq<string>>) returns (r: Result<seq<TorrentInfo>, Failure>)
      modifies this, transport
      ensures (r, State()) == StepSpec(Cfg(), old(State()), acc, item, hashes)
    {
      var t :- NormalizeAny(FIELDS_MAP, item);
      var h :- Subscript(t, "hash");
      if !Wanted(hashes, h) {
        return Ok(acc);
      }
      var a := AuthQueryJson(DetailParams(h), None);
      if a.Err? {
        return Err(a.error);
      }
      var info :- Record(t, h, a.value);
      r := Ok(acc + [info]);
    }

    method MethodGetTorrents(hashes: Option<seq<string>>) returns (r: Result<seq<TorrentInfo>, Failure>)
      modifies this, transport
      ensures (r, State()) == GetTorrentsSpec(Cfg(), old(State()), hashes)
    {
      var listing := AuthQueryJson(ListParams(), None);
      if listing.Err? {
        return Err(listing.error);
      }
      var items :- Elements(listing.value);
      ghost var s1 := State();
      var infos: seq<TorrentInfo> := [];
      for i := 0 to |items|
        invariant DetailsSpec(Cfg(), s1, items, [], hashes) == DetailsSpec(Cfg(), State(), items[i..], infos, hashes)
      {
        assert items[i..][1..] == items[i + 1..];
        var next := Step(items[i], infos, hashes);
        if next.Err? {
          return next;
        }
        infos := next.value;
      }
      r := Ok(infos);
    }

    method MethodAddTorrent(torrent: Dict, downloadTo: Option<string>, params: Option<Dict>) returns (r: Result<Response, Failure>)
      modifies this, transport
      ensures (r, State()) == AddTorrentSpec(Cfg(), old(State()), torrent, downloadTo, params)
    {
      var files :- AddFiles(torrent, downloadTo);
      r := AuthQuery(BuildParams(Some("add_torrent"), None), Some(files));
    }

    method MethodRemoveTorrent(hash: string, withData: bool) returns (r: Result<Response, Failure>)
      modifies this, transport
      ensures (r, State()) == RemoveTorrentSpec(Cfg(), old(State()), hash, withData)
    {
      r := AuthQuery(RemoveParams(hash, withData), None);
    }

    method MethodGetVersion() returns (r: Result<string, Failure>)
      modifies this, transport
      ensures (r, State()) == GetVersionSpec(Cfg(), old(State()))
    {
      var q := AuthQuery(BuildParams(Some("api_version_path"), None), None);
      if q.Err? {
        return Err(q.error);
      }
      r := Ok(q.value.text);
    }

    /** `test_configuration()`: the version request. */
    method TestConfiguration() returns (r: Result<string, Failure>)
      modifies this, transport
      ensures (r, State()) == GetVersionSpec(Cfg(), old(State()))
    {
      r := MethodGetVersion();
    }
  }
}
