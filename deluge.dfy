/** The Deluge client, through the deluge-webapi plugin: JSON-RPC documents with `id` 1, a
    session cookie obtained by a lazy login, torrent listings normalized in place. */
module Deluge {
  import opened Wrappers
  import opened Json
  import opened Errors
  import opened Text
  import opened Http
  import opened BaseRpc

  const ALIAS: string := "deluge"
  const HEADERS: map<string, string> := map["Accept" := "application/json", "Content-Type" := "application/json"]
  const FIELDS_MAP: FieldsMap := [("save_path", "download_to")]

  const DEFAULT_HOST: string := "localhost"
  const DEFAULT_PORT: int := 8112

  /** The torrent fields `method_get_torrents` asks for. */
  const TORRENT_FIELDS: seq<string> := ["name", "comment", "hash", "save_path"]

  /** `'http://%s:%s/json' % (host, port)`. */
  function DefaultUrl(host: string, port: int): string {
    "http://" + host + ":" + IntToString(port) + "/json"
  }

  /** `build_request_payload`: exactly `id` 1, the method, and the parameters (an empty list
      when none are given). */
  function BuildRequestPayload(name: string, params: Option<Json>): (d: Dict)
    ensures d.Keys == {"id", "method", "params"}
    ensures d["id"] == JInt(1)
    ensures d["method"] == JStr(name)
    ensures params.Some? ==> d["params"] == params.value
    ensures params.None? ==> d["params"] == JList([])
  {
    var document := map["id" := JInt(1), "method" := JStr(name)];
    var params := if params.None? then JList([]) else params.value;
    document["params" := params]
  }

  // ---------------------------------------------------------------------------
  // The session

  datatype Config = Config(url: string, password: Option<string>, server: Server)

  /** The cookie jar the client holds (`{}` at first, then whatever the login answer set),
      and the transport's request log. */
  datatype Session = Session(cookies: Option<Cookies>, log: seq<Request>)

  /** The POST `query_` sends: the document as JSON, the cookie jar, the JSON headers. */
  function PostRequest(c: Config, cookies: Option<Cookies>, data: Dict): Request {
    Request(POST, c.url, cookies, HEADERS, None, None, None, Some(JObj(data)))
  }

  /** `query_(data)`: an exception of the HTTP layer becomes an RPC exception. */
  function SendSpec(c: Config, s: Session, data: Dict): (Result<Response, Failure>, Session) {
    var req := PostRequest(c, s.cookies, data);
    var s1 := Session(s.cookies, s.log + [req]);
    match c.server(s.log, req)
    case Raised(msg) => (Err(RpcException(Deluge, TransportFailed(msg))), s1)
    case Answered(resp) => (Ok(resp), s1)
  }

  /** `response.json()`: a body that is not JSON raises `ValueError`. */
  function Body(resp: Response): (r: Result<Json, Failure>)
    ensures r.Ok? <==> resp.json.Some?
    ensures r.Ok? ==> r.value == resp.json.value
    ensures r.Err? ==> r.error == ValueError
  {
    if resp.json.None? then Err(ValueError) else Ok(resp.json.value)
  }

  /** The answer of `query`: the `result` of a JSON object whose `error` is null; a non-null
      `error` is raised. */
  function Decode(resp: Response): (r: Result<Json, Failure>)
    ensures r.Ok? <==>
      && resp.json.Some? && resp.json.value.JObj?
      && "error" in resp.json.value.fields && resp.json.value.fields["error"] == JNull
      && "result" in resp.json.value.fields
    ensures r.Ok? ==> r.value == resp.json.value.fields["result"]
    ensures resp.json.Some? && resp.json.value.JObj? && "error" in resp.json.value.fields
            && resp.json.value.fields["error"] != JNull ==>
      r == Err(RpcException(Deluge, ServerError(resp.json.value.fields["error"])))
  {
    var body :- Body(resp);
    var error :- Subscript(body, "error");
    if error != JNull then Err(RpcException(Deluge, ServerError(error)))
    else Subscript(body, "result")
  }

  /** The `auth.login` document, carrying the password (or `None`). */
  function LoginPayload(c: Config): Dict {
    BuildRequestPayload("auth.login", Some(JList([StrOrNull(c.password)])))
  }

  /** The `auth.check_session` document. */
  function CheckSession(): Dict {
    BuildRequestPayload("auth.check_session", None)
  }

  /** `response.json()['result']` of the login answer; its `error` is not looked at. */
  function LoginResult(resp: Response): Result<Json, Failure> {
    var body :- Body(resp);
    Subscript(body, "result")
  }

  /** `query(data)`. With an empty jar it first logs in (the login's return value is
      ignored, its exceptions are not); then it sends the document and decodes the answer.
      `fuel` is how many more logins may be nested inside one another before Python's
      recursion limit raises `RecursionError`. */
  function QuerySpec(c: Config, s: Session, data: Dict, fuel: nat): (Result<Json, Failure>, Session)
    decreases fuel, 0
  {
    var (login, s1) :=
      if !NoCookies(s.cookies) then (Ok(JNull), s)
      else if fuel == 0 then (Err(RecursionError), s)
      else LoginSpec(c, s, fuel - 1);
    if login.Err? then (Err(login.error), s1)
    else if "method" !in data then (Err(KeyError("method")), s1)
    else
      var (sent, s2) := SendSpec(c, s1, data);
      if sent.Err? then (Err(sent.error), s2) else (Decode(sent.value), s2)
  }

  /** `method_login()`: sends the password with `query_` (no login check, no error check); a
      truthy `result` makes the client take the answer's cookies and return the session
      check, any other `result` returns `False` with the jar unchanged. */
  function LoginSpec(c: Config, s: Session, fuel: nat): (Result<Json, Failure>, Session)
    decreases fuel, 2
  {
    var (sent, s1) := SendSpec(c, s, LoginPayload(c));
    if sent.Err? then (Err(sent.error), s1)
    else
      var result := LoginResult(sent.value);
      if result.Err? then (Err(result.error), s1)
      else if Truthy(result.value) then IsConnectedSpec(c, Session(sent.value.cookies, s1.log), fuel)
      else (Ok(JBool(false)), s1)
  }

  /** `method_is_connected()`: `auth.check_session` through `query`; a falsy answer raises. */
  function IsConnectedSpec(c: Config, s: Session, fuel: nat): (Result<Json, Failure>, Session)
    decreases fuel, 1
  {
    var (r, s1) := QuerySpec(c, s, CheckSession(), fuel);
    if r.Ok? && !Truthy(r.value) then (Err(RpcException(Deluge, NotConnected)), s1)
    else (r, s1)
  }

  /** With a non-empty jar, `query` sends exactly the document, with that jar, and nothing
      else; the jar stays. */
  lemma QueryWithSession(c: Config, s: Session, data: Dict, fuel: nat)
    requires !NoCookies(s.cookies) && "method" in data
    ensures var reply := c.server(s.log, PostRequest(c, s.cookies, data));
      var (r, s') := QuerySpec(c, s, data, fuel);
      && s' == Session(s.cookies, s.log + [PostRequest(c, s.cookies, data)])
      && (reply.Answered? ==> r == Decode(reply.response))
      && (reply.Raised? ==> r == Err(RpcException(Deluge, TransportFailed(reply.message))))
  {
  }

  /** The calls only ever append to the request log. */
  lemma {:induction false} QueryLogGrows(c: Config, s: Session, data: Dict, fuel: nat)
    ensures s.log <= QuerySpec(c, s, data, fuel).1.log
    decreases fuel, 0
  {
    var (login, s1) :=
      if !NoCookies(s.cookies) then (Ok(JNull), s)
      else if fuel == 0 then (Err(RecursionError), s)
      else LoginSpec(c, s, fuel - 1);
    if NoCookies(s.cookies) && fuel > 0 {
      LoginLogGrows(c, s, fuel - 1);
    }
    assert s.log <= s1.log;
  }

  lemma {:induction false} LoginLogGrows(c: Config, s: Session, fuel: nat)
    ensures s.log <= LoginSpec(c, s, fuel).1.log
    decreases fuel, 2
  {
    var (sent, s1) := SendSpec(c, s, LoginPayload(c));
    if sent.Ok? && LoginResult(sent.value).Ok? && Truthy(LoginResult(sent.value).value) {
      IsConnectedLogGrows(c, Session(sent.value.cookies, s1.log), fuel);
    }
  }

  lemma {:induction false} IsConnectedLogGrows(c: Config, s: Session, fuel: nat)
    ensures s.log <= IsConnectedSpec(c, s, fuel).1.log
    decreases fuel, 1
  {
    QueryLogGrows(c, s, CheckSession(), fuel);
  }

  /** With an empty jar and room for a login, the first request `query` sends is the login
      with the jar as it is. */
  lemma QueryLogsInFirst(c: Config, s: Session, data: Dict, fuel: nat)
    requires NoCookies(s.cookies) && fuel > 0
    ensures var s' := QuerySpec(c, s, data, fuel).1;
      |s'.log| > |s.log| && s'.log[|s.log|] == PostRequest(c, s.cookies, LoginPayload(c))
  {
    var req := PostRequest(c, s.cookies, LoginPayload(c));
    var (sent, s1) := SendSpec(c, s, LoginPayload(c));
    assert s1.log == s.log + [req];
    LoginLogGrows(c, s, fuel - 1);
    var (login, s2) := LoginSpec(c, s, fuel - 1);
    assert s1.log <= s2.log by {
      if sent.Ok? && LoginResult(sent.value).Ok? && Truthy(LoginResult(sent.value).value) {
        IsConnectedLogGrows(c, Session(sent.value.cookies, s1.log), fuel - 1);
      }
    }
    assert s2.log[|s.log|] == req;
  }

  /** The outcome of `method_login` from the answer to the login request: a falsy `result`
      gives `False` and keeps the jar; a truthy one installs the answer's cookies and
      continues with the session check. */
  lemma LoginOutcome(c: Config, s: Session, fuel: nat, resp: Response)
    requires c.server(s.log, PostRequest(c, s.cookies, LoginPayload(c))) == Answered(resp)
    requires LoginResult(resp).Ok?
    ensures var s1 := Session(s.cookies, s.log + [PostRequest(c, s.cookies, LoginPayload(c))]);
      && (!Truthy(LoginResult(resp).value) ==> LoginSpec(c, s, fuel) == (Ok(JBool(false)), s1))
      && (Truthy(LoginResult(resp).value) ==>
            LoginSpec(c, s, fuel) == IsConnectedSpec(c, Session(resp.cookies, s1.log), fuel))
  {
  }

  /** `method_is_connected` returns the `check_session` result when it is truthy and raises
      otherwise. */
  lemma IsConnectedOutcome(c: Config, s: Session, fuel: nat)
    ensures var (q, _) := QuerySpec(c, s, CheckSession(), fuel);
      var (r, _) := IsConnectedSpec(c, s, fuel);
      && (q.Ok? && Truthy(q.value) ==> r == q)
      && (q.Ok? && !Truthy(q.value) ==> r == Err(RpcException(Deluge, NotConnected)))
      && (q.Err? ==> r == q)
  {
  }

  /** A server that accepts every login without setting a cookie, and answers every call
      with `{"result": true, "error": null}`. */
  ghost predicate AcceptsWithoutCookie(server: Server) {
    forall h, req ::
      && server(h, req).Answered?
      && NoCookies(server(h, req).response.cookies)
      && server(h, req).response.json == Some(JObj(map["result" := JBool(true), "error" := JNull]))
  }

  /** Against such a server, a call made with an empty jar logs in, checks the session
      through `query`, finds the jar still empty, logs in again, and so on: whatever the
      recursion budget, it ends in `RecursionError` and the requested method is never sent. */
  lemma {:induction false} LoginLoops(c: Config, s: Session, data: Dict, fuel: nat)
    requires AcceptsWithoutCookie(c.server) && NoCookies(s.cookies)
    ensures QuerySpec(c, s, data, fuel).0 == Err(RecursionError)
    decreases fuel
  {
    if fuel > 0 {
      var req := PostRequest(c, s.cookies, LoginPayload(c));
      var resp := c.server(s.log, req).response;
      var s1 := Session(resp.cookies, s.log + [req]);
      assert "result" in map["result" := JBool(true), "error" := JNull];
      assert LoginResult(resp) == Ok(JBool(true));
      LoginLoops(c, s1, CheckSession(), fuel - 1);
      assert LoginSpec(c, s, fuel - 1) == IsConnectedSpec(c, s1, fuel - 1);
    }
  }

  // ---------------------------------------------------------------------------
  // method_get_torrents

  /** The `webapi.get_torrents` document: `[hashes or None, fields]`. */
  function GetTorrentsPayload(hashes: Option<seq<string>>): Dict {
    var ids := if hashes.Some? then StrList(hashes.value) else JNull;
    BuildRequestPayload("webapi.get_torrents", Some(JList([ids, StrList(TORRENT_FIELDS)])))
  }

  /** The first `n` torrents after `normalize_field_names`; the first failure stops it. */
  function NormalizedPrefix(items: seq<Json>, n: nat): Result<seq<Json>, Failure>
    requires n <= |items|
  {
    if n == 0 then Ok([])
    else
      var prev :- NormalizedPrefix(items, n - 1);
      var t :- NormalizeAny(FIELDS_MAP, items[n - 1]);
      Ok(prev + [t])
  }

  /** A failure while normalizing is the failure of the whole loop. */
  lemma {:induction false} NormalizedPrefixStops(items: seq<Json>, k: nat, n: nat)
    requires k <= n <= |items|
    requires NormalizedPrefix(items, k).Err?
    ensures NormalizedPrefix(items, n) == NormalizedPrefix(items, k)
    decreases n
  {
    if n > k {
      NormalizedPrefixStops(items, k, n - 1);
    }
  }

  /** Every torrent is normalized on its own, and the list keeps its order and length. */
  lemma {:induction false} NormalizedPrefixEach(items: seq<Json>, n: nat)
    requires n <= |items|
    requires NormalizedPrefix(items, n).Ok?
    ensures |NormalizedPrefix(items, n).value| == n
    ensures forall k :: 0 <= k < n ==> NormalizeAny(FIELDS_MAP, items[k]) == Ok(NormalizedPrefix(items, n).value[k])
    decreases n
  {
    if n > 0 {
      NormalizedPrefixEach(items, n - 1);
    }
  }

  /** `result['torrents']` after the loop normalized each of its torrents in place. */
  function TorrentsOf(result: Json): Result<Json, Failure> {
    var torrents :- Subscript(result, "torrents");
    var items :- Elements(torrents);
    var out :- NormalizedPrefix(items, |items|);
    Ok(if torrents.JList? then JList(out) else torrents)
  }

  /** A listed torrent that is a dict comes back with `download_to` holding its `save_path`,
      which stays; every torrent is normalized, and the order is the server's. */
  lemma TorrentsRenamed(result: Json)
    requires TorrentsOf(result).Ok?
    requires result.JObj? && "torrents" in result.fields && result.fields["torrents"].JList?
    ensures var items := result.fields["torrents"].items;
      var out := TorrentsOf(result).value;
      && out.JList? && |out.items| == |items|
      && (forall k :: 0 <= k < |items| && items[k].JObj? ==>
            out.items[k] == JObj(Normalized(FIELDS_MAP, items[k].fields)))
      && (forall k :: 0 <= k < |items| && items[k].JObj? && "save_path" in items[k].fields ==>
            && out.items[k].JObj?
            && "download_to" in out.items[k].fields
            && out.items[k].fields["download_to"] == items[k].fields["save_path"]
            && out.items[k].fields["save_path"] == items[k].fields["save_path"])
  {
    var items := result.fields["torrents"].items;
    NormalizedPrefixEach(items, |items|);
    assert Disjoint(FIELDS_MAP) && DistinctTargets(FIELDS_MAP);
    forall k | 0 <= k < |items| && items[k].JObj? && "save_path" in items[k].fields
      ensures Normalized(FIELDS_MAP, items[k].fields)["download_to"] == items[k].fields["save_path"]
      ensures Normalized(FIELDS_MAP, items[k].fields)["save_path"] == items[k].fields["save_path"]
    {
      NormalizedTarget(FIELDS_MAP, items[k].fields, 0);
      NormalizedKeepsSources(FIELDS_MAP, items[k].fields, 0);
    }
  }

  /** `method_get_torrents(hashes)`. */
  function GetTorrentsSpec(c: Config, s: Session, hashes: Option<seq<string>>, fuel: nat)
    : (Result<Json, Failure>, Session)
  {
    var (q, s1) := QuerySpec(c, s, GetTorrentsPayload(hashes), fuel);
    if q.Err? then (Err(q.error), s1) else (TorrentsOf(q.value), s1)
  }

  /** With a session, the one request sent asks for the given hashes (or all torrents) and
      the four fields. */
  lemma GetTorrentsRequest(c: Config, s: Session, hashes: Option<seq<string>>, fuel: nat)
    requires !NoCookies(s.cookies)
    ensures var s' := GetTorrentsSpec(c, s, hashes, fuel).1;
      var body := s'.log[|s'.log| - 1].body.value.fields;
      && |s'.log| == |s.log| + 1
      && body["method"] == JStr("webapi.get_torrents")
      && body["params"].JList? && |body["params"].items| == 2
      && body["params"].items[0] == (if hashes.Some? then StrList(hashes.value) else JNull)
      && body["params"].items[1] == StrList(TORRENT_FIELDS)
  {
    QueryWithSession(c, s, GetTorrentsPayload(hashes), fuel);
  }

  // ---------------------------------------------------------------------------
  // method_add_torrent, method_remove_torrent, method_get_version

  /** The `webapi.add_torrent` parameters: the base64 dump and the download location. */
  function AddParams(torrent: Dict, downloadTo: Option<string>, base64: Json -> string): (r: Result<Json, Failure>)
    ensures r.Ok? <==> "torrent" in torrent
    ensures r.Ok? ==> r.value == JList([JStr(base64(torrent["torrent"])),
                                        JObj(map["download_location" := StrOrNull(downloadTo)])])
  {
    var raw :- Subscript(JObj(torrent), "torrent");
    Ok(JList([JStr(base64(raw)), JObj(map["download_location" := StrOrNull(downloadTo)])]))
  }

  /** `method_add_torrent(torrent, download_to)`. */
  function AddTorrentSpec(c: Config, s: Session, torrent: Dict, downloadTo: Option<string>,
                          base64: Json -> string, fuel: nat): (Result<Json, Failure>, Session)
  {
    var params := AddParams(torrent, downloadTo, base64);
    if params.Err? then (Err(params.error), s)
    else QuerySpec(c, s, BuildRequestPayload("webapi.add_torrent", Some(params.value)), fuel)
  }

  /** `method_remove_torrent(hash_str, with_data)`. */
  function RemoveTorrentSpec(c: Config, s: Session, hash: string, withData: bool, fuel: nat)
    : (Result<Json, Failure>, Session)
  {
    QuerySpec(c, s, BuildRequestPayload("webapi.remove_torrent", Some(JList([JStr(hash), JBool(withData)]))), fuel)
  }

  /** `method_get_version()`. */
  function GetVersionSpec(c: Config, s: Session, fuel: nat): (Result<Json, Failure>, Session) {
    QuerySpec(c, s, BuildRequestPayload("webapi.get_api_version", None), fuel)
  }

  /** Adding a torrent with a session sends one request, whose parameters are the dump and
      the download location; a torrent without content sends nothing. */
  lemma AddTorrentRequest(c: Config, s: Session, torrent: Dict, downloadTo: Option<string>,
                          base64: Json -> string, fuel: nat)
    requires !NoCookies(s.cookies)
    ensures "torrent" !in torrent ==> AddTorrentSpec(c, s, torrent, downloadTo, base64, fuel) == (Err(KeyError("torrent")), s)
    ensures "torrent" in torrent ==>
      var s' := AddTorrentSpec(c, s, torrent, downloadTo, base64, fuel).1;
      var body := s'.log[|s'.log| - 1].body.value.fields;
      && |s'.log| == |s.log| + 1
      && body["method"] == JStr("webapi.add_torrent")
      && body["params"] == JList([JStr(base64(torrent["torrent"])),
                                  JObj(map["download_location" := StrOrNull(downloadTo)])])
  {
    if "torrent" in torrent {
      var params := AddParams(torrent, downloadTo, base64);
      QueryWithSession(c, s, BuildRequestPayload("webapi.add_torrent", Some(params.value)), fuel);
    }
  }

  /** Removing a torrent with a session sends one request with `[hash, with_data]`. */
  lemma RemoveTorrentRequest(c: Config, s: Session, hash: string, withData: bool, fuel: nat)
    requires !NoCookies(s.cookies)
    ensures var s' := RemoveTorrentSpec(c, s, hash, withData, fuel).1;
      var body := s'.log[|s'.log| - 1].body.value.fields;
      && |s'.log| == |s.log| + 1
      && body["method"] == JStr("webapi.remove_torrent")
      && body["params"] == JList([JStr(hash), JBool(withData)])
  {
    QueryWithSession(c, s, BuildRequestPayload("webapi.remove_torrent", Some(JList([JStr(hash), JBool(withData)]))), fuel);
  }

  // ---------------------------------------------------------------------------
  // The client object

  class DelugeRPC {
    var cookies: Option<Cookies>
    const url: string
    const host: string
    const port: int
    const user: Option<string>
    const password: Option<string>
    const enabled: bool
    const transport: Transport
    /** How many logins may be nested before Python's recursion limit is reached. */
    const loginDepth: nat

    constructor (url: Option<string>, host: string, port: int, user: Option<string>, password: Option<string>,
                 enabled: bool, transport: Transport, loginDepth: nat)
      ensures this.url == (if url.Some? then url.value else DefaultUrl(host, port))
      ensures this.host == host && this.port == port && this.enabled == enabled
      ensures this.user == user && this.password == password && this.transport == transport
      ensures this.loginDepth == loginDepth
      ensures cookies == Some(map[])
    {
      this.cookies := Some(map[]);
      this.user := user;
      this.password := password;
      this.enabled := enabled;
      this.host := host;
      this.port := port;
      this.url := if url.Some? then url.value else DefaultUrl(host, port);
      this.transport := transport;
      this.loginDepth := loginDepth;
    }

    function Cfg(): Config {
      Config(url, password, transport.server)
    }

    function State(): Session
      reads this, transport
    {
      Session(cookies, transport.log)
    }

    method Send(data: Dict) returns (r: Result<Response, Failure>)
      modifies transport
      ensures (r, State()) == SendSpec(Cfg(), old(State()), data)
    {
      var reply := transport.Send(PostRequest(Cfg(), cookies, data));
      match reply
      case Raised(msg) => r := Err(RpcException(Deluge, TransportFailed(msg)));
      case Answered(resp) => r := Ok(resp);
    }

    method Query(data: Dict, fuel: nat) returns (r: Result<Json, Failure>)
      modifies this, transport
      ensures (r, State()) == QuerySpec(Cfg(), old(State()), data, fuel)
      decreases fuel, 0
    {
      if NoCookies(cookies) {
        if fuel == 0 {
          return Err(RecursionError);
        }
        var login := Login(fuel - 1);
        if login.Err? {
          return Err(login.error);
        }
      }
      if "method" !in data {
        return Err(KeyError("method"));
      }
      var response :- Send(data);
      r := Decode(response);
    }

    method Login(fuel: nat) returns (r: Result<Json, Failure>)
      modifies this, transport
      ensures (r, State()) == LoginSpec(Cfg(), old(State()), fuel)
      decreases fuel, 2
    {
      var response :- Send(LoginPayload(Cfg()));
      var result :- LoginResult(response);
      if Truthy(result) {
        cookies := response.cookies;
        r := IsConnected(fuel);
      } else {
        r := Ok(JBool(false));
      }
    }

    method IsConnected(fuel: nat) returns (r: Result<Json, Failure>)
      modifies this, transport
      ensures (r, State()) == IsConnectedSpec(Cfg(), old(State()), fuel)
      decreases fuel, 1
    {
      var result :- Query(CheckSession(), fuel);
      if !Truthy(result) {
        return Err(RpcException(Deluge, NotConnected));
      }
      r := Ok(result);
    }

    /** Normalizes every torrent of a `webapi.get_torrents` answer, in order. */
    method NormalizeTorrents(result: Json) returns (r: Result<Json, Failure>)
      ensures r == TorrentsOf(result)
    {
      var torrents :- Subscript(result, "torrents");
      var items :- Elements(torrents);
      var out: seq<Json> := [];
      for i := 0 to |items|
        invariant NormalizedPrefix(items, i) == Ok(out)
      {
        var one: Result<Json, Failure>;
        if items[i].JObj? {
          var info := NormalizeFieldNames(FIELDS_MAP, items[i].fields);
          one := Ok(JObj(info));
        } else {
          one := NormalizeAny(FIELDS_MAP, items[i]);
        }
        if one.Err? {
          NormalizedPrefixStops(items, i + 1, |items|);
          return Err(one.error);
        }
        out := out + [one.value];
      }
      r := Ok(if torrents.JList? then JList(out) else torrents);
    }

    method MethodGetTorrents(hashes: Option<seq<string>>) returns (r: Result<Json, Failure>)
      modifies this, transport
      ensures (r, State()) == GetTorrentsSpec(Cfg(), old(State()), hashes, loginDepth)
    {
      var result :- Query(GetTorrentsPayload(hashes), loginDepth);
      r := NormalizeTorrents(result);
    }

    method MethodAddTorrent(torrent: Dict, downloadTo: Option<string>, base64: Json -> string)
      returns (r: Result<Json, Failure>)
      modifies this, transport
      ensures (r, State()) == AddTorrentSpec(Cfg(), old(State()), torrent, downloadTo, base64, loginDepth)
    {
      var params :- AddParams(torrent, downloadTo, base64);
      r := Query(BuildRequestPayload("webapi.add_torrent", Some(params)), loginDepth);
    }

    method MethodRemoveTorrent(hash: string, withData: bool) returns (r: Result<Json, Failure>)
      modifies this, transport
      ensures (r, State()) == RemoveTorrentSpec(Cfg(), old(State()), hash, withData, loginDepth)
    {
      r := Query(BuildRequestPayload("webapi.remove_torrent", Some(JList([JStr(hash), JBool(withData)]))), loginDepth);
    }

    method MethodGetVersion() returns (r: Result<Json, Failure>)
      modifies this, transport
      ensures (r, State()) == GetVersionSpec(Cfg(), old(State()), loginDepth)
    {
      r := Query(BuildRequestPayload("webapi.get_api_version", None), loginDepth);
    }

    /** `test_configuration()`: the version request. */
    method TestConfiguration() returns (r: Result<Json, Failure>)
      modifies this, transport
      ensures (r, State()) == GetVersionSpec(Cfg(), old(State()), loginDepth)
    {
      r := MethodGetVersion();
    }
  }
}
