/** The HTTP layer the RPC clients talk through. The server is an oracle: what it answers
    may depend on everything it was sent before. */
module Http {
  import opened Wrappers
  import opened Json
  import opened Text

  type Cookies = map<string, string>

  datatype Verb = GET | POST

  /** One request: its method and URL, the `cookies=`, `headers=` and `auth=` arguments,
      form fields (`data=` with a dict), multipart parts (`files=`) and a JSON document
      (`json=`, or `data=json.dumps(...)`). */
  datatype Request = Request(
    verb: Verb,
    url: string,
    cookies: Option<Cookies>,
    headers: map<string, string>,
    auth: Option<(Option<string>, Option<string>)>,
    data: Option<Json>,
    files: Option<Dict>,
    body: Option<Json>)

  /** An answer; `json` is `None` when the body is not JSON (then `.json()` raises
      `ValueError`). */
  datatype Response = Response(
    status: int,
    text: string,
    cookies: Option<Cookies>,
    headers: map<string, string>,
    json: Option<Json>)

  /** The server answers, or the HTTP library raises (connection refused, timeout, ...). */
  datatype Reply = Answered(response: Response) | Raised(message: string)

  type Server = (seq<Request>, Request) -> Reply

  /** `not cookies`: `None` or an empty jar. */
  predicate NoCookies(c: Option<Cookies>) {
    c.None? || c.value == map[]
  }

  class Transport {
    const server: Server
    /** Every request sent so far, oldest first. */
    var log: seq<Request>

    constructor (server: Server)
      ensures this.server == server && log == []
    {
      this.server := server;
      log := [];
    }

    method Send(req: Request) returns (reply: Reply)
      modifies this
      ensures log == old(log) + [req]
      ensures reply == server(old(log), req)
    {
      reply := server(log, req);
      log := log + [req];
    }
  }

  // ---------------------------------------------------------------------------
  // urljoin

  /** The index of the last occurrence of `c` in `s`, or -1. */
  function LastIndexOf(s: string, c: char): (i: int)
    ensures -1 <= i < |s|
    ensures i >= 0 ==> s[i] == c
    ensures forall k :: i < k < |s| ==> s[k] != c
    decreases |s|
  {
    if s == [] then -1
    else if s[|s| - 1] == c then |s| - 1
    else LastIndexOf(s[..|s| - 1], c)
  }

  /** The index of the first `://` in `s` at or after `from`, or -1. */
  function FindSchemeEnd(s: string, from: nat): (i: int)
    ensures i == -1 || (from <= i && OccursAt(s, "://", i))
    decreases |s| - from
  {
    if from + 3 > |s| then -1
    else if s[from..from + 3] == "://" then from
    else FindSchemeEnd(s, from + 1)
  }

  /** Where the path of `base` starts: after `scheme://authority` when there is a `://`. */
  function PathStart(base: string): (p: nat)
    ensures p <= |base|
  {
    var i := FindSchemeEnd(base, 0);
    if i >= 0 then i + 3 + FirstSlash(base[i + 3..]) else 0
  }

  /** The index of the first `/` in `s`, or `|s|`. */
  function FirstSlash(s: string): (j: nat)
    ensures j <= |s|
    ensures j < |s| ==> s[j] == '/'
    ensures forall k :: 0 <= k < j ==> s[k] != '/'
    decreases |s|
  {
    if s == [] then 0
    else if s[0] == '/' then 0
    else 1 + FirstSlash(s[1..])
  }

  /** `urljoin(base, ref)` for a relative path `ref`: `ref` replaces the last segment of the
      base path; a base with no path gets `/` first. */
  function UrlJoin(base: string, ref: string): (r: string)
    ensures |r| >= |ref| && r[|r| - |ref|..] == ref
    ensures base != [] && base[|base| - 1] == '/' ==> r == base + ref
  {
    if base != [] && base[|base| - 1] == '/' then base + ref
    else
      var p := PathStart(base);
      var slash := LastIndexOf(base, '/');
      if p < |base| && slash >= p then base[..slash + 1] + ref
      else if p == |base| && p > 0 then base + "/" + ref
      else
        var dir := if slash >= 0 then base[..slash + 1] else [];
        dir + ref
  }
}
