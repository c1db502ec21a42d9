/**
 * The request-construction layer of the gateway client (pkg/gowa/client.go):
 * configuration defaults and the common header table built by `New`, the
 * request URL built by `url`, the header merge and status check of `do`,
 * the query and body handling of `getJSON` and `postJSON`, the payload
 * options and the argument checks of the endpoint methods.
 *
 * The network and the library routines whose behaviour is not modelled
 * (`url.Parse`, `url.Values.Encode`, `url.PathEscape`, `json.Marshal`,
 * `json.Decoder.Decode`) are function parameters.
 */
module Gowa {
  import opened Wrappers
  import Decimal
  import Utf8
  import Base64
  import Paths
  import NetUrl
  import Headers
  import Strings

  type Header = Headers.Header

  /** `url.Values`: each query parameter with its list of values. */
  type Values = map<string, seq<string>>

  /** Durations are nanoseconds, as `time.Duration` counts them. */
  const Millisecond: int := 1_000_000
  const Second: int := 1000 * Millisecond

  const DefaultBaseUrl: string := "http://localhost:3000"
  const DefaultTimeout: int := 30 * Second
  const JsonType: string := "application/json"

  /** The `*http.Client` a configuration may supply; `New` writes its timeout. */
  class HttpClient {
    var timeout: int

    constructor (timeout: int)
      ensures this.timeout == timeout
    {
      this.timeout := timeout;
    }
  }

  datatype Config = Config(
    baseUrl: string,
    username: string,
    password: string,
    httpClient: Option<HttpClient>,
    timeout: int)

  /** The settings `New` gives the retrying client. */
  datatype RetryClient = RetryClient(waitMin: int, waitMax: int, retryMax: int, http: HttpClient)

  datatype Client = Client(cfg: Config, retry: RetryClient, base: NetUrl.Url, common: Header)

  /** A JSON payload value: the string, boolean and integer values the endpoints send. */
  datatype Value = Str(s: string) | Bool(b: bool) | Int(i: int)

  type Payload = map<string, Value>

  datatype Method = Get | Post

  /** A request as handed to the retrying client. */
  datatype Request = Request(verb: Method, url: NetUrl.Url, header: Header, body: Option<string>)

  /** What the transport makes of a request: an error (from building or sending it) or a status and body. */
  datatype Exchange = Failed(err: string) | Received(status: int, body: string)

  datatype Response = Response(status: int, body: string)

  /** The routines outside this model, as the client calls them. */
  datatype Lib = Lib(
    send: Request -> Exchange,
    encodeQuery: Values -> string,
    pathEscape: string -> string,
    marshal: Payload -> string)

  // ---------------------------------------------------------------------
  // New

  /** The configuration `New` keeps: defaults filled in, every other field left alone. */
  function Normalized(cfg: Config): (r: Config)
    ensures r.baseUrl != "" && r.timeout != 0
    ensures cfg.baseUrl == "" ==> r.baseUrl == DefaultBaseUrl
    ensures cfg.baseUrl != "" ==> r.baseUrl == cfg.baseUrl
    ensures cfg.timeout == 0 ==> r.timeout == DefaultTimeout
    ensures cfg.timeout != 0 ==> r.timeout == cfg.timeout
    ensures r.username == cfg.username && r.password == cfg.password && r.httpClient == cfg.httpClient
  {
    cfg.(baseUrl := if cfg.baseUrl == "" then DefaultBaseUrl else cfg.baseUrl,
         timeout := if cfg.timeout == 0 then DefaultTimeout else cfg.timeout)
  }

  /** The credential of RFC 7617, section 2: user-id, colon and password, UTF-8 encoded, in base64. */
  function BasicToken(username: string, password: string): (token: string)
    ensures Base64.Decode(token) == Some(Utf8.Encode(username + ":" + password))
    ensures Utf8.Decode(Base64.Decode(token).value) == Some(username + ":" + password)
  {
    Base64.DecodeEncode(Utf8.Encode(username + ":" + password));
    Utf8.DecodeEncode(username + ":" + password);
    Base64.Encode(Utf8.Encode(username + ":" + password))
  }

  /** Reads an Authorization value back into user-id and password, splitting at the first colon. */
  function ParseBasic(value: string): Option<(string, string)>
  {
    if |value| < 6 || value[..6] != "Basic " then None
    else match Base64.Decode(value[6..])
      case None => None
      case Some(bytes) =>
        match Utf8.Decode(bytes)
        case None => None
        case Some(text) =>
          var i := Strings.Index(text, ':');
          if i < 0 then None else Some((text[..i], text[i + 1..]))
  }

  /** The Authorization value carries the credentials, recoverable whenever the user-id holds no colon. */
  lemma BasicRoundTrip(username: string, password: string)
    requires ':' !in username
    ensures ParseBasic("Basic " + BasicToken(username, password)) == Some((username, password))
  {
    var text := username + ":" + password;
    var value := "Basic " + BasicToken(username, password);
    assert value[..6] == "Basic " && value[6..] == BasicToken(username, password);
    Base64.DecodeEncode(Utf8.Encode(text));
    Utf8.DecodeEncode(text);
    Strings.IndexAfter(username, ':', password);
    assert text[..|username|] == username;
    assert text[|username| + 1..] == password;
  }

  /**
   * The common header table of `New`: JSON Accept and Content-Type always,
   * and an Authorization entry exactly when a user name or password is set.
   */
  function CommonHeaders(username: string, password: string): (h: Header)
    ensures h.Keys == {"Accept", "Content-Type"} + (if username != "" || password != "" then {"Authorization"} else {})
    ensures h["Accept"] == [JsonType] && h["Content-Type"] == [JsonType]
    ensures "Authorization" in h ==> |h["Authorization"]| == 1
    ensures "Authorization" in h && ':' !in username ==> ParseBasic(h["Authorization"][0]) == Some((username, password))
  {
    var h := map["Accept" := [JsonType], "Content-Type" := [JsonType]];
    if username != "" || password != "" then
      var v := "Basic " + BasicToken(username, password);
      assert ':' !in username ==> ParseBasic(v) == Some((username, password)) by {
        if ':' !in username {
          BasicRoundTrip(username, password);
        }
      }
      Headers.Set(h, "Authorization", v)
    else h
  }

  /** The common header table as `New` builds it, entry by entry. */
  lemma CommonHeadersTable(username: string, password: string)
    ensures var h := map["Accept" := [JsonType], "Content-Type" := [JsonType]];
      CommonHeaders(username, password) ==
        if username != "" || password != "" then Headers.Set(h, "Authorization", "Basic " + BasicToken(username, password))
        else h
  {
  }

  /**
   * `New`: fills in the defaults, parses the base URL (failing with
   * "invalid base url: " and the parser's message), sets up the retrying
   * client and writes the timeout into the supplied HTTP client, and builds
   * the common header table.
   */
  method New(cfg0: Config, parse: string -> Result<NetUrl.Url>) returns (r: Result<Client>)
    modifies if cfg0.httpClient.Some? then {cfg0.httpClient.value} else {}
    ensures var cfg := Normalized(cfg0);
      parse(cfg.baseUrl).Err? ==> r == Err("invalid base url: " + parse(cfg.baseUrl).msg)
    ensures var cfg := Normalized(cfg0);
      parse(cfg.baseUrl).Ok? ==>
        && r.Ok?
        && r.value.cfg == cfg
        && r.value.base == parse(cfg.baseUrl).value
        && r.value.common == CommonHeaders(cfg.username, cfg.password)
        && r.value.retry.waitMin == 200 * Millisecond
        && r.value.retry.waitMax == 2 * Second
        && r.value.retry.retryMax == 3
        && r.value.retry.http.timeout == cfg.timeout
        && (cfg0.httpClient.Some? ==> r.value.retry.http == cfg0.httpClient.value)
        && (cfg0.httpClient.None? ==> fresh(r.value.retry.http))
    ensures r.Err? && cfg0.httpClient.Some? ==> unchanged(cfg0.httpClient.value)
  {
    var cfg := cfg0;
    if cfg.baseUrl == "" {
      cfg := cfg.(baseUrl := DefaultBaseUrl);
    }
    var parsed := parse(cfg.baseUrl);
    if parsed.Err? {
      return Err("invalid base url: " + parsed.msg);
    }
    if cfg.timeout == 0 {
      cfg := cfg.(timeout := DefaultTimeout);
    }
    var http: HttpClient;
    if cfg.httpClient.Some? {
      http := cfg.httpClient.value;
    } else {
      http := new HttpClient(0);
    }
    http.timeout := cfg.timeout;
    var rc := RetryClient(200 * Millisecond, 2 * Second, 3, http);
    var common: Header := map["Accept" := [JsonType], "Content-Type" := [JsonType]];
    if cfg.username != "" || cfg.password != "" {
      var basic := BasicToken(cfg.username, cfg.password);
      common := Headers.Set(common, "Authorization", "Basic " + basic);
    }
    assert cfg == Normalized(cfg0);
    CommonHeadersTable(cfg.username, cfg.password);
    r := Ok(Client(cfg, rc, parsed.value, common));
  }

  // ---------------------------------------------------------------------
  // url

  /** `url(p)`: the base URL with its path joined to `p`. */
  function UrlFor(c: Client, p: string): (u: NetUrl.Url)
    ensures u.scheme == c.base.scheme
    ensures c.base.path != "" || p != "" ==> u.user == c.base.user && u.host == c.base.host && u.opaquePart == ""
    ensures c.base.path != "" || p != "" ==> u.rawQuery == "" && u.fragment == "" && u.path != "" && u.path[0] == '/'
  {
    NetUrl.ResolveReference(c.base, Paths.Join(c.base.path, p))
  }

  /**
   * For a rooted request path over a base whose path is empty or rooted, the
   * request URL keeps the base's scheme, user and host, drops its query and
   * fragment, and has the joined path: rooted, without `//`, and without a
   * trailing slash unless it is `/`.
   */
  lemma UrlForShape(c: Client, p: string)
    requires c.base.path == "" || Paths.IsRooted(c.base.path)
    requires Paths.IsRooted(p)
    ensures var u := UrlFor(c, p);
      && u.path == Paths.Join(c.base.path, p)
      && u.scheme == c.base.scheme && u.user == c.base.user && u.host == c.base.host
      && u.opaquePart == "" && u.rawQuery == "" && u.fragment == ""
      && Paths.IsRooted(u.path)
      && Paths.NoDoubleSlash(u.path)
      && (u.path == "/" || u.path[|u.path| - 1] != '/')
  {
    var a := c.base.path;
    Paths.JoinShape(a, p);
    var x := if a == "" then p else a + "/" + p;
    assert x[0] == '/';
    NetUrl.ResolvePathOfClean(a, x);
  }

  /**
   * Over any rooted base path, with or without a trailing slash, a request
   * path without `..` elements extends the cleaned base path: it is a prefix
   * of the request path, followed by a slash when more follows.
   */
  lemma UrlForKeepsBasePath(c: Client, p: string)
    requires Paths.IsRooted(c.base.path)
    requires Paths.IsRooted(p)
    requires forall i :: 0 <= i < |Paths.Split(p)| ==> Paths.Split(p)[i] != ".."
    ensures var a, path := Paths.Clean(c.base.path), UrlFor(c, p).path;
      && |a| <= |path| && path[..|a|] == a
      && (|path| > |a| && a != "/" ==> path[|a|] == '/')
  {
    UrlForShape(c, p);
    Paths.JoinKeepsBase(c.base.path, p);
  }

  // ---------------------------------------------------------------------
  // do

  /** The text of the error `do` returns for a failing status. */
  function StatusError(status: int, body: string): (msg: string)
    ensures |msg| > |body| + 7 && msg[..5] == "http "
    ensures msg[|msg| - |body| - 2..] == ": " + body
  {
    "http " + Decimal.FormatInt(status) + ": " + body
  }

  /** Reads a status error back into its status and body. */
  function ParseStatusError(msg: string): Option<(int, string)>
  {
    if |msg| < 5 || msg[..5] != "http " then None
    else
      var rest := msg[5..];
      var i := Strings.Index(rest, ':');
      if i < 0 || i + 1 >= |rest| || rest[i + 1] != ' ' then None
      else match Decimal.ParseInt(rest[..i])
        case None => None
        case Some(status) => Some((status, rest[i + 2..]))
  }

  lemma StatusErrorRoundTrip(status: int, body: string)
    ensures ParseStatusError(StatusError(status, body)) == Some((status, body))
  {
    var code := Decimal.FormatInt(status);
    var msg := StatusError(status, body);
    var rest := msg[5..];
    assert msg[..5] == "http ";
    assert rest == code + [':'] + (" " + body);
    assert ':' !in code by {
      forall i | 0 <= i < |code| ensures code[i] != ':' { }
    }
    Strings.IndexAfter(code, ':', " " + body);
    assert rest[..|code|] == code;
    assert rest[|code| + 2..] == body;
    Decimal.ParseFormatInt(status);
  }

  /**
   * The status check of `do`: an error exactly when the transport failed
   * (its error unchanged) or the status is 400 or more (the status and body
   * recoverable from the message); otherwise the response, untouched.
   */
  function CheckStatus(ex: Exchange): (r: Result<Response>)
    ensures r.Err? <==> ex.Failed? || ex.status >= 400
    ensures ex.Failed? ==> r.msg == ex.err
    ensures ex.Received? && ex.status >= 400 ==> r.msg == StatusError(ex.status, ex.body)
    ensures ex.Received? && ex.status >= 400 ==> ParseStatusError(r.msg) == Some((ex.status, ex.body))
    ensures ex.Received? && ex.status < 400 ==> r.value == Response(ex.status, ex.body)
  {
    match ex
    case Failed(e) => Err(e)
    case Received(status, body) =>
      if status >= 400 then StatusErrorRoundTrip(status, body); Err(StatusError(status, body))
      else Ok(Response(status, body))
  }

  /**
   * `do`: builds the request for the URL of `p` with the merged headers,
   * hands it to the transport, and checks the status.
   */
  method Do(c: Client, lib: Lib, m: Method, p: string, body: Option<string>, overrides: Header)
    returns (sent: Request, r: Result<Response>)
    ensures sent == Request(m, UrlFor(c, p), Headers.Merged(c.common, overrides), body)
    ensures r == CheckStatus(lib.send(sent))
  {
    var header := Headers.Build(c.common, overrides);
    sent := Request(m, UrlFor(c, p), header, body);
    r := CheckStatus(lib.send(sent));
  }

  /** A JSON request from a client built by `New` carries exactly its common headers. */
  lemma JsonRequestHeaders(username: string, password: string)
    ensures var common := CommonHeaders(username, password);
      && Headers.Merged(common, map[]) == common
      && Headers.Merged(common, map["Content-Type" := [JsonType]]) == common
  {
    var common := CommonHeaders(username, password);
    Headers.MergedWithoutOverrides(common);
    Headers.MergedSameValue(common, "Content-Type", JsonType);
  }

  // ---------------------------------------------------------------------
  // getJSON and postJSON

  /**
   * The path `getJSON` hands to `url` as written: the encoded query appended
   * after `?` when there is one.  `url` puts it into the URL's path, where
   * `URL.String` escapes the `?` (see `QueryInPath`).
   */
  function WithQuery(lib: Lib, p: string, q: Values): (r: string)
    ensures |q| == 0 ==> r == p
    ensures |q| > 0 ==> |r| > |p| && r[..|p|] == p && r[|p|] == '?' && r[|p| + 1..] == lib.encodeQuery(q)
  {
    if |q| > 0 then p + "?" + lib.encodeQuery(q) else p
  }

  /**
   * The URL the query was evidently meant for: the URL of `p`, with the
   * encoded query, when the query is non-empty, as its query component.
   */
  function QueryUrl(c: Client, lib: Lib, p: string, q: Values): NetUrl.Url
  {
    if |q| > 0 then UrlFor(c, p).(rawQuery := lib.encodeQuery(q)) else UrlFor(c, p)
  }

  /**
   * The GET `getJSON` sends: no body, and exactly the common header table
   * when each of its keys has a value (as the table `New` builds has).
   */
  function GetRequest(c: Client, lib: Lib, p: string, q: Values): (r: Request)
    ensures r.verb == Get && r.body.None?
    ensures r.url == UrlFor(c, WithQuery(lib, p, q))
    ensures (forall k :: k in c.common ==> c.common[k] != []) ==> r.header == c.common
  {
    assert (forall k :: k in c.common ==> c.common[k] != []) ==> Headers.Merged(c.common, map[]) == c.common by {
      if forall k :: k in c.common ==> c.common[k] != [] {
        Headers.MergedWithoutOverrides(c.common);
      }
    }
    Request(Get, UrlFor(c, WithQuery(lib, p, q)), Headers.Merged(c.common, map[]), None)
  }

  const JsonContentType: Header := map["Content-Type" := [JsonType]]

  /** The POST `postJSON` sends; its Content-Type is JSON whatever the common header holds. */
  function PostRequest(c: Client, lib: Lib, p: string, payload: Option<Payload>): (r: Request)
    ensures "Content-Type" in r.header && r.header["Content-Type"] == [JsonType]
  {
    Headers.MergedOverride(c.common, "Content-Type", JsonType);
    Request(Post, UrlFor(c, p), Headers.Merged(c.common, JsonContentType),
      if payload.Some? then Some(lib.marshal(payload.value)) else None)
  }

  /** The outcome of a call whose response body is decoded. */
  function Decoded<T>(r: Result<Response>, decode: string -> Result<T>): Result<T>
  {
    match r
    case Err(e) => Err(e)
    case Ok(resp) => decode(resp.body)
  }

  /**
   * `getJSON`: a GET of `p`, with `?` and the encoded query appended to the
   * path only when the query is non-empty, and the body decoded on success.
   */
  method GetJSON<T>(c: Client, lib: Lib, p: string, q: Values, decode: string -> Result<T>)
    returns (sent: Request, r: Result<T>)
    ensures |q| == 0 ==> sent.url == UrlFor(c, p)
    ensures |q| > 0 ==> sent.url == UrlFor(c, p + "?" + lib.encodeQuery(q))
    ensures sent == GetRequest(c, lib, p, q)
    ensures r.Ok? ==> CheckStatus(lib.send(sent)).Ok?
    ensures r == Decoded(CheckStatus(lib.send(sent)), decode)
  {
    var path := p;
    if |q| > 0 {
      path := path + "?" + lib.encodeQuery(q);
    }
    var resp;
    sent, resp := Do(c, lib, Get, path, None, map[]);
    if resp.Err? {
      return sent, Err(resp.msg);
    }
    r := decode(resp.value.body);
  }

  /** The outcome of a call whose decoded body is optional. */
  function Lift<T>(r: Result<T>): Result<Option<T>>
  {
    match r
    case Err(e) => Err(e)
    case Ok(v) => Ok(Some(v))
  }

  /**
   * `postJSON`: a POST of `p` with Content-Type set to JSON, a body only when
   * there is a payload, and on success either the decoded body or, with no
   * decoder, nothing.
   */
  method PostJSON<T>(c: Client, lib: Lib, p: string, payload: Option<Payload>, out: Option<string -> Result<T>>)
    returns (sent: Request, r: Result<Option<T>>)
    ensures sent == PostRequest(c, lib, p, payload)
    ensures sent.body.Some? <==> payload.Some?
    ensures CheckStatus(lib.send(sent)).Err? ==> r == Err(CheckStatus(lib.send(sent)).msg)
    ensures CheckStatus(lib.send(sent)).Ok? && out.None? ==> r == Ok(None)
    ensures out.Some? ==> r == Lift(Decoded(CheckStatus(lib.send(sent)), out.value))
  {
    var body: Option<string> := None;
    if payload.Some? {
      body := Some(lib.marshal(payload.value));
    }
    var resp;
    sent, resp := Do(c, lib, Post, p, body, JsonContentType);
    if resp.Err? {
      return sent, Err(resp.msg);
    }
    if out.None? {
      return sent, Ok(None);
    }
    match out.value(resp.value.body) {
      case Err(e) => r := Err(e);
      case Ok(v) => r := Ok(Some(v));
    }
  }

  /** What a base path contributes before a rooted endpoint path: the base path itself, or nothing for the root. */
  function Prefix(basePath: string): string
  {
    if basePath == "/" then "" else basePath
  }

  /** A clean rooted endpoint path with its query suffix is still clean, rooted and not the root. */
  lemma WithQueryClean(lib: Lib, p: string, q: Values)
    requires Paths.IsRooted(p) && Paths.Clean(p) == p && p != "/"
    requires |q| > 0 ==> '/' !in lib.encodeQuery(q)
    ensures var full := WithQuery(lib, p, q);
      Paths.IsRooted(full) && Paths.Clean(full) == full && full != "/"
  {
    if |q| > 0 {
      Paths.CleanAppendSuffix(p, "?" + lib.encodeQuery(q));
      assert WithQuery(lib, p, q) == p + ("?" + lib.encodeQuery(q));
    }
  }

  /**
   * Over a base whose path is empty or clean and rooted, a GET of a clean
   * rooted endpoint path asks for exactly the base path followed by the
   * endpoint path and, when there is a query, `?` and the encoded query
   * (provided the encoding holds no slash, as query escaping ensures).
   */
  lemma GetPath(c: Client, lib: Lib, p: string, q: Values)
    requires c.base.path == "" || (Paths.IsRooted(c.base.path) && Paths.Clean(c.base.path) == c.base.path)
    requires Paths.IsRooted(p) && Paths.Clean(p) == p && p != "/"
    requires |q| > 0 ==> '/' !in lib.encodeQuery(q)
    ensures UrlFor(c, WithQuery(lib, p, q)).path == Prefix(c.base.path) + WithQuery(lib, p, q)
  {
    var full := WithQuery(lib, p, q);
    WithQueryClean(lib, p, q);
    UrlForShape(c, full);
    Paths.JoinCleanRooted(c.base.path, full);
  }

  /**
   * As written, `getJSON` hands the query to `url` inside the path: the
   * request URL then has no query, and its path ends in `?` and the encoded
   * query, which `URL.String` sends escaped as `%3F`.
   */
  lemma QueryInPath(c: Client, lib: Lib, p: string, q: Values)
    requires c.base.path == "" || (Paths.IsRooted(c.base.path) && Paths.Clean(c.base.path) == c.base.path)
    requires Paths.IsRooted(p) && Paths.Clean(p) == p && p != "/"
    requires |q| > 0 && '/' !in lib.encodeQuery(q)
    ensures var u := UrlFor(c, WithQuery(lib, p, q));
      && u.rawQuery == ""
      && u.path == Prefix(c.base.path) + p + "?" + lib.encodeQuery(q)
  {
    var full, pre, enc := WithQuery(lib, p, q), Prefix(c.base.path), lib.encodeQuery(q);
    assert full == p + "?" + enc;
    UrlForDropsQuery(c, full);
    GetPath(c, lib, p, q);
    ConcatAssoc(pre, p, "?", enc);
  }

  /**
   * Regrouping of a concatenation, kept as a lemma of its own: proved inside
   * `QueryInPath`, among the path facts there, it costs the solver far more.
   */
  lemma ConcatAssoc(a: string, b: string, c: string, d: string)
    ensures a + (b + c + d) == a + b + c + d
  {
  }

  /** The URL of a non-empty path carries no query: `url` drops the base's query and fragment. */
  lemma UrlForDropsQuery(c: Client, p: string)
    requires p != ""
    ensures UrlFor(c, p).rawQuery == "" && UrlFor(c, p).fragment == ""
  {
    assert Paths.Join(c.base.path, p) != "";
  }

  /** The path `getJSON` asks for as written is not the endpoint's path whenever there is a query. */
  lemma QueryPathsDiffer(c: Client, lib: Lib, p: string, q: Values)
    requires c.base.path == "" || (Paths.IsRooted(c.base.path) && Paths.Clean(c.base.path) == c.base.path)
    requires Paths.IsRooted(p) && Paths.Clean(p) == p && p != "/"
    requires |q| > 0 && '/' !in lib.encodeQuery(q)
    ensures UrlFor(c, WithQuery(lib, p, q)).path != QueryUrl(c, lib, p, q).path
  {
    QueryInPath(c, lib, p, q);
    QueryUrlPath(c, lib, p, q);
    var pre := Prefix(c.base.path);
    assert |pre + p + "?" + lib.encodeQuery(q)| > |pre + p|;
  }

  /**
   * With the query in its query component, a GET of a clean rooted endpoint
   * path asks for exactly the base path followed by the endpoint path, and
   * carries the encoded query, whatever characters it holds.
   */
  lemma QueryUrlPath(c: Client, lib: Lib, p: string, q: Values)
    requires c.base.path == "" || (Paths.IsRooted(c.base.path) && Paths.Clean(c.base.path) == c.base.path)
    requires Paths.IsRooted(p) && Paths.Clean(p) == p && p != "/"
    ensures var u := QueryUrl(c, lib, p, q);
      && u.path == Prefix(c.base.path) + p
      && u.rawQuery == (if |q| > 0 then lib.encodeQuery(q) else "")
      && u.scheme == c.base.scheme && u.host == c.base.host
  {
    UrlForShape(c, p);
    Paths.JoinCleanRooted(c.base.path, p);
  }

  // ---------------------------------------------------------------------
  // Payload options

  /** A payload option: the `With*` closures each assign one key of the payload map. */
  datatype Assign<V> = Assign(key: string, value: V)

  /** The reply option: applied last, the payload answers the message `id`. */
  function WithReplyMessageID(id: string): (o: Assign<Value>)
    ensures forall m: Payload, opts :: "reply_message_id" in Applied(m, opts + [o]) && Applied(m, opts + [o])["reply_message_id"] == Str(id)
  {
    var o := Assign("reply_message_id", Str(id));
    forall m: Payload, opts ensures "reply_message_id" in Applied(m, opts + [o]) && Applied(m, opts + [o])["reply_message_id"] == Str(id) {
      AppliedSnoc(m, opts, o);
    }
    o
  }

  /** The forwarded option: applied last, the payload's `is_forwarded` is the flag. */
  function WithForwarded(forwarded: bool): (o: Assign<Value>)
    ensures forall m: Payload, opts :: "is_forwarded" in Applied(m, opts + [o]) && Applied(m, opts + [o])["is_forwarded"] == Bool(forwarded)
  {
    var o := Assign("is_forwarded", Bool(forwarded));
    forall m: Payload, opts ensures "is_forwarded" in Applied(m, opts + [o]) && Applied(m, opts + [o])["is_forwarded"] == Bool(forwarded) {
      AppliedSnoc(m, opts, o);
    }
    o
  }

  /** The disappearing-message option: applied last, the payload's `duration` is the number of seconds. */
  function WithDisappearingDuration(seconds: int): (o: Assign<Value>)
    ensures forall m: Payload, opts :: "duration" in Applied(m, opts + [o]) && Applied(m, opts + [o])["duration"] == Int(seconds)
  {
    var o := Assign("duration", Int(seconds));
    forall m: Payload, opts ensures "duration" in Applied(m, opts + [o]) && Applied(m, opts + [o])["duration"] == Int(seconds) {
      AppliedSnoc(m, opts, o);
    }
    o
  }

  /** The form-field option: applied last, the field `duration` is the decimal text of the seconds. */
  function WithDurationStr(seconds: int): (o: Assign<string>)
    ensures forall m: map<string, string>, opts :: "duration" in Applied(m, opts + [o]) && Decimal.ParseInt(Applied(m, opts + [o])["duration"]) == Some(seconds)
  {
    var o := Assign("duration", Decimal.FormatInt(seconds));
    Decimal.ParseFormatInt(seconds);
    forall m: map<string, string>, opts ensures "duration" in Applied(m, opts + [o]) && Decimal.ParseInt(Applied(m, opts + [o])["duration"]) == Some(seconds) {
      AppliedSnoc(m, opts, o);
    }
    o
  }

  /** The JSON and form-field duration options set the same key to the same number. */
  lemma DurationOptionsAgree(seconds: int)
    ensures WithDurationStr(seconds).key == WithDisappearingDuration(seconds).key
    ensures Decimal.ParseInt(WithDurationStr(seconds).value) == Some(WithDisappearingDuration(seconds).value.i)
  {
    Decimal.ParseFormatInt(seconds);
  }

  function OptionKeys<V>(opts: seq<Assign<V>>): set<string>
  {
    set i | 0 <= i < |opts| :: opts[i].key
  }

  /** The value the last option naming `k` assigns, when one names it. */
  function LastFor<V>(opts: seq<Assign<V>>, k: string): (r: Option<V>)
    ensures r.Some? <==> k in OptionKeys(opts)
    decreases |opts|
  {
    if opts == [] then None
    else
      var init := opts[..|opts| - 1];
      assert forall i :: 0 <= i < |init| ==> init[i] == opts[i];
      if opts[|opts| - 1].key == k then Some(opts[|opts| - 1].value)
      else LastFor(init, k)
  }

  /** The value `LastFor` finds is the one the last option naming the key assigns. */
  lemma {:induction false} LastForIsLast<V>(opts: seq<Assign<V>>, k: string)
    ensures LastFor(opts, k).Some? ==>
      exists i :: 0 <= i < |opts| && opts[i] == Assign(k, LastFor(opts, k).value) && LastNaming(opts, k, i)
    decreases |opts|
  {
    if opts != [] {
      var n := |opts| - 1;
      var init := opts[..n];
      if opts[n].key == k {
        assert opts[n] == Assign(k, LastFor(opts, k).value) && LastNaming(opts, k, n);
      } else {
        LastForIsLast(init, k);
        if LastFor(init, k).Some? {
          var i :| 0 <= i < |init| && init[i] == Assign(k, LastFor(init, k).value) && LastNaming(init, k, i);
          assert opts[i] == init[i];
          assert LastNaming(opts, k, i);
        }
      }
    }
  }

  /** No option after position `i` names `k`. */
  predicate LastNaming<V>(opts: seq<Assign<V>>, k: string, i: int)
  {
    forall j :: 0 <= j < |opts| && i < j ==> opts[j].key != k
  }

  /**
   * The payload after the options: every key an option names holds the value
   * of the last option naming it; every other key keeps its base value.
   */
  function Applied<V>(m: map<string, V>, opts: seq<Assign<V>>): (r: map<string, V>)
    ensures r.Keys == m.Keys + OptionKeys(opts)
    ensures forall k :: k in OptionKeys(opts) ==> r[k] == LastFor(opts, k).value
    ensures forall k :: k in m && k !in OptionKeys(opts) ==> r[k] == m[k]
  {
    map k | k in m.Keys + OptionKeys(opts) :: if LastFor(opts, k).Some? then LastFor(opts, k).value else m[k]
  }

  /** Options take effect in order: one more option overwrites its key, whatever came before. */
  lemma AppliedSnoc<V>(m: map<string, V>, opts: seq<Assign<V>>, o: Assign<V>)
    ensures Applied(m, opts + [o]) == Applied(m, opts)[o.key := o.value]
  {
    var all := opts + [o];
    assert all[..|all| - 1] == opts;
    assert OptionKeys(all) == OptionKeys(opts) + {o.key} by {
      forall k | k in OptionKeys(all) ensures k in OptionKeys(opts) + {o.key} {
        var i :| 0 <= i < |all| && all[i].key == k;
        if i < |opts| {
          assert opts[i] == all[i];
        }
      }
      assert all[|opts|] == o;
      forall k | k in OptionKeys(opts) ensures k in OptionKeys(all) {
        var i :| 0 <= i < |opts| && opts[i].key == k;
        assert all[i] == opts[i];
      }
    }
  }

  /** The option loop of the endpoints: each option applied to the payload in turn. */
  method ApplyOptions<V>(m: map<string, V>, opts: seq<Assign<V>>) returns (out: map<string, V>)
    ensures out == Applied(m, opts)
  {
    out := m;
    assert Applied(m, opts[..0]) == m by {
      assert OptionKeys(opts[..0]) == {};
    }
    for i := 0 to |opts|
      invariant out == Applied(m, opts[..i])
    {
      AppliedSnoc(m, opts[..i], opts[i]);
      assert opts[..i + 1] == opts[..i] + [opts[i]];
      out := out[opts[i].key := opts[i].value];
    }
    assert opts[..|opts|] == opts;
  }

  // ---------------------------------------------------------------------
  // Argument checks

  /** `LoginWithCode` rejects a phone that is empty after trimming. */
  function LoginWithCodeGuard(phone: string): (err: Option<string>)
    ensures err.Some? <==> Strings.AllSpace(phone)
    ensures err.Some? ==> err.value == "phone is required"
  {
    if Strings.TrimSpace(phone) == "" then Some("phone is required") else None
  }

  /** `UserInfo` rejects a JID that is empty after trimming. */
  function UserInfoGuard(phoneJID: string): (err: Option<string>)
    ensures err.Some? <==> Strings.AllSpace(phoneJID)
    ensures err.Some? ==> err.value == "phoneJID is required"
  {
    if Strings.TrimSpace(phoneJID) == "" then Some("phoneJID is required") else None
  }

  /** `SendPresence` accepts exactly the two presence words, compared as they are. */
  function PresenceGuard(presenceType: string): (err: Option<string>)
    ensures err.None? <==> presenceType == "available" || presenceType == "unavailable"
    ensures err.Some? ==> err.value == "presenceType must be 'available' or 'unavailable'"
  {
    if presenceType != "available" && presenceType != "unavailable" then
      Some("presenceType must be 'available' or 'unavailable'")
    else None
  }

  /** `GetChatMessages` rejects only the empty chat JID; white space is accepted. */
  function ChatGuard(chatJID: string): (err: Option<string>)
    ensures err.Some? <==> |chatJID| == 0
    ensures err.Some? ==> err.value == "chatJID is required"
  {
    if chatJID == "" then Some("chatJID is required") else None
  }

  /** `SendMessage` rejects a phone or a message that is empty after trimming. */
  function MessageGuard(phone: string, message: string): (err: Option<string>)
    ensures err.Some? <==> Strings.AllSpace(phone) || Strings.AllSpace(message)
    ensures err.Some? ==> err.value == "phone and message are required"
  {
    if Strings.TrimSpace(phone) == "" || Strings.TrimSpace(message) == "" then
      Some("phone and message are required")
    else None
  }

  /** `SendImageFile` rejects an empty phone or file path, without trimming. */
  function ImageFileGuard(phone: string, filePath: string): (err: Option<string>)
    ensures err.Some? <==> |phone| == 0 || |filePath| == 0
    ensures err.Some? ==> err.value == "phone and filePath are required"
  {
    if phone == "" || filePath == "" then Some("phone and filePath are required") else None
  }

  /** `SendImageURL` rejects an empty phone or image URL, without trimming. */
  function ImageUrlGuard(phone: string, imageURL: string): (err: Option<string>)
    ensures err.Some? <==> |phone| == 0 || |imageURL| == 0
    ensures err.Some? ==> err.value == "phone and imageURL are required"
  {
    if phone == "" || imageURL == "" then Some("phone and imageURL are required") else None
  }

  /** A phone of white space only passes the image checks but not the message check. */
  lemma BlankPhoneChecks(phone: string, rest: string)
    requires phone != [] && Strings.AllSpace(phone) && rest != []
    ensures MessageGuard(phone, rest).Some?
    ensures ImageFileGuard(phone, rest).None? && ImageUrlGuard(phone, rest).None?
    ensures LoginWithCodeGuard(phone).Some?
  {
  }

  // ---------------------------------------------------------------------
  // Query parameters

  /** `fmt.Sprint` of a boolean. */
  function FormatBool(b: bool): string { if b then "true" else "false" }

  /**
   * A numeric parameter: present only for a positive number, as its one
   * `fmt.Sprint` decimal text, which reads back to it.
   */
  predicate NumberParam(q: Values, k: string, n: int)
  {
    && (k in q <==> n > 0)
    && (k in q ==> q[k] == [Decimal.FormatInt(n)] && Decimal.ParseInt(q[k][0]) == Some(n))
  }

  /** A text parameter: present only when non-empty, with the text as its one value. */
  predicate TextParam(q: Values, k: string, s: string)
  {
    && (k in q <==> s != "")
    && (k in q ==> q[k] == [s])
  }

  /** A flag parameter: present only when the flag is set, as "true" or "false". */
  predicate FlagParam(q: Values, k: string, b: Option<bool>)
  {
    && (k in q <==> b.Some?)
    && (k in q ==> q[k] == [FormatBool(b.value)])
  }

  method SetNumber(q0: Values, k: string, n: int) returns (q: Values)
    requires k !in q0
    ensures NumberParam(q, k, n)
    ensures forall k' :: k' != k ==> (k' in q <==> k' in q0) && (k' in q ==> q[k'] == q0[k'])
  {
    q := q0;
    if n > 0 {
      q := q[k := [Decimal.FormatInt(n)]];
      Decimal.ParseFormatInt(n);
    }
  }

  method SetText(q0: Values, k: string, text: string) returns (q: Values)
    requires k !in q0
    ensures TextParam(q, k, text)
    ensures forall k' :: k' != k ==> (k' in q <==> k' in q0) && (k' in q ==> q[k'] == q0[k'])
  {
    q := q0;
    if text != "" {
      q := q[k := [text]];
    }
  }

  method SetFlag(q0: Values, k: string, b: Option<bool>) returns (q: Values)
    requires k !in q0
    ensures FlagParam(q, k, b)
    ensures forall k' :: k' != k ==> (k' in q <==> k' in q0) && (k' in q ==> q[k'] == q0[k'])
  {
    q := q0;
    if b.Some? {
      q := q[k := [FormatBool(b.value)]];
    }
  }

  datatype ListChatsParams = ListChatsParams(limit: int, offset: int, search: string, hasMedia: Option<bool>)

  datatype GetChatMessagesParams = GetChatMessagesParams(
    limit: int,
    offset: int,
    startTime: string,
    endTime: string,
    mediaOnly: Option<bool>,
    isFromMe: Option<bool>,
    search: string)

  // ---------------------------------------------------------------------
  // Endpoints

  /** `Login`: a GET of /app/login. */
  method Login<T>(c: Client, lib: Lib, decode: string -> Result<T>) returns (sent: Request, r: Result<T>)
    ensures sent == GetRequest(c, lib, "/app/login", map[]) && sent.url == UrlFor(c, "/app/login")
    ensures r == Decoded(CheckStatus(lib.send(sent)), decode)
  {
    sent, r := GetJSON(c, lib, "/app/login", map[], decode);
  }

  /** `Logout`: a GET of /app/logout whose decoded answer is dropped. */
  method Logout<T>(c: Client, lib: Lib, decode: string -> Result<T>) returns (sent: Request, r: Result<()>)
    ensures sent == GetRequest(c, lib, "/app/logout", map[]) && sent.url == UrlFor(c, "/app/logout")
    ensures r.Ok? <==> Decoded(CheckStatus(lib.send(sent)), decode).Ok?
    ensures r.Err? ==> r.msg == Decoded(CheckStatus(lib.send(sent)), decode).msg
  {
    var out;
    sent, out := GetJSON(c, lib, "/app/logout", map[], decode);
    r := if out.Ok? then Ok(()) else Err(out.msg);
  }

  /** `Reconnect`: a GET of /app/reconnect whose decoded answer is dropped. */
  method Reconnect<T>(c: Client, lib: Lib, decode: string -> Result<T>) returns (sent: Request, r: Result<()>)
    ensures sent == GetRequest(c, lib, "/app/reconnect", map[]) && sent.url == UrlFor(c, "/app/reconnect")
    ensures r.Ok? <==> Decoded(CheckStatus(lib.send(sent)), decode).Ok?
    ensures r.Err? ==> r.msg == Decoded(CheckStatus(lib.send(sent)), decode).msg
  {
    var out;
    sent, out := GetJSON(c, lib, "/app/reconnect", map[], decode);
    r := if out.Ok? then Ok(()) else Err(out.msg);
  }

  /** `LoginWithCode`: checked phone, then a GET of /app/login-with-code with the phone, untrimmed, as query. */
  method LoginWithCode<T>(c: Client, lib: Lib, phone: string, decode: string -> Result<T>)
    returns (sent: Option<Request>, r: Result<T>)
    ensures sent.None? <==> Strings.AllSpace(phone)
    ensures sent.None? ==> r == Err(LoginWithCodeGuard(phone).value)
    ensures sent.Some? ==>
      && sent.value == GetRequest(c, lib, "/app/login-with-code", map["phone" := [phone]])
      && r == Decoded(CheckStatus(lib.send(sent.value)), decode)
  {
    var err := LoginWithCodeGuard(phone);
    if err.Some? {
      return None, Err(err.value);
    }
    var q: Values := map["phone" := [phone]];
    var s;
    s, r := GetJSON(c, lib, "/app/login-with-code", q, decode);
    sent := Some(s);
  }

  /** `UserInfo`: checked JID, then a GET of /user/info with the JID as the phone parameter. */
  method UserInfo<T>(c: Client, lib: Lib, phoneJID: string, decode: string -> Result<T>)
    returns (sent: Option<Request>, r: Result<T>)
    ensures sent.None? <==> Strings.AllSpace(phoneJID)
    ensures sent.None? ==> r == Err(UserInfoGuard(phoneJID).value)
    ensures sent.Some? ==>
      && sent.value == GetRequest(c, lib, "/user/info", map["phone" := [phoneJID]])
      && r == Decoded(CheckStatus(lib.send(sent.value)), decode)
  {
    var err := UserInfoGuard(phoneJID);
    if err.Some? {
      return None, Err(err.value);
    }
    var q: Values := map["phone" := [phoneJID]];
    var s;
    s, r := GetJSON(c, lib, "/user/info", q, decode);
    sent := Some(s);
  }

  /** `SendPresence`: checked presence word, then a POST of /send/presence with the type and the options. */
  method SendPresence<T>(c: Client, lib: Lib, presenceType: string, opts: seq<Assign<Value>>, decode: string -> Result<T>)
    returns (sent: Option<Request>, r: Result<T>)
    ensures sent.None? <==> presenceType != "available" && presenceType != "unavailable"
    ensures sent.None? ==> r == Err(PresenceGuard(presenceType).value)
    ensures sent.Some? ==>
      && sent.value == PostRequest(c, lib, "/send/presence", Some(Applied(map["type" := Str(presenceType)], opts)))
      && r == Decoded(CheckStatus(lib.send(sent.value)), decode)
  {
    var err := PresenceGuard(presenceType);
    if err.Some? {
      return None, Err(err.value);
    }
    var payload := ApplyOptions(map["type" := Str(presenceType)], opts);
    var s, out := PostJSON(c, lib, "/send/presence", Some(payload), Some(decode));
    sent := Some(s);
    r := if out.Ok? then Ok(out.value.value) else Err(out.msg);
  }

  /** The query parameter names of the chat listings are pairwise distinct. */
  lemma ParamNamesDistinct()
    ensures var names := ["limit", "offset", "start_time", "end_time", "media_only", "is_from_me", "search", "has_media"];
      forall i, j :: 0 <= i < j < |names| ==> names[i] != names[j]
  {
    var names := ["limit", "offset", "start_time", "end_time", "media_only", "is_from_me", "search", "has_media"];
    forall i, j | 0 <= i < j < |names| ensures names[i] != names[j] {
      assert names[i][0] != names[j][0] || |names[i]| != |names[j]|;
    }
  }

  /** The query of `ListChats`. */
  method ListChatsQuery(p: ListChatsParams) returns (q: Values)
    ensures q.Keys <= {"limit", "offset", "search", "has_media"}
    ensures NumberParam(q, "limit", p.limit) && NumberParam(q, "offset", p.offset)
    ensures TextParam(q, "search", p.search) && FlagParam(q, "has_media", p.hasMedia)
  {
    ParamNamesDistinct();
    q := map[];
    q := SetNumber(q, "limit", p.limit);
    q := SetNumber(q, "offset", p.offset);
    q := SetText(q, "search", p.search);
    q := SetFlag(q, "has_media", p.hasMedia);
  }

  /**
   * `ListChats`: a GET of /chats whose query holds limit and offset only when
   * positive, search only when non-empty, has_media only when set, and nothing else.
   */
  method ListChats<T>(c: Client, lib: Lib, p: ListChatsParams, decode: string -> Result<T>)
    returns (q: Values, sent: Request, r: Result<T>)
    ensures q.Keys <= {"limit", "offset", "search", "has_media"}
    ensures NumberParam(q, "limit", p.limit) && NumberParam(q, "offset", p.offset)
    ensures TextParam(q, "search", p.search) && FlagParam(q, "has_media", p.hasMedia)
    ensures sent == GetRequest(c, lib, "/chats", q)
    ensures r == Decoded(CheckStatus(lib.send(sent)), decode)
  {
    q := ListChatsQuery(p);
    sent, r := GetJSON(c, lib, "/chats", q, decode);
  }

  /** The path of a chat's messages, with the JID escaped as one path element. */
  function ChatMessagesPath(lib: Lib, chatJID: string): (r: string)
    ensures Paths.IsRooted(r)
    ensures '/' !in lib.pathEscape(chatJID) ==> Paths.Split(r) == ["", "chat", lib.pathEscape(chatJID), "messages"]
  {
    var e := lib.pathEscape(chatJID);
    assert '/' !in e ==> Paths.Split("/chat/" + e + "/messages") == ["", "chat", e, "messages"] by {
      if '/' !in e {
        ChatPathElements(e);
      }
    }
    "/chat/" + lib.pathEscape(chatJID) + "/messages"
  }

  /** The elements of the messages path around one slash-free element. */
  lemma ChatPathElements(e: string)
    requires '/' !in e
    ensures Paths.Split("/chat/" + e + "/messages") == ["", "chat", e, "messages"]
  {
    var mid := "chat" + "/" + (e + "/" + "messages");
    ChatPathMid(e);
    Paths.SplitConcat("", mid);
    Paths.SplitName("");
    ChatPathText(e);
  }

  /**
   * The messages path regrouped around its slashes, kept as a lemma of its
   * own so that the solver proves it without the `Split` facts of its caller.
   */
  lemma ChatPathText(e: string)
    ensures "/chat/" + e + "/messages" == "" + "/" + ("chat" + "/" + (e + "/" + "messages"))
  {
  }

  lemma ChatPathMid(e: string)
    requires '/' !in e
    ensures Paths.Split("chat" + "/" + (e + "/" + "messages")) == ["chat", e, "messages"]
  {
    ChatPathTail(e);
    Paths.SplitConcat("chat", e + "/" + "messages");
    Paths.SplitName("chat");
  }

  lemma ChatPathTail(e: string)
    requires '/' !in e
    ensures Paths.Split(e + "/" + "messages") == [e, "messages"]
  {
    Paths.SplitConcat(e, "messages");
    Paths.SplitName(e);
    Paths.SplitName("messages");
  }

  /** The query of `GetChatMessages`. */
  method ChatMessagesQuery(p: GetChatMessagesParams) returns (q: Values)
    ensures q.Keys <= {"limit", "offset", "start_time", "end_time", "media_only", "is_from_me", "search"}
    ensures NumberParam(q, "limit", p.limit) && NumberParam(q, "offset", p.offset)
    ensures TextParam(q, "start_time", p.startTime) && TextParam(q, "end_time", p.endTime)
    ensures FlagParam(q, "media_only", p.mediaOnly) && FlagParam(q, "is_from_me", p.isFromMe)
    ensures TextParam(q, "search", p.search)
  {
    ParamNamesDistinct();
    q := map[];
    q := SetNumber(q, "limit", p.limit);
    q := SetNumber(q, "offset", p.offset);
    q := SetText(q, "start_time", p.startTime);
    q := SetText(q, "end_time", p.endTime);
    q := SetFlag(q, "media_only", p.mediaOnly);
    q := SetFlag(q, "is_from_me", p.isFromMe);
    q := SetText(q, "search", p.search);
  }

  /**
   * `GetChatMessages`: checked chat JID, then a GET of the chat's messages
   * path whose query holds each parameter only when it is given.
   */
  method GetChatMessages<T>(c: Client, lib: Lib, chatJID: string, p: GetChatMessagesParams, decode: string -> Result<T>)
    returns (q: Values, sent: Option<Request>, r: Result<T>)
    ensures sent.None? <==> chatJID == ""
    ensures sent.None? ==> q == map[] && r == Err(ChatGuard(chatJID).value)
    ensures q.Keys <= {"limit", "offset", "start_time", "end_time", "media_only", "is_from_me", "search"}
    ensures sent.Some? ==>
      && NumberParam(q, "limit", p.limit) && NumberParam(q, "offset", p.offset)
      && TextParam(q, "start_time", p.startTime) && TextParam(q, "end_time", p.endTime)
      && FlagParam(q, "media_only", p.mediaOnly) && FlagParam(q, "is_from_me", p.isFromMe)
      && TextParam(q, "search", p.search)
      && sent.value == GetRequest(c, lib, ChatMessagesPath(lib, chatJID), q)
      && r == Decoded(CheckStatus(lib.send(sent.value)), decode)
  {
    var err := ChatGuard(chatJID);
    if err.Some? {
      return map[], None, Err(err.value);
    }
    q := ChatMessagesQuery(p);
    var s;
    s, r := GetJSON(c, lib, ChatMessagesPath(lib, chatJID), q, decode);
    sent := Some(s);
  }

  /** `SendMessage`: checked phone and message, then a POST of /send/message with both and the options. */
  method SendMessage<T>(c: Client, lib: Lib, phone: string, message: string, opts: seq<Assign<Value>>, decode: string -> Result<T>)
    returns (sent: Option<Request>, r: Result<T>)
    ensures sent.None? <==> Strings.AllSpace(phone) || Strings.AllSpace(message)
    ensures sent.None? ==> r == Err(MessageGuard(phone, message).value)
    ensures sent.Some? ==>
      && sent.value == PostRequest(c, lib, "/send/message", Some(Applied(map["phone" := Str(phone), "message" := Str(message)], opts)))
      && r == Decoded(CheckStatus(lib.send(sent.value)), decode)
  {
    var err := MessageGuard(phone, message);
    if err.Some? {
      return None, Err(err.value);
    }
    var payload := ApplyOptions(map["phone" := Str(phone), "message" := Str(message)], opts);
    var s, out := PostJSON(c, lib, "/send/message", Some(payload), Some(decode));
    sent := Some(s);
    r := if out.Ok? then Ok(out.value.value) else Err(out.msg);
  }

  /** What `SendImageFile` hands to the multipart upload: endpoint, form fields, file field and file path. */
  datatype Upload = Upload(path: string, fields: map<string, string>, fileField: string, filePath: string)

  function ImageFields(phone: string, caption: string, viewOnce: bool, compress: bool): map<string, string>
  {
    map["phone" := phone, "caption" := caption, "view_once" := FormatBool(viewOnce), "compress" := FormatBool(compress)]
  }

  /** `SendImageFile` up to the upload: checked phone and file path, then the form fields with the options. */
  method SendImageFile(phone: string, caption: string, filePath: string, viewOnce: bool, compress: bool, opts: seq<Assign<string>>)
    returns (r: Result<Upload>)
    ensures r.Err? <==> phone == "" || filePath == ""
    ensures r.Err? ==> r.msg == ImageFileGuard(phone, filePath).value
    ensures r.Ok? ==> r.value == Upload("/send/image", Applied(ImageFields(phone, caption, viewOnce, compress), opts), "image", filePath)
  {
    var err := ImageFileGuard(phone, filePath);
    if err.Some? {
      return Err(err.value);
    }
    var fields := ApplyOptions(ImageFields(phone, caption, viewOnce, compress), opts);
    r := Ok(Upload("/send/image", fields, "image", filePath));
  }

  function ImageUrlPayload(phone: string, caption: string, imageURL: string, viewOnce: bool, compress: bool): Payload
  {
    map["phone" := Str(phone), "caption" := Str(caption), "view_once" := Bool(viewOnce),
        "compress" := Bool(compress), "image_url" := Str(imageURL)]
  }

  /** `SendImageURL`: checked phone and image URL, then a POST of /send/image with the fields and the options. */
  method SendImageURL<T>(c: Client, lib: Lib, phone: string, caption: string, imageURL: string, viewOnce: bool, compress: bool,
                         opts: seq<Assign<Value>>, decode: string -> Result<T>)
    returns (sent: Option<Request>, r: Result<T>)
    ensures sent.None? <==> phone == "" || imageURL == ""
    ensures sent.None? ==> r == Err(ImageUrlGuard(phone, imageURL).value)
    ensures sent.Some? ==>
      && sent.value == PostRequest(c, lib, "/send/image", Some(Applied(ImageUrlPayload(phone, caption, imageURL, viewOnce, compress), opts)))
      && r == Decoded(CheckStatus(lib.send(sent.value)), decode)
  {
    var err := ImageUrlGuard(phone, imageURL);
    if err.Some? {
      return None, Err(err.value);
    }
    var payload := ApplyOptions(ImageUrlPayload(phone, caption, imageURL, viewOnce, compress), opts);
    var s, out := PostJSON(c, lib, "/send/image", Some(payload), Some(decode));
    sent := Some(s);
    r := if out.Ok? then Ok(out.value.value) else Err(out.msg);
  }
}
