/** The mobile client's REST layer (ui/Zaia/src/services/APIService.js):
    the encrypted token store, `fetchWithAuth` with its bearer header and its
    one refresh-and-resend on HTTP 401, login and logout, the `download_mp3`
    file cache and the status-mapped update calls the screens use.

    The network is a `Server` oracle: the reply to the n-th request the
    client sends. Every request sent is appended to `sent`, so "no request"
    and "exactly one resend" are statements about that log. The device's
    document directory is the map `files` from path to content. */
module ApiService {
  import opened Common
  import UrlEncoding

  type Bytes = seq<bv8>

  datatype Comment = Comment(text: string, date: int)

  /** An extracted item as the screens receive it from `items/`. A JSON
      field that may be absent is an `Option`. */
  datatype Item = Item(id: string, audioName: string, title: string, source: string,
                       done: Option<bool>, isMarked: Option<bool>,
                       comments: seq<Comment>, createdOn: int)

  /** JavaScript truthiness of an optional boolean field. */
  predicate IsSet(b: Option<bool>)
  {
    b == Some(true)
  }

  /** The stored `auth_tokens` record; "" stands for a field that is absent,
      undefined or empty (all of them falsy). */
  datatype Tokens = Tokens(accessToken: string, refreshToken: string)

  datatype Method = Get | Post | Put

  datatype Json = JStr(s: string) | JBool(b: bool) | JNum(n: int) | JList(elems: seq<Json>)
                | JObject(members: seq<(string, Json)>)

  datatype Body = NoBody | JsonBody(json: Json) | FormBody(pairs: seq<(string, string)>)

  datatype Request = Request(url: string, verb: Method, headers: map<string, string>, body: Body)

  /** A received response: status, the string fields of a JSON object body,
      the items of a JSON list body, and the raw bytes of a binary body. */
  datatype Response = Response(status: int, fields: map<string, string>, items: seq<Item>, data: Bytes)

  /** What `fetch` does with a request: a response, or a rejected promise. */
  datatype Reply = Delivered(response: Response) | NetworkFailure

  /** The reply the server gives to the n-th request the client sends. */
  type Server = (nat, Request) -> Reply

  /** `response.ok`. */
  predicate IsOk(r: Response)
  {
    200 <= r.status <= 299
  }

  /** `data.<name>` of a JSON body; "" when the field is absent. */
  function Field(r: Response, name: string): string
  {
    if name in r.fields then r.fields[name] else ""
  }

  function Bearer(token: string): string
  {
    "Bearer " + token
  }

  const Authorization := "Authorization"
  const JsonContent: map<string, string> := map["Content-Type" := "application/json"]

  /** How a call of `RNFS.writeFile` ends: the file is written, or the
      call rejects and leaves no file or a partly written one behind. */
  datatype WriteOutcome = Written | WriteRejected(leftBehind: Option<Bytes>)

  /** The file system's failures. Like the server's answers they are
      indexed by the number of requests sent so far: whether `RNFS.exists`
      rejects for a path, and how writing some bytes to a path ends. */
  datatype FileSystem = FileSystem(existsRejects: (nat, string) -> bool, write: (nat, string, Bytes) -> WriteOutcome)

  /** `Config.API_URL`, `RNFS.DocumentDirectoryPath`, the server and the
      file system. */
  datatype Config = Config(apiUrl: string, documentDir: string, server: Server, fs: FileSystem)

  /** The client's state: the encrypted token store, the files in the
      document directory and every request sent so far. */
  datatype Env = Env(store: Option<Tokens>, files: map<string, Bytes>, sent: seq<Request>)

  /** Sends one request: the reply depends on how many were sent before. */
  function Send(c: Config, env: Env, req: Request): (Reply, Env)
  {
    (c.server(|env.sent|, req), env.(sent := env.sent + [req]))
  }

  function RefreshRequest(c: Config, refreshToken: string): Request
  {
    Request(c.apiUrl + "/refresh", Post, JsonContent, JsonBody(JObject([("refresh_token", JStr(refreshToken))])))
  }

  /** `refreshAccessToken`: `None` is its `null`; `Some(t)` is `data.access_token`,
      which is "" when the body lacks it. Only a success rewrites the store,
      keeping the old refresh token. */
  function RefreshResult(c: Config, env: Env): (out: (Option<string>, Env))
    ensures out.1.files == env.files
    ensures out.0.None? ==> out.1.store == env.store
    ensures out.0.Some? ==> env.store.Some? && out.1.store == Some(Tokens(out.0.value, env.store.value.refreshToken))
    ensures env.store.None? || env.store.value.refreshToken == "" ==> out == (None, env)
    ensures env.store.Some? && env.store.value.refreshToken != "" ==>
              out.1.sent == env.sent + [RefreshRequest(c, env.store.value.refreshToken)]
    ensures env.store.Some? && env.store.value.refreshToken != "" ==>
              var reply := c.server(|env.sent|, RefreshRequest(c, env.store.value.refreshToken));
              (out.0.Some? <==> reply.Delivered? && IsOk(reply.response)) &&
              (out.0.Some? ==> out.0.value == Field(reply.response, "access_token"))
  {
    match env.store
    case None => (None, env)
    case Some(tokens) =>
      if tokens.refreshToken == "" then (None, env)
      else
        var (reply, env1) := Send(c, env, RefreshRequest(c, tokens.refreshToken));
        match reply
        case NetworkFailure => (None, env1)
        case Delivered(response) =>
          if !IsOk(response) then (None, env1)
          else
            var access := Field(response, "access_token");
            (Some(access), env1.(store := Some(Tokens(access, tokens.refreshToken))))
  }

  datatype FetchError = NotAuthenticated | RefreshFailed | NetworkError

  /** Outcome of `fetchWithAuth`: what it returns or throws, the new client
      state, and the caller's `options.headers` as the call leaves them. */
  datatype Fetched = Fetched(result: Result<Response, FetchError>, env: Env, headers: map<string, string>)

  predicate Authenticated(env: Env)
  {
    env.store.Some? && env.store.value.accessToken != ""
  }

  /** `fetchWithAuth(endpoint, options)`. */
  function FetchResult(c: Config, env: Env, endpoint: string, verb: Method,
                       headers: map<string, string>, body: Body): (f: Fetched)
    ensures !Authenticated(env) ==> f == Fetched(Err(NotAuthenticated), env, headers)
    ensures Authenticated(env) ==>
              |env.sent| < |f.env.sent| <= |env.sent| + 3 && f.env.sent[..|env.sent|] == env.sent &&
              f.env.sent[|env.sent|] == Request(c.apiUrl + "/" + endpoint, verb,
                                                headers[Authorization := Bearer(env.store.value.accessToken)], body)
    ensures f.env.files == env.files
    ensures env.sent <= f.env.sent
    ensures Authorization in f.headers ==> f.headers == headers[Authorization := f.headers[Authorization]]
  {
    if !Authenticated(env) then Fetched(Err(NotAuthenticated), env, headers)
    else
      var h1 := headers[Authorization := Bearer(env.store.value.accessToken)];
      var req := Request(c.apiUrl + "/" + endpoint, verb, h1, body);
      var (reply, env1) := Send(c, env, req);
      match reply
      case NetworkFailure => Fetched(Err(NetworkError), env1, h1)
      case Delivered(response) =>
        if response.status != 401 then Fetched(Ok(response), env1, h1)
        else
          var (newToken, env2) := RefreshResult(c, env1);
          if newToken.None? || newToken.value == "" then Fetched(Err(RefreshFailed), env2, h1)
          else
            var h2 := h1[Authorization := Bearer(newToken.value)];
            var (reply2, env3) := Send(c, env2, req.(headers := h2));
            match reply2
            case NetworkFailure => Fetched(Err(NetworkError), env3, h2)
            case Delivered(response2) => Fetched(Ok(response2), env3, h2)
  }

  /** The first request `fetchWithAuth` sends: the caller's headers with the
      stored access token as a bearer credential (section 2.1 of RFC 6750). */
  function AuthRequest(c: Config, env: Env, endpoint: string, verb: Method,
                       headers: map<string, string>, body: Body): Request
    requires Authenticated(env)
  {
    Request(c.apiUrl + "/" + endpoint, verb, headers[Authorization := Bearer(env.store.value.accessToken)], body)
  }

  /** Any reply to the first request other than a 401 is returned as it is,
      whatever its status, and nothing else is sent or stored. */
  lemma NoRetryWithout401(c: Config, env: Env, endpoint: string, verb: Method,
                          headers: map<string, string>, body: Body)
    requires Authenticated(env)
    requires var reply := c.server(|env.sent|, AuthRequest(c, env, endpoint, verb, headers, body));
             reply.Delivered? && reply.response.status != 401
    ensures var req := AuthRequest(c, env, endpoint, verb, headers, body);
            var f := FetchResult(c, env, endpoint, verb, headers, body);
            f.result == Ok(c.server(|env.sent|, req).response) && f.env == env.(sent := env.sent + [req])
  {
  }

  /** After a 401 the client refreshes once and resends once with the new
      token, and returns the second reply whatever its status: a second 401
      is returned, not retried. If the refresh gives nothing, the call throws
      and nothing is resent. */
  lemma RetryAfter401(c: Config, env: Env, endpoint: string, verb: Method,
                      headers: map<string, string>, body: Body)
    requires Authenticated(env)
    requires var reply := c.server(|env.sent|, AuthRequest(c, env, endpoint, verb, headers, body));
             reply.Delivered? && reply.response.status == 401
    ensures var req := AuthRequest(c, env, endpoint, verb, headers, body);
            var f := FetchResult(c, env, endpoint, verb, headers, body);
            var n := |env.sent|;
            (f.result.Ok? ==>
               |f.env.sent| == n + 3 && f.env.sent[n + 1] == RefreshRequest(c, env.store.value.refreshToken) &&
               f.env.store == Some(Tokens(f.env.store.value.accessToken, env.store.value.refreshToken)) &&
               f.env.store.value.accessToken != "" &&
               f.env.sent[n + 2] == req.(headers := req.headers[Authorization := Bearer(f.env.store.value.accessToken)]) &&
               f.result.value == c.server(n + 2, f.env.sent[n + 2]).response) &&
            (f.result == Err(RefreshFailed) ==> n + 1 <= |f.env.sent| <= n + 2) &&
            f.result != Err(NotAuthenticated)
  {
  }

  /** The request `loginUser` sends: the resource-owner password form of
      section 4.3 of RFC 6749, without its `grant_type` field. */
  function LoginRequest(c: Config, username: string, password: string): Request
  {
    Request(c.apiUrl + "/token", Post, map["Content-Type" := "application/x-www-form-urlencoded"],
            FormBody([("username", username), ("password", password)]))
  }

  /** `loginUser`: the parsed body on an ok response, after storing both of
      its tokens; `None` (its `null`) otherwise, with the store untouched. */
  function LoginResult(c: Config, env: Env, username: string, password: string): (out: (Option<map<string, string>>, Env))
    ensures out.1.sent == env.sent + [LoginRequest(c, username, password)]
    ensures out.1.files == env.files
    ensures out.0.None? ==> out.1.store == env.store
    ensures out.0.Some? ==> out.1.store == Some(Tokens(Field(Response(0, out.0.value, [], []), "access_token"),
                                                         Field(Response(0, out.0.value, [], []), "refresh_token")))
    ensures out.0.Some? <==> c.server(|env.sent|, LoginRequest(c, username, password)).Delivered? &&
                             IsOk(c.server(|env.sent|, LoginRequest(c, username, password)).response)
  {
    var (reply, env1) := Send(c, env, LoginRequest(c, username, password));
    if reply.NetworkFailure? || !IsOk(reply.response) then (None, env1)
    else
      var data := reply.response;
      (Some(data.fields), env1.(store := Some(Tokens(Field(data, "access_token"), Field(data, "refresh_token")))))
  }

  /** `logoutUser`: the stored tokens are removed. */
  function LogoutResult(env: Env): (out: Env)
    ensures out.store.None? && !Authenticated(out)
    ensures out.files == env.files && out.sent == env.sent
  {
    env.(store := None)
  }

  /** The common shape of `update_done`, `update_marked` and `saveComment`:
      a JSON request through `fetchWithAuth`, true exactly on status 200;
      a thrown error is false. */
  function StatusResult(c: Config, env: Env, endpoint: string, verb: Method, body: Json): (out: (bool, Env))
    ensures !Authenticated(env) ==> out == (false, env)
    ensures out.0 ==> Authenticated(env) && |out.1.sent| > |env.sent|
    ensures out.1.files == env.files
    ensures out.1 == FetchResult(c, env, endpoint, verb, JsonContent, JsonBody(body)).env
    ensures out.0 <==> (FetchResult(c, env, endpoint, verb, JsonContent, JsonBody(body)).result.Ok? &&
                        FetchResult(c, env, endpoint, verb, JsonContent, JsonBody(body)).result.value.status == 200)
  {
    var f := FetchResult(c, env, endpoint, verb, JsonContent, JsonBody(body));
    match f.result
    case Ok(response) => (response.status == 200, f.env)
    case Err(_) => (false, f.env)
  }

  function UpdateDoneBody(id: string): Json
  {
    JObject([("id", JStr(id)), ("is_done", JBool(true))])
  }

  function UpdateMarkedBody(id: string, marked: bool): Json
  {
    JObject([("id", JStr(id)), ("is_marked", JBool(marked))])
  }

  function CommentJson(comment: Comment): Json
  {
    JObject([("text", JStr(comment.text)), ("date", JNum(comment.date))])
  }

  function CommentsJson(comments: seq<Comment>): (r: seq<Json>)
    ensures |r| == |comments|
    ensures forall i :: 0 <= i < |comments| ==> r[i] == CommentJson(comments[i])
  {
    if comments == [] then [] else [CommentJson(comments[0])] + CommentsJson(comments[1..])
  }

  function SaveCommentBody(id: string, comments: seq<Comment>): Json
  {
    JObject([("id", JStr(id)), ("comments", JList(CommentsJson(comments)))])
  }

  /** The local file that caches `audioName`. */
  function CachePath(c: Config, audioName: string): string
  {
    c.documentDir + "/" + audioName
  }

  /** `RNFS.exists` rejects for the cache file of `audioName`. */
  predicate ExistsRejects(c: Config, env: Env, audioName: string)
  {
    c.fs.existsRejects(|env.sent|, CachePath(c, audioName))
  }

  /** The files after a rejected write: unchanged, or holding what the
      write left behind. */
  function AfterRejectedWrite(files: map<string, Bytes>, path: string, left: Option<Bytes>): map<string, Bytes>
  {
    if left.Some? then files[path := left.value] else files
  }

  /** `download_mp3`: `None` (its `null`) when `RNFS.exists` rejects; the
      cached path with no request on a hit; otherwise a GET through
      `fetchWithAuth` whose ok body is written to that path. A failed
      request or a reply that is not ok writes nothing; a rejected write
      gives `None` and may leave a partial file. */
  function DownloadResult(c: Config, env: Env, audioName: string): (out: (Option<string>, Env))
    ensures ExistsRejects(c, env, audioName) ==> out == (None, env)
    ensures CachePath(c, audioName) in env.files && !ExistsRejects(c, env, audioName) ==>
              out == (Some(CachePath(c, audioName)), env)
    ensures out.0.Some? ==> out.0.value == CachePath(c, audioName) && CachePath(c, audioName) in out.1.files
    ensures out.0.None? ==> out.1.files == env.files ||
                            (CachePath(c, audioName) !in env.files &&
                             out.1.files.Keys == env.files.Keys + {CachePath(c, audioName)})
    ensures env.sent <= out.1.sent
    ensures out.1.files.Keys <= env.files.Keys + {CachePath(c, audioName)}
    ensures forall p :: p in env.files && p != CachePath(c, audioName) ==> p in out.1.files && out.1.files[p] == env.files[p]
    ensures out.1.store == FetchResult(c, env, "download_mp3/" + audioName, Get, map[], NoBody).env.store ||
            out.1.store == env.store
    ensures CachePath(c, audioName) !in env.files && !ExistsRejects(c, env, audioName) ==>
              var f := FetchResult(c, env, "download_mp3/" + audioName, Get, map[], NoBody);
              out.1.sent == f.env.sent && out.1.store == f.env.store &&
              (f.result.Err? || !IsOk(f.result.value) ==> out == (None, f.env)) &&
              (f.result.Ok? && IsOk(f.result.value) ==>
                 var w := c.fs.write(|f.env.sent|, CachePath(c, audioName), f.result.value.data);
                 (out.0.Some? <==> w.Written?) &&
                 (w.Written? ==> out.1.files == env.files[CachePath(c, audioName) := f.result.value.data]) &&
                 (w.WriteRejected? ==>
                    out.1.files == AfterRejectedWrite(env.files, CachePath(c, audioName), w.leftBehind)))
  {
    var path := CachePath(c, audioName);
    if c.fs.existsRejects(|env.sent|, path) then (None, env)
    else if path in env.files then (Some(path), env)
    else
      var f := FetchResult(c, env, "download_mp3/" + audioName, Get, map[], NoBody);
      match f.result
      case Err(_) => (None, f.env)
      case Ok(response) =>
        if !IsOk(response) then (None, f.env)
        else
          match c.fs.write(|f.env.sent|, path, response.data)
          case Written => (Some(path), f.env.(files := f.env.files[path := response.data]))
          case WriteRejected(left) => (None, f.env.(files := AfterRejectedWrite(f.env.files, path, left)))
  }

  /** A successful download is a cache hit the next time: unless
      `RNFS.exists` then rejects, the second call returns the same path,
      sends nothing and changes nothing. */
  lemma DownloadTwice(c: Config, env: Env, audioName: string)
    requires DownloadResult(c, env, audioName).0.Some?
    ensures var (first, env1) := DownloadResult(c, env, audioName);
            DownloadResult(c, env1, audioName) == if ExistsRejects(c, env1, audioName) then (None, env1) else (first, env1)
  {
  }

  /** A write that rejects after leaving part of the file behind makes the
      next call a cache hit on that partial file: it returns the path and
      sends no request. */
  lemma PartialWriteIsCacheHit(c: Config, env: Env, audioName: string)
    requires CachePath(c, audioName) !in env.files && !ExistsRejects(c, env, audioName)
    requires var f := FetchResult(c, env, "download_mp3/" + audioName, Get, map[], NoBody);
             f.result.Ok? && IsOk(f.result.value) &&
             c.fs.write(|f.env.sent|, CachePath(c, audioName), f.result.value.data).WriteRejected? &&
             c.fs.write(|f.env.sent|, CachePath(c, audioName), f.result.value.data).leftBehind.Some?
    ensures var (first, env1) := DownloadResult(c, env, audioName);
            first.None? &&
            (!ExistsRejects(c, env1, audioName) ==> DownloadResult(c, env1, audioName) == (Some(CachePath(c, audioName)), env1))
  {
  }

  /** `Number.isInteger(topicId)` and JavaScript truthiness need to know
      whether the topic id came as a number or as text. */
  datatype TopicParam = NoTopic | TopicNumber(n: int) | TopicText(s: string)

  predicate TopicTruthy(t: TopicParam)
  {
    match t
    case NoTopic => false
    case TopicNumber(n) => n != 0
    case TopicText(s) => s != ""
  }

  function TopicString(t: TopicParam): string
  {
    match t
    case NoTopic => ""
    case TopicNumber(n) => IntText(n)
    case TopicText(s) => s
  }

  /** The query parameters of `fetchItems`, in the order they are appended;
      every optional one only when its argument is truthy. */
  function ItemsParams(topic: TopicParam, searchTerm: string, forReading: bool, onlyWithComments: bool,
                       username: string): seq<(string, string)>
  {
    Present([(TopicTruthy(topic), ("topic_id", TopicString(topic))),
             (forReading, ("is_marked", "true")),
             (onlyWithComments, ("only_with_comments", "true")),
             (searchTerm != "", ("search_term", searchTerm))]) +
    [("user", username)]
  }

  /** The parameters whose flag is set, in order. */
  function Present(optional: seq<(bool, (string, string))>): (r: seq<(string, string)>)
    ensures forall p :: p in r <==> exists k :: 0 <= k < |optional| && optional[k] == (true, p)
  {
    if optional == [] then []
    else (if optional[0].0 then [optional[0].1] else []) + Present(optional[1..])
  }

  /** The endpoint `fetchItems` requests: `items_old/` for a numeric topic
      id (even a zero one, which adds no parameter), `items/` otherwise. */
  function ItemsEndpoint(topic: TopicParam, searchTerm: string, forReading: bool, onlyWithComments: bool,
                         username: string): string
  {
    var base := if topic.TopicNumber? then "items_old" else "items";
    base + "/?" + UrlEncoding.Query(ItemsParams(topic, searchTerm, forReading, onlyWithComments, username))
  }

  /** The user parameter always comes last; each optional parameter is
      present exactly when its argument is truthy, and nothing else is sent. */
  lemma ItemsParamsShape(topic: TopicParam, searchTerm: string, forReading: bool, onlyWithComments: bool,
                         username: string)
    ensures var ps := ItemsParams(topic, searchTerm, forReading, onlyWithComments, username);
            |ps| >= 1 && ps[|ps| - 1] == ("user", username) &&
            (("topic_id", TopicString(topic)) in ps <==> TopicTruthy(topic)) &&
            (("is_marked", "true") in ps <==> forReading) &&
            (("only_with_comments", "true") in ps <==> onlyWithComments) &&
            (("search_term", searchTerm) in ps <==> searchTerm != "") &&
            forall i :: 0 <= i < |ps| - 1 ==>
              ps[i] in [("topic_id", TopicString(topic)), ("is_marked", "true"),
                        ("only_with_comments", "true"), ("search_term", searchTerm)]
  {
    var optional := [(TopicTruthy(topic), ("topic_id", TopicString(topic))),
                     (forReading, ("is_marked", "true")),
                     (onlyWithComments, ("only_with_comments", "true")),
                     (searchTerm != "", ("search_term", searchTerm))];
    var ps := ItemsParams(topic, searchTerm, forReading, onlyWithComments, username);
    var sent := Present(optional);
    assert ps == sent + [("user", username)];
    forall k | 0 <= k < |optional|
      ensures optional[k].0 ==> optional[k].1 in ps
      ensures optional[k].1 in ps ==> optional[k].0
    {
      if optional[k].1 in ps {
        assert optional[k].1 in sent by {
          assert optional[k].1.0 != "user";
        }
        var j :| 0 <= j < |optional| && optional[j] == (true, optional[k].1);
        assert j == k by {
          assert optional[j].1.0 == optional[k].1.0;
        }
      }
      if optional[k].0 {
        assert optional[k].1 in sent;
      }
    }
    assert optional[0].1 == ("topic_id", TopicString(topic));
    assert optional[1].1 == ("is_marked", "true");
    assert optional[2].1 == ("only_with_comments", "true");
    assert optional[3].1 == ("search_term", searchTerm);
    forall i | 0 <= i < |ps| - 1
      ensures ps[i] in [("topic_id", TopicString(topic)), ("is_marked", "true"),
                        ("only_with_comments", "true"), ("search_term", searchTerm)]
    {
      assert ps[i] == sent[i];
      var k :| 0 <= k < |optional| && optional[k] == (true, ps[i]);
    }
  }

  /** A numeric topic id goes to `items_old/`, any other to `items/`. */
  lemma ItemsEndpointBase(topic: TopicParam, searchTerm: string, forReading: bool, onlyWithComments: bool,
                          username: string)
    ensures var url := ItemsEndpoint(topic, searchTerm, forReading, onlyWithComments, username);
            (topic.TopicNumber? ==> "items_old/?" <= url) && (!topic.TopicNumber? ==> "items/?" <= url)
  {
    var url := ItemsEndpoint(topic, searchTerm, forReading, onlyWithComments, username);
    var query := UrlEncoding.Query(ItemsParams(topic, searchTerm, forReading, onlyWithComments, username));
    if topic.TopicNumber? {
      assert url == ("items_old" + "/?") + query;
      assert "items_old" + "/?" == "items_old/?";
      PrefixOfConcat("items_old/?", query);
    } else {
      assert url == ("items" + "/?") + query;
      assert "items" + "/?" == "items/?";
      PrefixOfConcat("items/?", query);
    }
  }

  lemma PrefixOfConcat(a: string, b: string)
    ensures a <= a + b
  {
    assert (a + b)[..|a|] == a;
  }

  /** The server reads the `fetchItems` query back into the parameters
      that were appended, in order, whatever characters the search term
      holds: the query splits at '&' into one piece per parameter, each
      splits at '=' into its encoded name and value, and those decode to
      the appended texts. */
  lemma ItemsQueryReadsBack(topic: TopicParam, searchTerm: string, forReading: bool, onlyWithComments: bool,
                            username: string)
    ensures var ps := ItemsParams(topic, searchTerm, forReading, onlyWithComments, username);
            var base := if topic.TopicNumber? then "items_old" else "items";
            var query := UrlEncoding.Query(ps);
            var pieces := Split(query, '&');
            ItemsEndpoint(topic, searchTerm, forReading, onlyWithComments, username) == base + "/?" + query &&
            |pieces| == |ps| &&
            forall i :: 0 <= i < |ps| ==>
              Split(pieces[i], '=') == [UrlEncoding.FormEncode(ps[i].0), UrlEncoding.FormEncode(ps[i].1)] &&
              UrlEncoding.Ascii(UrlEncoding.FormEncode(ps[i].1)) &&
              UrlEncoding.Utf8Codes(UrlEncoding.FormDecode(UrlEncoding.FormEncode(ps[i].1))) == UrlEncoding.Codes(ps[i].1)
  {
    UrlEncoding.QuerySplits(ItemsParams(topic, searchTerm, forReading, onlyWithComments, username));
  }

  /** `fetchItems`: the list body on status 200, [] on any other status or
      a thrown error. */
  function ItemsResult(c: Config, env: Env, endpoint: string): (out: (seq<Item>, Env))
    ensures !Authenticated(env) ==> out == ([], env)
    ensures out.1.files == env.files
    ensures out.0 != [] ==> (FetchResult(c, env, endpoint, Get, map[], NoBody).result.Ok? &&
                             FetchResult(c, env, endpoint, Get, map[], NoBody).result.value.status == 200)
  {
    var f := FetchResult(c, env, endpoint, Get, map[], NoBody);
    match f.result
    case Ok(response) => (if response.status == 200 then response.items else [], f.env)
    case Err(_) => ([], f.env)
  }

  /** The items are the body's list exactly when the request was answered
      with status 200, and [] otherwise; the session is the request's. */
  lemma ItemsResultReadsBody(c: Config, env: Env, endpoint: string)
    ensures var f := FetchResult(c, env, endpoint, Get, map[], NoBody);
            var out := ItemsResult(c, env, endpoint);
            out.1 == f.env &&
            (f.result.Ok? && f.result.value.status == 200 ==> out.0 == f.result.value.items) &&
            (f.result.Err? || f.result.value.status != 200 ==> out.0 == [])
  {
  }

  /** `String.fromCharCode` of each byte: the text the download loop builds. */
  function ByteChars(b: Bytes): (s: string)
    ensures |s| == |b|
    ensures forall i :: 0 <= i < |b| ==> s[i] as int == b[i] as int
  {
    if b == [] then [] else [(b[0] as int) as char] + ByteChars(b[1..])
  }

  /** The bytes a Latin-1 text stands for: what base64-encoding it and
      writing the result with the `base64` encoding puts on disk. */
  function CharBytes(s: string): (b: Bytes)
    requires forall i :: 0 <= i < |s| ==> s[i] as int < 256
    ensures |b| == |s|
  {
    if s == [] then [] else [(s[0] as int) as bv8] + CharBytes(s[1..])
  }

  /** The file written is byte for byte the body that was received. */
  lemma {:induction false} ByteCharsRoundTrip(b: Bytes)
    ensures CharBytes(ByteChars(b)) == b
  {
    if b != [] {
      ByteCharsRoundTrip(b[1..]);
      assert ByteChars(b) == [(b[0] as int) as char] + ByteChars(b[1..]);
      assert ByteChars(b)[1..] == ByteChars(b[1..]);
    }
  }

  /** The options object a caller passes to `fetchWithAuth`; its headers
      are rewritten in place. */
  class RequestOptions {
    var verb: Method
    var headers: map<string, string>
    var body: Body

    constructor(verb: Method, headers: map<string, string>, body: Body)
      ensures this.verb == verb && this.headers == headers && this.body == body
    {
      this.verb := verb;
      this.headers := headers;
      this.body := body;
    }
  }

  /** The service module with its collaborators: the encrypted store, the
      document directory and the request log. */
  class Client {
    const config: Config
    var store: Option<Tokens>
    var files: map<string, Bytes>
    var sent: seq<Request>

    constructor(config: Config, store: Option<Tokens>, files: map<string, Bytes>)
      ensures this.config == config && State() == Env(store, files, [])
    {
      this.config := config;
      this.store := store;
      this.files := files;
      this.sent := [];
    }

    function State(): Env
      reads this
    {
      Env(store, files, sent)
    }

    /** `getStoredTokens`. */
    method GetStoredTokens() returns (tokens: Option<Tokens>)
      ensures tokens == store
    {
      tokens := store;
    }

    /** `storeTokens`. */
    method StoreTokens(accessToken: string, refreshToken: string)
      modifies this
      ensures State() == old(State()).(store := Some(Tokens(accessToken, refreshToken)))
    {
      store := Some(Tokens(accessToken, refreshToken));
    }

    /** `fetch`: one request to the server, logged. */
    method Fetch(req: Request) returns (reply: Reply)
      modifies this
      ensures (reply, State()) == Send(config, old(State()), req)
    {
      reply := config.server(|sent|, req);
      sent := sent + [req];
    }

    /** `refreshAccessToken`. */
    method RefreshAccessToken() returns (token: Option<string>)
      modifies this
      ensures (token, State()) == RefreshResult(config, old(State()))
    {
      var tokens := GetStoredTokens();
      if tokens.None? || tokens.value.refreshToken == "" {
        return None;
      }
      var reply := Fetch(RefreshRequest(config, tokens.value.refreshToken));
      if reply.NetworkFailure? || !IsOk(reply.response) {
        return None;
      }
      var access := Field(reply.response, "access_token");
      StoreTokens(access, tokens.value.refreshToken);
      return Some(access);
    }

    /** `fetchWithAuth(endpoint, options)`: `options.headers` is rewritten
        in place with the bearer token, and again with the refreshed one. */
    method FetchWithAuth(endpoint: string, options: RequestOptions) returns (result: Result<Response, FetchError>)
      modifies this, options
      ensures options.verb == old(options.verb) && options.body == old(options.body)
      ensures Fetched(result, State(), options.headers) ==
              FetchResult(config, old(State()), endpoint, options.verb, old(options.headers), options.body)
    {
      var tokens := GetStoredTokens();
      if tokens.None? || tokens.value.accessToken == "" {
        return Err(NotAuthenticated);
      }
      options.headers := options.headers[Authorization := Bearer(tokens.value.accessToken)];
      var req := Request(config.apiUrl + "/" + endpoint, options.verb, options.headers, options.body);
      var reply := Fetch(req);
      if reply.NetworkFailure? {
        return Err(NetworkError);
      }
      if reply.response.status == 401 {
        var newToken := RefreshAccessToken();
        if newToken.None? || newToken.value == "" {
          return Err(RefreshFailed);
        }
        options.headers := options.headers[Authorization := Bearer(newToken.value)];
        reply := Fetch(req.(headers := options.headers));
        if reply.NetworkFailure? {
          return Err(NetworkError);
        }
      }
      return Ok(reply.response);
    }

    /** `loginUser`. */
    method LoginUser(username: string, password: string) returns (data: Option<map<string, string>>)
      modifies this
      ensures (data, State()) == LoginResult(config, old(State()), username, password)
    {
      var reply := Fetch(LoginRequest(config, username, password));
      if reply.NetworkFailure? || !IsOk(reply.response) {
        return None;
      }
      StoreTokens(Field(reply.response, "access_token"), Field(reply.response, "refresh_token"));
      return Some(reply.response.fields);
    }

    /** `logoutUser`. */
    method LogoutUser()
      modifies this
      ensures State() == LogoutResult(old(State()))
    {
      store := None;
    }

    method StatusCall(endpoint: string, verb: Method, body: Json) returns (ok: bool)
      modifies this
      ensures (ok, State()) == StatusResult(config, old(State()), endpoint, verb, body)
    {
      var options := new RequestOptions(verb, JsonContent, JsonBody(body));
      var result := FetchWithAuth(endpoint, options);
      ok := result.Ok? && result.value.status == 200;
    }

    /** `update_done(id)`. */
    method UpdateDone(id: string) returns (ok: bool)
      modifies this
      ensures (ok, State()) == StatusResult(config, old(State()), "update_done/", Put, UpdateDoneBody(id))
    {
      ok := StatusCall("update_done/", Put, UpdateDoneBody(id));
    }

    /** `update_marked(id, marked)`. */
    method UpdateMarked(id: string, marked: bool) returns (ok: bool)
      modifies this
      ensures (ok, State()) == StatusResult(config, old(State()), "mark_for_reading/", Put, UpdateMarkedBody(id, marked))
    {
      ok := StatusCall("mark_for_reading/", Put, UpdateMarkedBody(id, marked));
    }

    /** `saveComment(id, comments)`. */
    method SaveComment(id: string, comments: seq<Comment>) returns (ok: bool)
      modifies this
      ensures (ok, State()) == StatusResult(config, old(State()), "update_comment/", Put, SaveCommentBody(id, comments))
    {
      ok := StatusCall("update_comment/", Put, SaveCommentBody(id, comments));
    }

    /** `download_mp3(audioName)`, with the loop that turns the body into a
        binary string before it is base64-encoded and written. */
    method DownloadMp3(audioName: string) returns (path: Option<string>)
      modifies this
      ensures (path, State()) == DownloadResult(config, old(State()), audioName)
    {
      var localPath := CachePath(config, audioName);
      if config.fs.existsRejects(|sent|, localPath) {
        return None;
      }
      if localPath in files {
        return Some(localPath);
      }
      var options := new RequestOptions(Get, map[], NoBody);
      var result := FetchWithAuth("download_mp3/" + audioName, options);
      if result.Err? || !IsOk(result.value) {
        return None;
      }
      var binary := BinaryString(result.value.data);
      ByteCharsRoundTrip(result.value.data);
      match config.fs.write(|sent|, localPath, CharBytes(binary))
      case Written =>
        files := files[localPath := CharBytes(binary)];
        return Some(localPath);
      case WriteRejected(left) =>
        files := AfterRejectedWrite(files, localPath, left);
        return None;
    }

    /** `fetchItems(topicId, search_term, for_reading, only_with_comments, username)`. */
    method FetchItems(topic: TopicParam, searchTerm: string, forReading: bool, onlyWithComments: bool,
                      username: string) returns (items: seq<Item>)
      modifies this
      ensures (items, State()) ==
              ItemsResult(config, old(State()), ItemsEndpoint(topic, searchTerm, forReading, onlyWithComments, username))
    {
      var url := ItemsEndpoint(topic, searchTerm, forReading, onlyWithComments, username);
      var options := new RequestOptions(Get, map[], NoBody);
      var result := FetchWithAuth(url, options);
      if result.Ok? && result.value.status == 200 {
        items := result.value.items;
      } else {
        items := [];
      }
    }
  }

  /** The loop of `download_mp3` that appends `String.fromCharCode` of each
      byte of the body. */
  method BinaryString(buffer: Bytes) returns (s: string)
    ensures s == ByteChars(buffer)
  {
    s := "";
    var i := 0;
    while i < |buffer|
      invariant 0 <= i <= |buffer|
      invariant |s| == i
      invariant forall j :: 0 <= j < i ==> s[j] as int == buffer[j] as int
    {
      s := s + [(buffer[i] as int) as char];
      i := i + 1;
    }
    ByteCharsUnique(buffer, s);
  }

  /** `ByteChars` is the only text with those character codes. */
  lemma ByteCharsUnique(b: Bytes, s: string)
    requires |s| == |b| && forall j :: 0 <= j < |b| ==> s[j] as int == b[j] as int
    ensures s == ByteChars(b)
  {
  }
}
