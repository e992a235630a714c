/** The extractor services' REST client (services/web_extractor/api_client.py):
    a `requests` session that logs in with a password form, keeps the bearer
    token in its default headers, and on HTTP 401 refreshes the token once
    and resends once.

    `requests` is a `PyServer` oracle that answers the n-th call, or fails
    with a `RequestException` (connection error, timeout). A plain
    `Exception` raised inside the client is not caught by it and escapes to
    the caller; the outcomes name that case `Raised`. */
module ApiClient {
  import opened Common
  import opened ApiService

  /** One `session.request(...)`: the session's default headers go with it;
      `params`, `json` and the form `data` are its optional arguments. */
  datatype Call = Call(verb: Method, url: string, headers: map<string, string>, params: Option<Json>,
                       json: Option<Json>, form: seq<(string, string)>)

  datatype Answer = Answer(status: int, body: Json)

  datatype PyReply = Answered(answer: Answer) | RequestFailed

  type PyServer = (nat, Call) -> PyReply

  /** The client's fields, the session's default headers and every call
      made so far. `None` is Python's `None`. */
  datatype Session = Session(access: Option<string>, refresh: Option<string>, headers: map<string, string>,
                             sent: seq<Call>)

  /** `response.raise_for_status()` raises for client and server errors. */
  predicate RaisesForStatus(status: int)
  {
    400 <= status < 600
  }

  /** `body.get(key)` when the body is a JSON object whose value there is a
      string; "" for an absent, empty or non-string value. */
  function TokenText(body: Json, key: string): string
  {
    match body
    case JObject(members) => MemberText(members, key)
    case _ => ""
  }

  /** The last member named `key` wins, as when Python builds a dict. */
  function MemberText(members: seq<(string, Json)>, key: string): string
  {
    if members == [] then ""
    else
      var last := members[|members| - 1];
      if last.0 == key then (if last.1.JStr? then last.1.s else "") else MemberText(members[..|members| - 1], key)
  }

  function PySend(server: PyServer, s: Session, call: Call): (PyReply, Session)
  {
    (server(|s.sent|, call), s.(sent := s.sent + [call]))
  }

  datatype LoginOutcome = LoggedIn(accessToken: string, refreshToken: string) | LoginFailed | LoginRaised

  function LoginCall(baseUrl: string, s: Session, username: string, password: string): Call
  {
    Call(Post, baseUrl + "/token", s.headers, None, None, [("username", username), ("password", password)])
  }

  /** `login(username, password)`: the token pair, with the bearer header
      set, when the answer is not an error and carries both tokens;
      `(None, None)` on a `RequestException` or an error status; a plain
      exception when a token is missing. */
  function SessionLogin(baseUrl: string, server: PyServer, s: Session, username: string, password: string)
    : (out: (LoginOutcome, Session))
    ensures out.1.sent == s.sent + [LoginCall(baseUrl, s, username, password)]
    ensures out.1.access == s.access && out.1.refresh == s.refresh
    ensures out.0.LoggedIn? ==>
              (out.0.accessToken != "" && out.0.refreshToken != "" &&
               out.1.headers == s.headers[Authorization := Bearer(out.0.accessToken)])
    ensures !out.0.LoggedIn? ==> out.1.headers == s.headers
    ensures out.0.LoginRaised? <==>
              (var reply := server(|s.sent|, LoginCall(baseUrl, s, username, password));
               reply.Answered? && !RaisesForStatus(reply.answer.status) &&
               (TokenText(reply.answer.body, "access_token") == "" || TokenText(reply.answer.body, "refresh_token") == ""))
    ensures var reply := server(|s.sent|, LoginCall(baseUrl, s, username, password));
            (out.0 == LoginFailed <==> reply.RequestFailed? || RaisesForStatus(reply.answer.status)) &&
            (reply.Answered? && !RaisesForStatus(reply.answer.status) &&
             TokenText(reply.answer.body, "access_token") != "" && TokenText(reply.answer.body, "refresh_token") != "" ==>
               out.0 == LoggedIn(TokenText(reply.answer.body, "access_token"), TokenText(reply.answer.body, "refresh_token")))
  {
    var (reply, s1) := PySend(server, s, LoginCall(baseUrl, s, username, password));
    match reply
    case RequestFailed => (LoginFailed, s1)
    case Answered(answer) =>
      if RaisesForStatus(answer.status) then (LoginFailed, s1)
      else
        var access := TokenText(answer.body, "access_token");
        var refresh := TokenText(answer.body, "refresh_token");
        if access == "" || refresh == "" then (LoginRaised, s1)
        else (LoggedIn(access, refresh), s1.(headers := s1.headers[Authorization := Bearer(access)]))
  }

  datatype RefreshOutcome = Refreshed | NotRefreshed | RefreshRaised

  function RefreshCall(baseUrl: string, s: Session, refreshToken: string): Call
  {
    Call(Post, baseUrl + "/refresh", s.headers, None, Some(JObject([("refresh_token", JStr(refreshToken))])), [])
  }

  /** A falsy refresh token: `None` or empty. */
  predicate NoRefreshToken(s: Session)
  {
    s.refresh.None? || s.refresh.value == ""
  }

  /** `refresh_access_token()`. */
  function SessionRefresh(baseUrl: string, server: PyServer, s: Session): (out: (RefreshOutcome, Session))
    ensures NoRefreshToken(s) ==> out == (NotRefreshed, s)
    ensures !NoRefreshToken(s) ==> out.1.sent == s.sent + [RefreshCall(baseUrl, s, s.refresh.value)]
    ensures out.1.refresh == s.refresh
    ensures out.0 != Refreshed ==> out.1.access == s.access && out.1.headers == s.headers
    ensures out.0 == Refreshed ==>
              (out.1.access.Some? && out.1.access.value != "" &&
               out.1.headers == s.headers[Authorization := Bearer(out.1.access.value)])
    ensures !NoRefreshToken(s) ==>
              var reply := server(|s.sent|, RefreshCall(baseUrl, s, s.refresh.value));
              var answered := reply.Answered? && !RaisesForStatus(reply.answer.status);
              (out.0 == Refreshed <==> answered && TokenText(reply.answer.body, "access_token") != "") &&
              (out.0 == RefreshRaised <==> answered && TokenText(reply.answer.body, "access_token") == "") &&
              (out.0 == Refreshed ==> out.1.access == Some(TokenText(reply.answer.body, "access_token")))
  {
    if NoRefreshToken(s) then (NotRefreshed, s)
    else
      var (reply, s1) := PySend(server, s, RefreshCall(baseUrl, s, s.refresh.value));
      match reply
      case RequestFailed => (NotRefreshed, s1)
      case Answered(answer) =>
        if RaisesForStatus(answer.status) then (NotRefreshed, s1)
        else
          var access := TokenText(answer.body, "access_token");
          if access == "" then (RefreshRaised, s1)
          else (Refreshed, s1.(access := Some(access), headers := s1.headers[Authorization := Bearer(access)]))
  }

  datatype Outcome = Data(json: Json) | NoData | Raised

  /** The URL `request_with_retries` calls: always with a trailing slash. */
  function EndpointUrl(baseUrl: string, endpoint: string): string
  {
    baseUrl + "/" + endpoint + "/"
  }

  /** The answer that ends a request: its JSON body, or `None` for an error
      status. */
  function Final(answer: Answer): (o: Outcome)
    ensures o.Data? <==> !RaisesForStatus(answer.status)
    ensures o.Data? ==> o.json == answer.body
  {
    if RaisesForStatus(answer.status) then NoData else Data(answer.body)
  }

  /** `request_with_retries(method, endpoint, params, json)`. */
  function RequestResult(baseUrl: string, server: PyServer, s: Session, verb: Method, endpoint: string,
                         params: Option<Json>, json: Option<Json>): (out: (Outcome, Session))
    ensures |s.sent| < |out.1.sent| <= |s.sent| + 3 && s.sent <= out.1.sent
    ensures out.1.sent[|s.sent|] == Call(verb, EndpointUrl(baseUrl, endpoint), s.headers, params, json, [])
    ensures out.1.refresh == s.refresh
    ensures out.0.Raised? ==> |out.1.sent| == |s.sent| + 2
    ensures var first := server(|s.sent|, out.1.sent[|s.sent|]);
            first.RequestFailed? ==> out == (NoData, out.1) && |out.1.sent| == |s.sent| + 1
    ensures var first := server(|s.sent|, out.1.sent[|s.sent|]);
            first.Answered? && first.answer.status != 401 ==>
              out == (Final(first.answer), s.(sent := s.sent + [out.1.sent[|s.sent|]]))
  {
    var call := Call(verb, EndpointUrl(baseUrl, endpoint), s.headers, params, json, []);
    var (reply, s1) := PySend(server, s, call);
    match reply
    case RequestFailed => (NoData, s1)
    case Answered(answer) =>
      if answer.status != 401 then (Final(answer), s1)
      else
        var (refreshed, s2) := SessionRefresh(baseUrl, server, s1);
        match refreshed
        case RefreshRaised => (Raised, s2)
        case NotRefreshed => (NoData, s2)
        case Refreshed =>
          var (reply2, s3) := PySend(server, s2, call.(headers := s2.headers));
          match reply2
          case RequestFailed => (NoData, s3)
          case Answered(answer2) => (Final(answer2), s3)
  }

  /** On a 401 the client refreshes at most once and resends at most once,
      with the new bearer header; a failed refresh returns `None` without
      resending, and a second 401 is returned as `None`, not retried. */
  lemma RequestAfter401(baseUrl: string, server: PyServer, s: Session, verb: Method, endpoint: string,
                        params: Option<Json>, json: Option<Json>)
    requires var first := server(|s.sent|, Call(verb, EndpointUrl(baseUrl, endpoint), s.headers, params, json, []));
             first.Answered? && first.answer.status == 401
    ensures var (o, s3) := RequestResult(baseUrl, server, s, verb, endpoint, params, json);
            var (r, s2) := SessionRefresh(baseUrl, server, s.(sent := s.sent + [s3.sent[|s.sent|]]));
            (r == NotRefreshed ==> o == NoData && s3 == s2) &&
            (r == RefreshRaised ==> o == Raised && s3 == s2) &&
            (r == Refreshed ==>
               |s3.sent| == |s2.sent| + 1 &&
               s3.sent[|s2.sent|] == Call(verb, EndpointUrl(baseUrl, endpoint), s2.headers, params, json, []) &&
               s3.sent[|s2.sent|].headers[Authorization] == Bearer(s2.access.value) &&
               (var second := server(|s2.sent|, s3.sent[|s2.sent|]);
                second.Answered? && second.answer.status == 401 ==> o == NoData))
  {
  }

  /** The client object. */
  class Client {
    const baseUrl: string
    const server: PyServer
    var accessToken: Option<string>
    var refreshToken: Option<string>
    var headers: map<string, string>
    var sent: seq<Call>

    constructor(baseUrl: string, server: PyServer)
      ensures this.baseUrl == baseUrl && this.server == server
      ensures State() == Session(None, None, map[], [])
    {
      this.baseUrl := baseUrl;
      this.server := server;
      accessToken, refreshToken, headers, sent := None, None, map[], [];
    }

    function State(): Session
      reads this
    {
      Session(accessToken, refreshToken, headers, sent)
    }

    method Request(call: Call) returns (reply: PyReply)
      modifies this
      ensures (reply, State()) == PySend(server, old(State()), call)
    {
      reply := server(|sent|, call);
      sent := sent + [call];
    }

    /** `login(username, password)`. */
    method Login(username: string, password: string) returns (outcome: LoginOutcome)
      modifies this
      ensures (outcome, State()) == SessionLogin(baseUrl, server, old(State()), username, password)
    {
      var reply := Request(LoginCall(baseUrl, State(), username, password));
      if reply.RequestFailed? || RaisesForStatus(reply.answer.status) {
        return LoginFailed;
      }
      var access := TokenText(reply.answer.body, "access_token");
      var refresh := TokenText(reply.answer.body, "refresh_token");
      if access == "" || refresh == "" {
        return LoginRaised;
      }
      headers := headers[Authorization := Bearer(access)];
      return LoggedIn(access, refresh);
    }

    /** `refresh_access_token()`. */
    method RefreshAccessToken() returns (outcome: RefreshOutcome)
      modifies this
      ensures (outcome, State()) == SessionRefresh(baseUrl, server, old(State()))
    {
      if refreshToken.None? || refreshToken.value == "" {
        return NotRefreshed;
      }
      var reply := Request(RefreshCall(baseUrl, State(), refreshToken.value));
      if reply.RequestFailed? || RaisesForStatus(reply.answer.status) {
        return NotRefreshed;
      }
      var access := TokenText(reply.answer.body, "access_token");
      if access == "" {
        return RefreshRaised;
      }
      accessToken := Some(access);
      headers := headers[Authorization := Bearer(access)];
      return Refreshed;
    }

    /** `request_with_retries(method, endpoint, params, json)`. */
    method RequestWithRetries(verb: Method, endpoint: string, params: Option<Json>, json: Option<Json>)
      returns (outcome: Outcome)
      modifies this
      ensures (outcome, State()) == RequestResult(baseUrl, server, old(State()), verb, endpoint, params, json)
    {
      var call := Call(verb, EndpointUrl(baseUrl, endpoint), headers, params, json, []);
      var reply := Request(call);
      if reply.RequestFailed? {
        return NoData;
      }
      if reply.answer.status == 401 {
        var refreshed := RefreshAccessToken();
        if refreshed == RefreshRaised {
          return Raised;
        }
        if refreshed == NotRefreshed {
          return NoData;
        }
        reply := Request(call.(headers := headers));
        if reply.RequestFailed? {
          return NoData;
        }
      }
      return Final(reply.answer);
    }

    /** `get_data(endpoint, params)`. */
    method GetData(endpoint: string, params: Option<Json>) returns (outcome: Outcome)
      modifies this
      ensures (outcome, State()) == RequestResult(baseUrl, server, old(State()), Get, endpoint, params, None)
    {
      outcome := RequestWithRetries(Get, endpoint, params, None);
    }

    /** `post_data(endpoint, payload)`. */
    method PostData(endpoint: string, payload: Json) returns (outcome: Outcome)
      modifies this
      ensures (outcome, State()) == RequestResult(baseUrl, server, old(State()), Post, endpoint, None, Some(payload))
    {
      outcome := RequestWithRetries(Post, endpoint, None, Some(payload));
    }

    /** `put_data(endpoint, payload)`. */
    method PutData(endpoint: string, payload: Json) returns (outcome: Outcome)
      modifies this
      ensures (outcome, State()) == RequestResult(baseUrl, server, old(State()), Put, endpoint, None, Some(payload))
    {
      outcome := RequestWithRetries(Put, endpoint, None, Some(payload));
    }
  }

  /** `APIClient(base_url, username, password)`: logs in and keeps the
      tokens login returns, `None` for both when it fails; `None` here when
      login raises, which aborts the constructor. */
  method Connect(baseUrl: string, server: PyServer, username: string, password: string) returns (c: Option<Client>)
    ensures c.Some? ==> fresh(c.value) && c.value.baseUrl == baseUrl && c.value.server == server
    ensures var (outcome, s) := SessionLogin(baseUrl, server, Session(None, None, map[], []), username, password);
            (c.None? <==> outcome.LoginRaised?) &&
            (c.Some? && outcome.LoggedIn? ==>
               c.value.State() == s.(access := Some(outcome.accessToken), refresh := Some(outcome.refreshToken))) &&
            (c.Some? && outcome.LoginFailed? ==> c.value.State() == s)
  {
    var client := new Client(baseUrl, server);
    var outcome := client.Login(username, password);
    if outcome.LoginRaised? {
      return None;
    }
    if outcome.LoggedIn? {
      client.accessToken, client.refreshToken := Some(outcome.accessToken), Some(outcome.refreshToken);
    }
    return Some(client);
  }
}
