/** src/api/github-api.ts: the request dispatcher. A request first makes
    sure a credential client is held, then goes either through `gh` (CLI
    configuration) or through an HTTPS request with the client's headers
    (anything else). Building the physical call (`Plan`) and reading its
    answer (`Interpret`, `InterpretCli`) are pure; `Request` strings them
    together with the selector's state. */
module Api {
  import opened Wrappers
  import opened Strings
  import opened Json
  import opened Types
  import opened Auth
  import PatClient
  import CliClient

  const BaseUrl := "https://api.github.com"

  /** The fetch URL: an endpoint starting with `http` is used as is, any
      other is appended to the API host. */
  function FetchUrl(endpoint: string): (url: string)
    ensures StartsWith(endpoint, "http") ==> url == endpoint
    ensures !StartsWith(endpoint, "http") ==> url == BaseUrl + endpoint
  {
    if StartsWith(endpoint, "http") then endpoint else BaseUrl + endpoint
  }

  /** The endpoint handed to `gh`: a leading API host is removed, anything
      else is left alone. */
  function CliEndpoint(endpoint: string): (e: string)
    ensures StartsWith(endpoint, BaseUrl) ==> BaseUrl + e == endpoint
    ensures !StartsWith(endpoint, BaseUrl) ==> e == endpoint
    ensures |e| <= |endpoint|
  {
    if StartsWith(endpoint, BaseUrl) then
      assert endpoint == BaseUrl + endpoint[|BaseUrl|..];
      endpoint[|BaseUrl|..]
    else endpoint
  }

  /** `options.method || 'GET'`: an absent or empty method means GET. */
  function MethodOrGet(m: Option<string>): (r: string)
    ensures r != ""
    ensures m.Some? && m.value != "" ==> r == m.value
  {
    if m.Some? && m.value != "" then m.value else "GET"
  }

  /** `{ ...authHeaders, ...overrides }`: the caller's headers win on a clash. */
  function MergeHeaders(authHeaders: Headers, overrides: Option<Headers>): (h: Headers)
    ensures overrides.None? ==> h == authHeaders
    ensures overrides.Some? ==> h.Keys == authHeaders.Keys + overrides.value.Keys
    ensures overrides.Some? ==> forall k :: k in overrides.value ==> h[k] == overrides.value[k]
    ensures forall k :: k in authHeaders && (overrides.None? || k !in overrides.value) ==> h[k] == authHeaders[k]
  {
    if overrides.None? then authHeaders else authHeaders + overrides.value
  }

  /** The physical call `request` makes under `config`: through `gh` for a
      CLI configuration, as an HTTPS request otherwise. */
  function Plan(config: AuthConfig, authHeaders: Headers, endpoint: string, options: RequestOptions): (c: TransportCall)
    ensures c.Cli? <==> config.authMethod == CLI
    ensures c.Cli? ==> c == CliClient.ApiRequestCall(MethodOrGet(options.httpMethod), CliEndpoint(endpoint), options.body)
    ensures c.Fetch? ==> c.url == FetchUrl(endpoint) && c.httpMethod == MethodOrGet(options.httpMethod)
    ensures c.Fetch? ==> c.headers == MergeHeaders(authHeaders, options.headers)
    ensures c.Fetch? ==> (c.body.Some? <==> TruthyValue(options.body)) && (c.body.Some? ==> c.body == options.body)
  {
    var httpMethod := MethodOrGet(options.httpMethod);
    if config.authMethod == CLI then
      CliClient.ApiRequestCall(httpMethod, CliEndpoint(endpoint), options.body)
    else
      Fetch(FetchUrl(endpoint), httpMethod, MergeHeaders(authHeaders, options.headers),
            if TruthyValue(options.body) then options.body else None)
  }

  /** `parseResponseBody`: JSON exactly when the content type mentions
      `application/json` (a missing content type means text). */
  function ParseResponseBody(response: HttpResponse, parse: JsonParser): (r: Result<Json>)
    ensures response.contentType.Some? && Contains(response.contentType.value, "application/json") ==>
      r == parse(response.body)
    ensures !(response.contentType.Some? && Contains(response.contentType.value, "application/json")) ==>
      r == Ok(JStr(response.body))
  {
    var contentType := if response.contentType.Some? then response.contentType.value else "";
    if Contains(contentType, "application/json") then parse(response.body) else Ok(JStr(response.body))
  }

  const ApiErrorPrefix := "GitHub API error! Status: "

  /** The message of `createApiError`: a string body verbatim, any other
      body through `JSON.stringify`. Only this message is thrown. */
  function CreateApiError(status: int, body: Json, stringify: JsonPrinter): (message: string)
    ensures StartsWith(message, ApiErrorPrefix + IntToString(status) + ", Message: ")
    ensures body.JStr? ==> message[|ApiErrorPrefix + IntToString(status) + ", Message: "|..] == body.s
    ensures !body.JStr? ==> message[|ApiErrorPrefix + IntToString(status) + ", Message: "|..] == stringify(body)
  {
    var prefix := ApiErrorPrefix + IntToString(status) + ", Message: ";
    var shown := if body.JStr? then body.s else stringify(body);
    assert (prefix + shown)[..|prefix|] == prefix;
    prefix + shown
  }

  /** How `requestViaFetch` settles: a rejected fetch and a body that fails
      to parse propagate; a non-ok status always throws the API error; an
      ok status returns the parsed body. */
  function Interpret(reply: Result<HttpResponse>, parse: JsonParser, stringify: JsonPrinter): (r: Result<Json>)
    ensures reply.Err? ==> r == Err(reply.msg)
    ensures reply.Ok? && !IsOk(reply.value.status) ==> r.Err?
    ensures reply.Ok? && !IsOk(reply.value.status) && ParseResponseBody(reply.value, parse).Ok? ==>
      r == Err(CreateApiError(reply.value.status, ParseResponseBody(reply.value, parse).value, stringify))
    ensures r.Ok? <==> reply.Ok? && IsOk(reply.value.status) && ParseResponseBody(reply.value, parse).Ok?
    ensures r.Ok? ==> r == ParseResponseBody(reply.value, parse)
  {
    match reply
    case Err(m) => Err(m)
    case Ok(response) =>
      match ParseResponseBody(response, parse)
      case Err(m) => Err(m)
      case Ok(body) =>
        if !IsOk(response.status) then Err(CreateApiError(response.status, body, stringify)) else Ok(body)
  }

  /** A 404 answered with the text `Not Found` surfaces as the API error, never as a value. */
  lemma NotFoundIsAnError(parse: JsonParser, stringify: JsonPrinter)
    ensures Interpret(Ok(HttpResponse(404, "Not Found", None, "Not Found")), parse, stringify)
         == Err("GitHub API error! Status: 404, Message: Not Found")
  {
    var response := HttpResponse(404, "Not Found", None, "Not Found");
    assert ParseResponseBody(response, parse) == Ok(JStr("Not Found")) by {
      assert !Contains("", "application/json");
    }
    NotFoundMessage(stringify);
  }

  lemma NotFoundMessage(stringify: JsonPrinter)
    ensures CreateApiError(404, JStr("Not Found"), stringify) == "GitHub API error! Status: 404, Message: Not Found"
  {
    StatusText404();
    var prefix := ApiErrorPrefix + IntToString(404) + ", Message: ";
    assert prefix == "GitHub API error! Status: 404, Message: ";
  }

  lemma StatusText404()
    ensures IntToString(404) == "404"
  {
    assert NatToString(4) == "4";
    assert NatToString(40) == NatToString(4) + ['0'];
    assert NatToString(404) == NatToString(40) + ['4'];
  }

  const CliFailurePrefix := "GitHub CLI API request failed: "

  /** How `requestViaCli` settles: whatever `apiRequest` rejects with is
      rethrown behind the prefix, with the original error rendered as
      `Error: <message>`. */
  function InterpretCli(outcome: ProcessOutcome, parse: JsonParser): (r: Result<Json>)
    ensures CliClient.ApiRequestResult(outcome, parse).Ok? ==> r == CliClient.ApiRequestResult(outcome, parse)
    ensures CliClient.ApiRequestResult(outcome, parse).Err? ==>
      r == Err(CliFailurePrefix + "Error: " + CliClient.ApiRequestResult(outcome, parse).msg)
    ensures outcome.Exited? && outcome.code != 0 ==>
      r == Err(CliFailurePrefix + "Error: " + CliFailurePrefix + outcome.stderr)
  {
    match CliClient.ApiRequestResult(outcome, parse)
    case Ok(v) => Ok(v)
    case Err(m) =>
      assert outcome.Exited? && outcome.code != 0 ==>
        CliFailurePrefix + "Error: " + m == CliFailurePrefix + "Error: " + CliFailurePrefix + outcome.stderr;
      Err(CliFailurePrefix + "Error: " + m)
  }

  function RepoPath(owner: string, repo: string): string
  {
    "/repos/" + owner + "/" + repo
  }

  /** One call to the API layer, as the tools make them. */
  datatype ApiCall =
    | CreatePullRequest(owner: string, repo: string, data: Json)
    | ListOpenPullRequests(owner: string, repo: string, perPage: int)
    | GetPullRequest(owner: string, repo: string, prNumber: int)
    | UpdatePullRequest(owner: string, repo: string, prNumber: int, data: Json)
    | GetPullRequestDiff(owner: string, repo: string, prNumber: int)
    | RequestReviewers(owner: string, repo: string, prNumber: int, reviewers: seq<string>)
    | AddComment(owner: string, repo: string, prNumber: int, body: string)
    | AddReviewComment(owner: string, repo: string, prNumber: int, data: Json)
    | GetIssueComments(owner: string, repo: string, prNumber: int)
    | GetReviewComments(owner: string, repo: string, prNumber: int)
    | GetFiles(owner: string, repo: string, prNumber: int)
  {
    /** Calls that change something on GitHub. */
    predicate Mutates()
    {
      CreatePullRequest? || UpdatePullRequest? || RequestReviewers? || AddComment? || AddReviewComment?
    }
  }

  function PullPath(owner: string, repo: string, prNumber: int): string
  {
    RepoPath(owner, repo) + "/pulls/" + IntToString(prNumber)
  }

  /** The endpoint table: every call but the diff goes through `request`
      with a relative path under the repository, and exactly the mutating
      calls carry a method and a body. */
  function Endpoint(call: ApiCall): (r: (string, RequestOptions))
    requires !call.GetPullRequestDiff?
    ensures r.1.httpMethod.Some? <==> call.Mutates()
    ensures r.1.body.Some? <==> call.Mutates()
    ensures r.1.headers.None?
    ensures call.CreatePullRequest? ==> r == (RepoPath(call.owner, call.repo) + "/pulls", RequestOptions(Some("POST"), None, Some(call.data)))
    ensures call.UpdatePullRequest? ==> r == (PullPath(call.owner, call.repo, call.prNumber), RequestOptions(Some("PATCH"), None, Some(call.data)))
    ensures call.ListOpenPullRequests? ==>
      r.0 == RepoPath(call.owner, call.repo) + "/pulls?state=open&per_page=" + IntToString(call.perPage)
    ensures call.AddComment? ==> r == (RepoPath(call.owner, call.repo) + "/issues/" + IntToString(call.prNumber) + "/comments",
                                       RequestOptions(Some("POST"), None, Some(JObj([("body", JStr(call.body))]))))
    ensures call.GetIssueComments? ==> r.0 == RepoPath(call.owner, call.repo) + "/issues/" + IntToString(call.prNumber) + "/comments"
    ensures call.GetReviewComments? ==> r.0 == PullPath(call.owner, call.repo, call.prNumber) + "/comments"
    ensures call.AddReviewComment? ==> r == (PullPath(call.owner, call.repo, call.prNumber) + "/comments",
                                             RequestOptions(Some("POST"), None, Some(call.data)))
    ensures call.GetPullRequest? ==> r.0 == PullPath(call.owner, call.repo, call.prNumber)
    ensures call.GetFiles? ==> r.0 == PullPath(call.owner, call.repo, call.prNumber) + "/files"
    ensures call.RequestReviewers? ==>
      r == (PullPath(call.owner, call.repo, call.prNumber) + "/requested_reviewers",
            RequestOptions(Some("POST"), None, Some(JObj([("reviewers", JArr(StringItems(call.reviewers)))]))))
    ensures !call.Mutates() ==> r.1 == NoOptions
  {
    var repoPath := RepoPath(call.owner, call.repo);
    var r := match call
      case CreatePullRequest(_, _, data) => (repoPath + "/pulls", RequestOptions(Some("POST"), None, Some(data)))
      case ListOpenPullRequests(_, _, perPage) =>
        (repoPath + "/pulls?state=open&per_page=" + IntToString(perPage), NoOptions)
      case GetPullRequest(_, _, n) => (PullPath(call.owner, call.repo, n), NoOptions)
      case UpdatePullRequest(_, _, n, data) => (PullPath(call.owner, call.repo, n), RequestOptions(Some("PATCH"), None, Some(data)))
      case RequestReviewers(_, _, n, reviewers) =>
        (PullPath(call.owner, call.repo, n) + "/requested_reviewers",
         RequestOptions(Some("POST"), None, Some(JObj([("reviewers", JArr(StringItems(reviewers)))]))))
      case AddComment(_, _, n, body) =>
        (repoPath + "/issues/" + IntToString(n) + "/comments", RequestOptions(Some("POST"), None, Some(JObj([("body", JStr(body))]))))
      case AddReviewComment(_, _, n, data) =>
        (PullPath(call.owner, call.repo, n) + "/comments", RequestOptions(Some("POST"), None, Some(data)))
      case GetIssueComments(_, _, n) => (repoPath + "/issues/" + IntToString(n) + "/comments", NoOptions)
      case GetReviewComments(_, _, n) => (PullPath(call.owner, call.repo, n) + "/comments", NoOptions)
      case GetFiles(_, _, n) => (PullPath(call.owner, call.repo, n) + "/files", NoOptions);
    r
  }

  /** Every path of the table lies under `/repos/{owner}/{repo}/`. */
  lemma EndpointUnderRepo(call: ApiCall)
    requires !call.GetPullRequestDiff?
    ensures StartsWith(Endpoint(call).0, RepoPath(call.owner, call.repo) + "/")
  {
    var repo := RepoPath(call.owner, call.repo);
    var dir := repo + "/";
    match call
    case CreatePullRequest(_, _, _) =>
      DirPrefix(repo, "/pulls");
    case ListOpenPullRequests(_, _, perPage) =>
      DirPrefix(repo, "/pulls?state=open&per_page=");
      PrefixExtends(repo + "/pulls?state=open&per_page=", IntToString(perPage), dir);
    case AddComment(_, _, n, _) =>
      DirPrefix(repo, "/issues/");
      PrefixExtends(repo + "/issues/", IntToString(n), dir);
      PrefixExtends(repo + "/issues/" + IntToString(n), "/comments", dir);
    case GetIssueComments(_, _, n) =>
      DirPrefix(repo, "/issues/");
      PrefixExtends(repo + "/issues/", IntToString(n), dir);
      PrefixExtends(repo + "/issues/" + IntToString(n), "/comments", dir);
    case GetPullRequest(owner, name, n) =>
      PullPathUnderRepo(owner, name, n);
    case UpdatePullRequest(owner, name, n, _) =>
      PullPathUnderRepo(owner, name, n);
    case RequestReviewers(owner, name, n, _) =>
      PullPathUnderRepo(owner, name, n);
      PrefixExtends(PullPath(owner, name, n), "/requested_reviewers", dir);
    case AddReviewComment(owner, name, n, _) =>
      PullPathUnderRepo(owner, name, n);
      PrefixExtends(PullPath(owner, name, n), "/comments", dir);
    case GetReviewComments(owner, name, n) =>
      PullPathUnderRepo(owner, name, n);
      PrefixExtends(PullPath(owner, name, n), "/comments", dir);
    case GetFiles(owner, name, n) =>
      PullPathUnderRepo(owner, name, n);
      PrefixExtends(PullPath(owner, name, n), "/files", dir);
  }

  lemma PullPathUnderRepo(owner: string, repo: string, n: int)
    ensures StartsWith(PullPath(owner, repo, n), RepoPath(owner, repo) + "/")
  {
    var dir := RepoPath(owner, repo);
    DirPrefix(dir, "/pulls/");
    PrefixExtends(dir + "/pulls/", IntToString(n), dir + "/");
  }

  lemma DirPrefix(a: string, tail: string)
    requires |tail| >= 1 && tail[0] == '/'
    ensures StartsWith(a + tail, a + "/")
  {
    assert (a + tail)[..|a| + 1] == a + "/";
  }

  lemma PrefixExtends(x: string, y: string, prefix: string)
    requires StartsWith(x, prefix)
    ensures StartsWith(x + y, prefix)
  {
    assert (x + y)[..|prefix|] == x[..|prefix|];
  }

  lemma PrefixOfAppend(prefix: string, rest: string)
    ensures StartsWith(prefix + rest, prefix)
  {
    assert (prefix + rest)[..|prefix|] == prefix;
  }

  function StringItems(xs: seq<string>): (r: seq<Json>)
    ensures |r| == |xs| && forall i :: 0 <= i < |xs| ==> r[i] == JStr(xs[i])
  {
    seq(|xs|, i requires 0 <= i < |xs| => JStr(xs[i]))
  }

  /** Every table path is relative, so the fetch path puts it under the API host. */
  lemma EndpointsAreRelative(call: ApiCall)
    requires !call.GetPullRequestDiff?
    ensures FetchUrl(Endpoint(call).0) == BaseUrl + Endpoint(call).0
    ensures CliEndpoint(Endpoint(call).0) == Endpoint(call).0
  {
    var path := Endpoint(call).0;
    EndpointUnderRepo(call);
    assert path[0] == '/';
    FirstCharMismatch(path, "http");
    FirstCharMismatch(path, BaseUrl);
  }

  lemma FirstCharMismatch(s: string, prefix: string)
    requires |s| > 0 && |prefix| > 0 && s[0] != prefix[0]
    ensures !StartsWith(s, prefix)
  {
    if |prefix| <= |s| {
      assert s[..|prefix|][0] == s[0];
    }
  }

  const DiffAcceptHeader := "Accept: " + DiffMediaType

  /** The physical call `getPullRequestDiff` makes: `gh api <path> --header
      'Accept: <diff media type>'` for CLI, otherwise a GET of the absolute
      URL with the client's headers and `Accept` overridden. */
  function DiffPlan(config: AuthConfig, authHeaders: Headers, owner: string, repo: string, prNumber: int): (c: TransportCall)
    ensures c.Cli? <==> config.authMethod == CLI
    ensures c.Cli? ==> c == Cli(["api", PullPath(owner, repo, prNumber), "--header", DiffAcceptHeader], None)
    ensures c.Fetch? ==> c.url == BaseUrl + PullPath(owner, repo, prNumber) && c.httpMethod == "GET" && c.body == None
    ensures c.Fetch? ==> c.headers.Keys == authHeaders.Keys + {"Accept"} && c.headers["Accept"] == DiffMediaType
    ensures c.Fetch? ==> forall k :: k in authHeaders && k != "Accept" ==> c.headers[k] == authHeaders[k]
  {
    if config.authMethod == CLI then
      Cli(["api", PullPath(owner, repo, prNumber), "--header", DiffAcceptHeader], None)
    else
      Fetch(BaseUrl + PullPath(owner, repo, prNumber), "GET", authHeaders["Accept" := DiffMediaType], None)
  }

  /** How the CLI diff settles: trimmed standard output on success,
      otherwise the trimmed standard error (or the spawn error message). */
  function InterpretDiffCli(outcome: ProcessOutcome): (r: Result<string>)
    ensures r.Ok? <==> outcome.Exited? && outcome.code == 0
    ensures r.Ok? ==> r.value == Trim(outcome.stdout)
    ensures r.Err? ==> r.msg == "Failed to get PR diff via CLI: " + CliClient.ExecuteCommand(outcome).stderr
  {
    var result := CliClient.ExecuteCommand(outcome);
    if !result.success then Err("Failed to get PR diff via CLI: " + result.stderr) else Ok(result.stdout)
  }

  /** How the fetched diff settles: a non-ok status throws the API error
      with the body text verbatim; otherwise the body text. */
  function InterpretDiffFetch(reply: Result<HttpResponse>, stringify: JsonPrinter): (r: Result<string>)
    ensures reply.Err? ==> r == Err(reply.msg)
    ensures reply.Ok? && !IsOk(reply.value.status) ==>
      r == Err(ApiErrorPrefix + IntToString(reply.value.status) + ", Message: " + reply.value.body)
    ensures reply.Ok? && IsOk(reply.value.status) ==> r == Ok(reply.value.body)
  {
    match reply
    case Err(m) => Err(m)
    case Ok(response) =>
      if !IsOk(response.status) then Err(CreateApiError(response.status, JStr(response.body), stringify))
      else Ok(response.body)
  }

  /** The probes `initialize` runs, read off the network's answers. */
  function PatProbeOk(tokenEnv: string, net: Network, parse: JsonParser): bool
  {
    PatClient.IsAuthenticated(net.http(PatClient.UserRequest(tokenEnv)), parse)
  }

  function CliProbeOk(net: Network): bool
  {
    CliClient.IsAuthenticated(net.process(CliClient.AuthStatusCall))
  }

  /** `githubAuth.isAuthenticated()` for a held client (or none). */
  predicate HeldClientOk(held: Option<AuthClient>, net: Network, parse: JsonParser)
  {
    held.Some? && SelfCheck(held.value, net, parse)
  }

  /** The client `ensureAuthenticated` leaves in use: the held one while its
      self-check passes, otherwise whatever `initialize` resolves (None when
      it throws). */
  function Authenticated(held: Option<AuthClient>, tokenEnv: string, net: Network, parse: JsonParser): (r: Option<AuthClient>)
    ensures HeldClientOk(held, net, parse) ==> r == held
    ensures !HeldClientOk(held, net, parse) ==> r == Resolve(tokenEnv, PatProbeOk(tokenEnv, net, parse), CliProbeOk(net))
  {
    if HeldClientOk(held, net, parse) then held
    else Resolve(tokenEnv, PatProbeOk(tokenEnv, net, parse), CliProbeOk(net))
  }

  /** The physical calls `ensureAuthenticated` makes: the held client's
      self-check, then the probes of `initialize` when that check fails. */
  function AuthCalls(held: Option<AuthClient>, tokenEnv: string, net: Network, parse: JsonParser): (calls: seq<TransportCall>)
    ensures HeldClientOk(held, net, parse) ==> calls == [SelfCheckCall(held.value)]
    ensures held.None? ==> calls == ProbesMade(tokenEnv, PatProbeOk(tokenEnv, net, parse))
    ensures held.Some? && !HeldClientOk(held, net, parse) ==>
      calls == [SelfCheckCall(held.value)] + ProbesMade(tokenEnv, PatProbeOk(tokenEnv, net, parse))
    ensures |calls| >= 1
  {
    (if held.Some? then [SelfCheckCall(held.value)] else [])
    + (if HeldClientOk(held, net, parse) then [] else ProbesMade(tokenEnv, PatProbeOk(tokenEnv, net, parse)))
  }

  /** A client `ensureAuthenticated` settles on passes its own self-check, so
      authenticating again against the same network keeps it and makes one
      self-check only. */
  lemma {:induction false} AuthenticationIsStable(held: Option<AuthClient>, tokenEnv: string, net: Network, parse: JsonParser)
    requires Authenticated(held, tokenEnv, net, parse).Some?
    ensures HeldClientOk(Authenticated(held, tokenEnv, net, parse), net, parse)
    ensures Authenticated(Authenticated(held, tokenEnv, net, parse), tokenEnv, net, parse) == Authenticated(held, tokenEnv, net, parse)
    ensures AuthCalls(Authenticated(held, tokenEnv, net, parse), tokenEnv, net, parse)
         == [SelfCheckCall(Authenticated(held, tokenEnv, net, parse).value)]
  {
    if !HeldClientOk(held, net, parse) {
      ResolvedClientPassesSelfCheck(tokenEnv, net, parse);
    }
  }

  /** `ensureAuthenticated`: the selector's state afterwards holds the client
      `Authenticated` names, or is unchanged when no method works. */
  method EnsureAuthenticated(auth: GitHubAuth, tokenEnv: string, net: Network, parse: JsonParser)
    returns (r: Result<()>, sent: seq<TransportCall>)
    requires auth.Valid()
    modifies auth
    ensures auth.Valid()
    ensures sent == AuthCalls(old(auth.client), tokenEnv, net, parse)
    ensures r.Ok? <==> Authenticated(old(auth.client), tokenEnv, net, parse).Some?
    ensures r.Ok? ==> auth.client == Authenticated(old(auth.client), tokenEnv, net, parse)
    ensures r.Err? ==> r.msg == NoAuthMessage && auth.client == old(auth.client) && auth.config == old(auth.config)
  {
    sent := if auth.client.Some? then [SelfCheckCall(auth.client.value)] else [];
    if auth.IsAuthenticated(net, parse) {
      r := Ok(());
      return;
    }
    var probes;
    r, probes := auth.Initialize(tokenEnv, PatProbeOk(tokenEnv, net, parse), CliProbeOk(net));
    sent := sent + probes;
  }

  /** The headers `getAuthHeaders` yields for a client. */
  function ClientHeaders(c: AuthClient): (h: Headers)
    ensures c.PatAuth? ==> h == PatClient.AuthHeaders(c.token)
    ensures c.CliAuth? ==> h == CliClient.AuthHeaders()
  {
    match c
    case PatAuth(t) => PatClient.AuthHeaders(t)
    case CliAuth => CliClient.AuthHeaders()
  }

  /** How a planned call settles on the network. */
  function Settle(call: TransportCall, net: Network, parse: JsonParser, stringify: JsonPrinter): Result<Json>
  {
    if call.Cli? then InterpretCli(net.process(call), parse) else Interpret(net.http(call), parse, stringify)
  }

  /** `request`: authenticate, then exactly one more physical call, the one
      `Plan` builds for the client in use; with no client, the
      authentication error and no request. */
  method Request(auth: GitHubAuth, tokenEnv: string, endpoint: string, options: RequestOptions,
                 net: Network, parse: JsonParser, stringify: JsonPrinter)
    returns (r: Result<Json>, sent: seq<TransportCall>)
    requires auth.Valid()
    modifies auth
    ensures auth.Valid()
    ensures Authenticated(old(auth.client), tokenEnv, net, parse).None? ==>
      && r == Err(NoAuthMessage) && sent == AuthCalls(old(auth.client), tokenEnv, net, parse)
      && auth.client == old(auth.client) && auth.config == old(auth.config)
    ensures Authenticated(old(auth.client), tokenEnv, net, parse).Some? ==>
      var c := Authenticated(old(auth.client), tokenEnv, net, parse).value;
      var call := Plan(ConfigFor(c), ClientHeaders(c), endpoint, options);
      && auth.client == Some(c)
      && sent == AuthCalls(old(auth.client), tokenEnv, net, parse) + [call]
      && r == Settle(call, net, parse, stringify)
  {
    var ready;
    ready, sent := EnsureAuthenticated(auth, tokenEnv, net, parse);
    if ready.Err? {
      r := Err(ready.msg);
      return;
    }
    var config := auth.GetConfig().value;
    var call;
    if config.authMethod == CLI {
      call := Plan(config, map[], endpoint, options);
      r := InterpretCli(net.process(call), parse);
    } else {
      var headers := auth.GetAuthHeaders().value;
      call := Plan(config, headers, endpoint, options);
      r := Interpret(net.http(call), parse, stringify);
    }
    sent := sent + [call];
  }

  /** `getPullRequestDiff`: the same authentication step, then the diff
      representation of the pull request. */
  method FetchPullRequestDiff(auth: GitHubAuth, tokenEnv: string, owner: string, repo: string, prNumber: int,
                              net: Network, parse: JsonParser, stringify: JsonPrinter)
    returns (r: Result<string>, sent: seq<TransportCall>)
    requires auth.Valid()
    modifies auth
    ensures auth.Valid()
    ensures Authenticated(old(auth.client), tokenEnv, net, parse).None? ==>
      && r == Err(NoAuthMessage) && sent == AuthCalls(old(auth.client), tokenEnv, net, parse)
      && auth.client == old(auth.client) && auth.config == old(auth.config)
    ensures Authenticated(old(auth.client), tokenEnv, net, parse).Some? ==>
      var c := Authenticated(old(auth.client), tokenEnv, net, parse).value;
      var call := DiffPlan(ConfigFor(c), ClientHeaders(c), owner, repo, prNumber);
      && auth.client == Some(c)
      && sent == AuthCalls(old(auth.client), tokenEnv, net, parse) + [call]
      && r == (if call.Cli? then InterpretDiffCli(net.process(call)) else InterpretDiffFetch(net.http(call), stringify))
  {
    var ready;
    ready, sent := EnsureAuthenticated(auth, tokenEnv, net, parse);
    if ready.Err? {
      r := Err(ready.msg);
      return;
    }
    var config := auth.GetConfig().value;
    var call;
    if config.authMethod == CLI {
      call := DiffPlan(config, map[], owner, repo, prNumber);
      r := InterpretDiffCli(net.process(call));
    } else {
      var headers := auth.GetAuthHeaders().value;
      call := DiffPlan(config, headers, owner, repo, prNumber);
      r := InterpretDiffFetch(net.http(call), stringify);
    }
    sent := sent + [call];
  }
}
