/** The records the modelled code exchanges (src/api/types.ts) and the
    abstract view of its two transports: an HTTP response and the outcome of
    running the `gh` executable. */
module Types {
  import opened Wrappers
  import opened Json

  datatype AuthMethod = PAT | CLI

  /** `AuthConfig`: the chosen method and, for PAT, the token. */
  datatype AuthConfig = AuthConfig(authMethod: AuthMethod, token: Option<string>)

  /** A set of HTTP headers, by name. */
  type Headers = map<string, string>

  /** `RequestOptions`: every field may be left out. */
  datatype RequestOptions = RequestOptions(httpMethod: Option<string>, headers: Option<Headers>, body: Option<Json>)

  const NoOptions := RequestOptions(None, None, None)

  /** `PullRequestFile` as the files endpoint returns it. */
  datatype PullRequestFile = PullRequestFile(
    filename: string, status: string, additions: int, deletions: int, changes: int,
    patch: Option<string>)

  /** `FileChangeInfo`: a file record together with its commentable positions. */
  datatype FileChangeInfo = FileChangeInfo(
    filename: string, status: string, additions: int, deletions: int, changes: int,
    patch: Option<string>, positions: seq<nat>)

  /** `{ login }`, the user info both credential clients return. */
  datatype UserInfo = UserInfo(login: Option<Json>)

  /** What `fetch` resolves to: status, status text, the `content-type`
      header if present, and the body text. */
  datatype HttpResponse = HttpResponse(status: int, statusText: string, contentType: Option<string>, body: string)

  /** `response.ok`: a status in the 2xx range. */
  predicate IsOk(status: int)
  {
    200 <= status <= 299
  }

  /** What running `gh` produces: an exit code with everything written to
      standard output and standard error, or a failure to start the process. */
  datatype ProcessOutcome =
    | Exited(code: int, stdout: string, stderr: string)
    | SpawnFailed(message: string)

  /** One physical call: an HTTPS request, or one run of `gh` with its
      arguments and the JSON value written to its standard input. */
  datatype TransportCall =
    | Fetch(url: string, httpMethod: string, headers: Headers, body: Option<Json>)
    | Cli(args: seq<string>, stdin: Option<Json>)

  /** The outside world: how GitHub answers an HTTPS request (a rejected
      `fetch` is an `Err`), and how a run of `gh` ends. */
  datatype Network = Network(
    http: TransportCall -> Result<HttpResponse>,
    process: TransportCall -> ProcessOutcome)

  const UserAgent := "mcp-gh-pr-mini/1.0"
  const ApiVersion := "2022-11-28"
  const JsonMediaType := "application/vnd.github.v3+json"
  const DiffMediaType := "application/vnd.github.v3.diff"

  /** The four headers both credential clients send. */
  function CommonHeaders(): (h: Headers)
    ensures h.Keys == {"Accept", "Content-Type", "User-Agent", "X-GitHub-Api-Version"}
    ensures |h| == 4
    ensures "Authorization" !in h
    ensures h["Accept"] == JsonMediaType && h["Content-Type"] == "application/json"
    ensures h["User-Agent"] == UserAgent && h["X-GitHub-Api-Version"] == ApiVersion
  {
    var h := map["Accept" := JsonMediaType, "Content-Type" := "application/json",
                 "User-Agent" := UserAgent, "X-GitHub-Api-Version" := ApiVersion];
    assert h.Keys == {"Accept", "Content-Type", "User-Agent", "X-GitHub-Api-Version"};
    assert |h.Keys| == 4;
    h
  }
}
