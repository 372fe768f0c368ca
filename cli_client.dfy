/** build/auth/cli-client.js: the client that goes through the `gh`
    executable, which holds its own credentials. */
module CliClient {
  import opened Wrappers
  import opened Strings
  import opened Json
  import opened Types

  /** What `executeCommand` resolves to. */
  datatype CommandResult = CommandResult(success: bool, stdout: string, stderr: string)

  /** `executeCommand`: success exactly on exit code 0, with both streams
      trimmed; a process that cannot start resolves (never rejects) to a
      failure carrying the error message. */
  function ExecuteCommand(outcome: ProcessOutcome): (r: CommandResult)
    ensures r.success <==> outcome.Exited? && outcome.code == 0
    ensures outcome.Exited? ==> r.stdout == Trim(outcome.stdout) && r.stderr == Trim(outcome.stderr)
    ensures outcome.SpawnFailed? ==> r.stdout == "" && r.stderr == outcome.message
  {
    match outcome
    case Exited(code, out, err) => CommandResult(code == 0, Trim(out), Trim(err))
    case SpawnFailed(m) => CommandResult(false, "", m)
  }

  /** The self-check: `gh auth status`. */
  const AuthStatusCall: TransportCall := Cli(["auth", "status"], None)

  /** `isAuthenticated`: true exactly when `gh auth status` exits with 0;
      every failure is false, never a throw. */
  function IsAuthenticated(outcome: ProcessOutcome): (ok: bool)
    ensures ok <==> outcome.Exited? && outcome.code == 0
  {
    ExecuteCommand(outcome).success
  }

  /** `getAuthHeaders`: the four common headers and no `Authorization`. */
  function AuthHeaders(): (h: Headers)
    ensures |h| == 4 && "Authorization" !in h
    ensures h == CommonHeaders()
  {
    CommonHeaders()
  }

  /** The identity lookup: `gh api user`. */
  const UserCall: TransportCall := Cli(["api", "user"], None)

  /** The `try` block of `getUserInfo`: the output is parsed and its `login`
      read; either failure is reported with the thrown error's text. */
  function ParseUserInfo(stdout: string, parse: JsonParser): (r: Result<UserInfo>)
    ensures r.Ok? <==> parse(stdout).Ok? && !parse(stdout).value.JNull?
    ensures r.Ok? ==> Prop(Some(parse(stdout).value), "login") == Ok(r.value.login)
    ensures parse(stdout).Err? ==> r == Err("Failed to parse user info from GitHub CLI: SyntaxError: " + parse(stdout).msg)
    ensures parse(stdout) == Ok(JNull) ==>
      r == Err("Failed to parse user info from GitHub CLI: TypeError: " + NullAccessMessage("null", "login"))
  {
    match parse(stdout)
    case Err(m) => Err("Failed to parse user info from GitHub CLI: SyntaxError: " + m)
    case Ok(user) =>
      match Prop(Some(user), "login")
      case Err(m) => Err("Failed to parse user info from GitHub CLI: TypeError: " + m)
      case Ok(login) => Ok(UserInfo(login))
  }

  /** `getUserInfo`, given how `gh api user` ended: the trimmed standard error
      on failure, otherwise the parsed output's `login`. */
  function GetUserInfo(outcome: ProcessOutcome, parse: JsonParser): (r: Result<UserInfo>)
    ensures !ExecuteCommand(outcome).success ==>
      r == Err("Failed to get user info via GitHub CLI: " + ExecuteCommand(outcome).stderr)
    ensures ExecuteCommand(outcome).success ==> r == ParseUserInfo(ExecuteCommand(outcome).stdout, parse)
    ensures r.Ok? ==> ExecuteCommand(outcome).success
  {
    var result := ExecuteCommand(outcome);
    if !result.success then Err("Failed to get user info via GitHub CLI: " + result.stderr)
    else ParseUserInfo(result.stdout, parse)
  }

  /** The argument list `apiRequest` builds: `api <endpoint> --method <M>`,
      with `--input -` appended exactly when there is a (truthy) body. */
  function ApiRequestArgs(httpMethod: string, endpoint: string, data: Option<Json>): (args: seq<string>)
    ensures |args| >= 4 && args[..4] == ["api", endpoint, "--method", ToUpper(httpMethod)]
    ensures TruthyValue(data) ==> args == ["api", endpoint, "--method", ToUpper(httpMethod), "--input", "-"]
    ensures !TruthyValue(data) ==> |args| == 4
  {
    var args := ["api", endpoint, "--method", ToUpper(httpMethod)];
    if TruthyValue(data) then args + ["--input", "-"] else args
  }

  /** The argument list as `apiRequest` builds it, pushing the input flag
      onto the fixed prefix. */
  method BuildApiRequestArgs(httpMethod: string, endpoint: string, data: Option<Json>) returns (args: seq<string>)
    ensures args == ApiRequestArgs(httpMethod, endpoint, data)
  {
    args := ["api", endpoint, "--method", ToUpper(httpMethod)];
    if TruthyValue(data) {
      args := args + ["--input", "-"];
    }
  }

  /** The run `apiRequest` starts: the body, when truthy, goes to standard
      input as JSON. */
  function ApiRequestCall(httpMethod: string, endpoint: string, data: Option<Json>): (c: TransportCall)
    ensures c.Cli? && c.args == ApiRequestArgs(httpMethod, endpoint, data)
    ensures c.stdin.Some? <==> TruthyValue(data)
    ensures c.stdin.Some? ==> c.stdin == data
  {
    Cli(ApiRequestArgs(httpMethod, endpoint, data), if TruthyValue(data) then data else None)
  }

  /** How `apiRequest` settles once the run ends: on exit 0, `null` for an
      empty output and the parsed output otherwise (a parse failure rejects);
      on any other exit, the untrimmed standard error; a process that cannot
      start rejects with its error message. */
  function ApiRequestResult(outcome: ProcessOutcome, parse: JsonParser): (r: Result<Json>)
    ensures outcome.Exited? && outcome.code == 0 && outcome.stdout == "" ==> r == Ok(JNull)
    ensures outcome.Exited? && outcome.code == 0 && outcome.stdout != "" && parse(outcome.stdout).Ok? ==>
      r == parse(outcome.stdout)
    ensures outcome.Exited? && outcome.code != 0 ==> r == Err("GitHub CLI API request failed: " + outcome.stderr)
    ensures outcome.SpawnFailed? ==> r == Err("GitHub CLI process error: " + outcome.message)
    ensures outcome.Exited? && outcome.code == 0 && outcome.stdout != "" && parse(outcome.stdout).Err? ==>
      r == Err("Failed to parse GitHub CLI response: SyntaxError: " + parse(outcome.stdout).msg)
    ensures r.Ok? <==> outcome.Exited? && outcome.code == 0 && (outcome.stdout == "" || parse(outcome.stdout).Ok?)
  {
    match outcome
    case SpawnFailed(m) => Err("GitHub CLI process error: " + m)
    case Exited(code, out, err) =>
      if code != 0 then Err("GitHub CLI API request failed: " + err)
      else if out == "" then Ok(JNull)
      else
        match parse(out)
        case Err(m) => Err("Failed to parse GitHub CLI response: SyntaxError: " + m)
        case Ok(v) => Ok(v)
  }
}
