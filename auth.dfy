/** src/auth/github-auth.ts: the auth selector. It holds at most one resolved
    credential client together with the matching configuration, and
    `initialize` picks the client by a fixed precedence: the personal access
    token first, then the `gh` executable. */
module Auth {
  import opened Wrappers
  import opened Json
  import opened Types
  import PatClient
  import CliClient

  /** The two credential clients; a PAT client carries the token it was built with. */
  datatype AuthClient = PatAuth(token: string) | CliAuth

  function MethodOf(c: AuthClient): AuthMethod
  {
    if c.PatAuth? then PAT else CLI
  }

  /** The configuration stored alongside a client. */
  function ConfigFor(c: AuthClient): (cfg: AuthConfig)
    ensures cfg.authMethod == MethodOf(c)
    ensures cfg.token.Some? <==> c.PatAuth?
    ensures c.PatAuth? ==> cfg.token == Some(c.token)
  {
    match c
    case PatAuth(t) => AuthConfig(PAT, Some(t))
    case CliAuth => AuthConfig(CLI, None)
  }

  const NoAuthMessage := "No valid GitHub authentication found. Please set GITHUB_PERSONAL_ACCESS_TOKEN or configure GitHub CLI with `gh auth login`"
  const NotInitializedMessage := "GitHub authentication not initialized. Call initialize() first."

  /** The self-check a client runs: `GET /user` for a token, `gh auth status` for the CLI. */
  function SelfCheckCall(c: AuthClient): (call: TransportCall)
    ensures c.PatAuth? ==> call == PatClient.UserRequest(c.token)
    ensures c.CliAuth? ==> call == CliClient.AuthStatusCall
  {
    match c
    case PatAuth(t) => PatClient.UserRequest(t)
    case CliAuth => CliClient.AuthStatusCall
  }

  /** The client's own `isAuthenticated`, on the network's answer to its self-check. */
  function SelfCheck(c: AuthClient, net: Network, parse: JsonParser): bool
  {
    match c
    case PatAuth(t) => PatClient.IsAuthenticated(net.http(SelfCheckCall(c)), parse)
    case CliAuth => CliClient.IsAuthenticated(net.process(SelfCheckCall(c)))
  }

  /** The client `initialize` settles on, given the token environment
      variable (empty when unset) and the outcome of each self-check. */
  function Resolve(tokenEnv: string, patOk: bool, cliOk: bool): (r: Option<AuthClient>)
    ensures r == Some(PatAuth(tokenEnv)) <==> tokenEnv != "" && patOk
    ensures r == Some(CliAuth) <==> (tokenEnv == "" || !patOk) && cliOk
    ensures r == None <==> (tokenEnv == "" || !patOk) && !cliOk
  {
    if tokenEnv != "" && patOk then Some(PatAuth(tokenEnv))
    else if cliOk then Some(CliAuth)
    else None
  }

  /** The self-checks `initialize` runs, in order: the CLI is probed only
      when the token is missing or fails. */
  function ProbesMade(tokenEnv: string, patOk: bool): (calls: seq<TransportCall>)
    ensures PatClient.UserRequest(tokenEnv) in calls <==> tokenEnv != ""
    ensures CliClient.AuthStatusCall in calls <==> tokenEnv == "" || !patOk
    ensures |calls| == (if tokenEnv != "" then 1 else 0) + (if tokenEnv == "" || !patOk then 1 else 0)
    ensures tokenEnv != "" ==> calls[0] == PatClient.UserRequest(tokenEnv)
    ensures CliClient.AuthStatusCall in calls ==> calls[|calls| - 1] == CliClient.AuthStatusCall
  {
    if tokenEnv == "" then [CliClient.AuthStatusCall]
    else if patOk then [PatClient.UserRequest(tokenEnv)]
    else [PatClient.UserRequest(tokenEnv), CliClient.AuthStatusCall]
  }

  class GitHubAuth {
    var client: Option<AuthClient>
    var config: Option<AuthConfig>

    /** `client` and `config` are set together and agree on the method. */
    ghost predicate Valid()
      reads this
    {
      (client.None? && config.None?) || (client.Some? && config == Some(ConfigFor(client.value)))
    }

    constructor ()
      ensures Valid()
      ensures client == None && config == None
    {
      client := None;
      config := None;
    }

    /** `initialize`: tries the token when `tokenEnv` is non-empty and its
        self-check passed, then the CLI; with neither it throws and leaves
        the held client and configuration as they were. It never looks at the
        current state, so a success replaces whatever was held. */
    method Initialize(tokenEnv: string, patOk: bool, cliOk: bool) returns (r: Result<()>, probes: seq<TransportCall>)
      requires Valid()
      modifies this
      ensures Valid()
      ensures probes == ProbesMade(tokenEnv, patOk)
      ensures r.Ok? <==> Resolve(tokenEnv, patOk, cliOk).Some?
      ensures r.Ok? ==> client == Resolve(tokenEnv, patOk, cliOk)
      ensures r.Err? ==> r.msg == NoAuthMessage && client == old(client) && config == old(config)
    {
      probes := [];
      if tokenEnv != "" {
        probes := probes + [PatClient.UserRequest(tokenEnv)];
        if patOk {
          client := Some(PatAuth(tokenEnv));
          config := Some(AuthConfig(PAT, Some(tokenEnv)));
          r := Ok(());
          return;
        }
      }
      probes := probes + [CliClient.AuthStatusCall];
      assert probes == ProbesMade(tokenEnv, patOk);
      if cliOk {
        client := Some(CliAuth);
        config := Some(AuthConfig(CLI, None));
        r := Ok(());
        return;
      }
      r := Err(NoAuthMessage);
    }

    /** `getClient`: throws until a client is held. */
    function GetClient(): (r: Result<AuthClient>)
      reads this
      ensures r.Ok? <==> client.Some?
      ensures r.Ok? ==> r.value == client.value
      ensures r.Err? ==> r.msg == NotInitializedMessage
    {
      if client.None? then Err(NotInitializedMessage) else Ok(client.value)
    }

    /** `getConfig`: throws until a configuration is held. */
    function GetConfig(): (r: Result<AuthConfig>)
      reads this
      ensures r.Ok? <==> config.Some?
      ensures r.Ok? ==> r.value == config.value
      ensures r.Err? ==> r.msg == NotInitializedMessage
    {
      if config.None? then Err(NotInitializedMessage) else Ok(config.value)
    }

    /** `isAuthenticated`: false, without any call, when nothing is held;
        otherwise the held client's own self-check. */
    function IsAuthenticated(net: Network, parse: JsonParser): (ok: bool)
      reads this
      ensures client.None? ==> !ok
      ensures client.Some? ==> ok == SelfCheck(client.value, net, parse)
    {
      client.Some? && SelfCheck(client.value, net, parse)
    }

    /** `getAuthHeaders`: the held client's headers, or the not-initialized error. */
    function GetAuthHeaders(): (r: Result<Headers>)
      reads this
      ensures client.None? ==> r == Err(NotInitializedMessage)
      ensures client == Some(CliAuth) ==> r == Ok(CliClient.AuthHeaders())
      ensures client.Some? && client.value.PatAuth? ==> r == Ok(PatClient.AuthHeaders(client.value.token))
    {
      match GetClient()
      case Err(m) => Err(m)
      case Ok(PatAuth(t)) => Ok(PatClient.AuthHeaders(t))
      case Ok(CliAuth) => Ok(CliClient.AuthHeaders())
    }

    /** `getUserInfo`: the held client's identity lookup, or the not-initialized error. */
    function GetUserInfo(net: Network, parse: JsonParser): (r: Result<UserInfo>)
      reads this
      ensures client.None? ==> r == Err(NotInitializedMessage)
      ensures client == Some(CliAuth) ==> r == CliClient.GetUserInfo(net.process(CliClient.UserCall), parse)
      ensures client.Some? && client.value.PatAuth? ==>
        r == PatClient.GetUserInfo(net.http(PatClient.UserRequest(client.value.token)), parse)
    {
      match GetClient()
      case Err(m) => Err(m)
      case Ok(PatAuth(t)) => PatClient.GetUserInfo(net.http(PatClient.UserRequest(t)), parse)
      case Ok(CliAuth) => CliClient.GetUserInfo(net.process(CliClient.UserCall), parse)
    }
  }

  /** A client chosen by resolution passes its own self-check when the
      network answers that check the same way again. */
  lemma ResolvedClientPassesSelfCheck(tokenEnv: string, net: Network, parse: JsonParser)
    ensures Resolve(tokenEnv, PatClient.IsAuthenticated(net.http(PatClient.UserRequest(tokenEnv)), parse),
                    CliClient.IsAuthenticated(net.process(CliClient.AuthStatusCall))).Some? ==>
      SelfCheck(Resolve(tokenEnv, PatClient.IsAuthenticated(net.http(PatClient.UserRequest(tokenEnv)), parse),
                        CliClient.IsAuthenticated(net.process(CliClient.AuthStatusCall))).value, net, parse)
  {
  }
}
