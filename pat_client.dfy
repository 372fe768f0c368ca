/** src/auth/pat-client.ts: the personal-access-token client. Its token is
    fixed when it is created, and its method is always PAT. */
module PatClient {
  import opened Wrappers
  import opened Strings
  import opened Json
  import opened Types

  const UserUrl := "https://api.github.com/user"

  /** `getAuthHeaders`: the four common headers plus a bearer `Authorization`. */
  function AuthHeaders(token: string): (h: Headers)
    ensures |h| == 5
    ensures "Authorization" in h && h["Authorization"] == "Bearer " + token
    ensures h - {"Authorization"} == CommonHeaders()
  {
    var h := CommonHeaders()["Authorization" := "Bearer " + token];
    assert h.Keys == CommonHeaders().Keys + {"Authorization"};
    h
  }

  /** The identity lookup both `isAuthenticated` and `getUserInfo` send. */
  function UserRequest(token: string): (c: TransportCall)
    ensures c.Fetch? && c.url == UserUrl && c.httpMethod == "GET" && c.body == None
    ensures c.headers == AuthHeaders(token)
  {
    Fetch(UserUrl, "GET", AuthHeaders(token), None)
  }

  /** `isAuthenticated`, given how `GET /user` was answered. It holds when the
      response is ok and its body parses; the source then logs `user.login`,
      which throws (and so yields false) when the body is `null`. A rejected
      fetch, a non-ok status and a parse failure all give false, never a throw. */
  function IsAuthenticated(reply: Result<HttpResponse>, parse: JsonParser): (ok: bool)
    ensures ok <==> reply.Ok? && IsOk(reply.value.status)
                    && parse(reply.value.body).Ok? && parse(reply.value.body).value != JNull
  {
    match reply
    case Err(_) => false
    case Ok(response) =>
      if !IsOk(response.status) then false
      else
        match parse(response.body)
        case Err(_) => false
        case Ok(user) => Prop(Some(user), "login").Ok?
  }

  /** `getUserInfo`, given how `GET /user` was answered: the status in the
      error on a non-ok response, otherwise only the `login` of the body. */
  function GetUserInfo(reply: Result<HttpResponse>, parse: JsonParser): (r: Result<UserInfo>)
    ensures reply.Err? ==> r == Err(reply.msg)
    ensures reply.Ok? && !IsOk(reply.value.status) ==>
      r == Err("Failed to get user info: " + IntToString(reply.value.status) + " " + reply.value.statusText)
    ensures r.Ok? ==> reply.Ok? && IsOk(reply.value.status) && parse(reply.value.body).Ok?
                      && Prop(Some(parse(reply.value.body).value), "login") == Ok(r.value.login)
    ensures reply.Ok? && IsOk(reply.value.status) && parse(reply.value.body).Err? ==>
      r == Err(parse(reply.value.body).msg)
    ensures reply.Ok? && IsOk(reply.value.status) && parse(reply.value.body) == Ok(JNull) ==>
      r == Err(NullAccessMessage("null", "login"))
  {
    match reply
    case Err(m) => Err(m)
    case Ok(response) =>
      if !IsOk(response.status) then
        Err("Failed to get user info: " + IntToString(response.status) + " " + response.statusText)
      else
        match parse(response.body)
        case Err(m) => Err(m)
        case Ok(user) =>
          match Prop(Some(user), "login")
          case Err(m) => Err(m)
          case Ok(login) => Ok(UserInfo(login))
  }

  /** A successful self-check means `getUserInfo` on the same answer succeeds. */
  lemma SelfCheckMeansUserInfo(reply: Result<HttpResponse>, parse: JsonParser)
    requires IsAuthenticated(reply, parse)
    ensures GetUserInfo(reply, parse).Ok?
  {
  }
}
