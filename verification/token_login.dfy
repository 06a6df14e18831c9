/** The server route that validates a pasted token
    (pages/api/auth/token-login.js). It checks, in order, the HTTP method,
    the token's format and Discord's answer, and replies with a status code
    and a JSON body. */
module TokenLogin {
  import opened Results
  import opened JsString
  import opened Json
  import opened Http

  const ValidationUrl := "https://discord.com/api/v10/users/@me"

  /** The fields of Discord's user object the route passes on. */
  const UserFields: set<string> := {"id", "username", "discriminator", "avatar", "email"}

  /** An incoming request; `body` is None when it is undefined. */
  datatype RouteRequest = RouteRequest(httpMethod: string, body: Option<Json>)

  /** How the call to Discord settled: the fetch rejected, Discord answered
      with a non-ok status, or it answered ok with a body that parsed as JSON
      (`Ok`) or did not (`Err`). */
  datatype Upstream = UpstreamDown | UpstreamRefused | UpstreamAccepted(payload: Outcome<Json>)

  /** The reply's status and body, and the call made to Discord, if any. */
  datatype Reply = Reply(status: int, body: Json, upstreamCall: Option<Request>)

  /** The `token` field of the body; reading it from null or undefined throws. */
  function TokenField(body: Option<Json>): (r: Result<Option<Json>, string>)
    ensures r.Failure? <==> body.None? || body.value.JNull?
    ensures r.Success? ==> r.value == Property(body.value, "token")
  {
    if body.None? || body.value.JNull? then Failure("Cannot destructure 'token'")
    else Success(Property(body.value, "token"))
  }

  /** The format check: a string that is not blank after trimming. */
  predicate WellFormed(token: Option<Json>) {
    token.Some? && token.value.JString? && Trim(token.value.s) != ""
  }

  /** The `user` object of the reply. Reading a field of `null` throws (None);
      fields missing from Discord's answer are undefined and dropped when the
      reply is serialised, so the result holds exactly the listed fields the
      answer has, with their values. */
  function ProjectUser(userData: Json): (r: Option<map<string, Json>>)
    ensures r.None? <==> userData.JNull?
    ensures r.Some? ==> forall k :: k in r.value ==>
              (k in UserFields && userData.JObject? && k in userData.fields && r.value[k] == userData.fields[k])
    ensures r.Some? && userData.JObject? ==> forall k :: k in UserFields && k in userData.fields ==> k in r.value
  {
    match userData
    case JNull => None
    case JObject(fields) => Some(map k | k in UserFields && k in fields :: fields[k])
    case _ => Some(map[])
  }

  function MessageBody(message: string): Json {
    Single("message", JString(message))
  }

  const ServerErrorMessage := "An error occurred during authentication"

  /** The route handler. */
  function Handle(req: RouteRequest, upstream: Upstream): (r: Reply)
    ensures r.status in {200, 400, 401, 405, 500}
    ensures r.status == 405 <==> req.httpMethod != "POST"
    ensures r.status == 405 ==> r.body == MessageBody("Method not allowed")
    ensures r.status == 400 ==> r.body == MessageBody("Invalid token format")
    ensures r.status == 401 ==> r.body == MessageBody("Invalid Discord token")
    ensures r.upstreamCall.Some? <==> && req.httpMethod == "POST" && TokenField(req.body).Success?
                                      && WellFormed(TokenField(req.body).value)
    ensures r.status == 400 <==> && req.httpMethod == "POST" && TokenField(req.body).Success?
                                 && !WellFormed(TokenField(req.body).value)
    ensures r.status == 401 <==> r.upstreamCall.Some? && upstream == UpstreamRefused
    ensures r.status == 200 <==> && r.upstreamCall.Some? && upstream.UpstreamAccepted? && upstream.payload.Ok?
                                 && !upstream.payload.data.JNull?
    ensures r.upstreamCall.Some? ==> && r.upstreamCall.value.url == ValidationUrl
                                     && HeaderValue(r.upstreamCall.value.headers, "Authorization")
                                        == Some(TokenField(req.body).value.value.s)
    ensures r.status == 200 ==> r.body == JObject(map["success" := JBool(true),
                                                      "user" := JObject(ProjectUser(upstream.payload.data).value)])
    ensures r.status == 500 ==> r.body == MessageBody(ServerErrorMessage)
  {
    if req.httpMethod != "POST" then Reply(405, MessageBody("Method not allowed"), None)
    else match TokenField(req.body)
      case Failure(_) => Reply(500, MessageBody(ServerErrorMessage), None)
      case Success(token) =>
        if !WellFormed(token) then Reply(400, MessageBody("Invalid token format"), None)
        else
          var call := Some(Request(Get, ValidationUrl, [Header("Authorization", token.value.s)], None));
          match upstream
          case UpstreamDown => Reply(500, MessageBody(ServerErrorMessage), call)
          case UpstreamRefused => Reply(401, MessageBody("Invalid Discord token"), call)
          case UpstreamAccepted(Err) => Reply(500, MessageBody(ServerErrorMessage), call)
          case UpstreamAccepted(Ok(userData)) =>
            match ProjectUser(userData)
            case None => Reply(500, MessageBody(ServerErrorMessage), call)
            case Some(user) => Reply(200, JObject(map["success" := JBool(true), "user" := JObject(user)]), call)
  }

  /** The method check runs first: a wrong method decides the reply,
      whatever the body and whatever Discord would answer. */
  lemma MethodCheckComesFirst(req: RouteRequest, u1: Upstream, u2: Upstream)
    requires req.httpMethod != "POST"
    ensures Handle(req, u1) == Handle(req, u2) == Reply(405, MessageBody("Method not allowed"), None)
  {
  }

  /** The format check runs before Discord is asked: a malformed token
      decides the reply whatever Discord would answer. */
  lemma FormatCheckComesBeforeDiscord(req: RouteRequest, u1: Upstream, u2: Upstream)
    requires req.httpMethod == "POST" && TokenField(req.body).Success? && !WellFormed(TokenField(req.body).value)
    ensures Handle(req, u1) == Handle(req, u2) == Reply(400, MessageBody("Invalid token format"), None)
  {
  }

  /** Once both checks pass, Discord is asked the same question whatever it
      answers: the call depends on the request alone. */
  lemma DiscordCallDependsOnRequestOnly(req: RouteRequest, u1: Upstream, u2: Upstream)
    requires req.httpMethod == "POST" && TokenField(req.body).Success? && WellFormed(TokenField(req.body).value)
    ensures Handle(req, u1).upstreamCall == Handle(req, u2).upstreamCall
            == Some(Request(Get, ValidationUrl, [Header("Authorization", TokenField(req.body).value.value.s)], None))
  {
  }

  /** Extra fields of Discord's user object, such as a phone number or
      settings, never reach the reply. */
  lemma ProjectionDropsOtherFields(req: RouteRequest, fields: map<string, Json>, extra: string)
    requires extra !in UserFields
    requires req.httpMethod == "POST" && TokenField(req.body).Success? && WellFormed(TokenField(req.body).value)
    ensures var body := Handle(req, UpstreamAccepted(Ok(JObject(fields)))).body;
      body.JObject? && "user" in body.fields && body.fields["user"].JObject? && extra !in body.fields["user"].fields
  {
  }
}
