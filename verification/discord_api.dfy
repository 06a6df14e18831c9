/** The client's wrapper around Discord's REST API (lib/discord.js): the
    stored-credential helpers and the seven API operations. Each operation
    checks its arguments, builds one request and awaits it; the model splits
    that into `Prepare` (the request, or none when a local check fails first)
    and `Invoke` (the value the caller sees, given the network outcome). */
module DiscordApi {
  import opened Results
  import opened JsString
  import opened Json
  import opened Http

  const ApiBase := "https://discord.com/api/v10"

  const DefaultMessageLimit: nat := 50

  /** `getToken`: the stored credential; there is no storage outside a browser. */
  function GetToken(hasWindow: bool, slot: Option<string>): Option<string> {
    if hasWindow then slot else None
  }

  /** `isAuthenticated`: a non-empty credential is stored and readable. */
  function IsAuthenticated(hasWindow: bool, slot: Option<string>): (r: bool)
    ensures r <==> hasWindow && slot.Some? && slot.value != ""
    ensures r ==> GetToken(hasWindow, slot) == slot
    ensures !hasWindow ==> GetToken(hasWindow, slot).None? && !r
  {
    Truthy(GetToken(hasWindow, slot))
  }

  /** `getHeaders`: a missing or empty credential throws; otherwise the
      credential is sent unchanged as `Authorization`, with a JSON content type. */
  function Headers(token: Option<string>): (r: Result<seq<Header>, string>)
    ensures r.Failure? <==> token.None? || token.value == ""
    ensures r.Failure? ==> r.error == "Authentication required"
    ensures r.Success? ==> HeaderValue(r.value, "Authorization") == token
    ensures r.Success? ==> HeaderValue(r.value, "Content-Type") == Some("application/json")
  {
    if !Truthy(token) then Failure("Authentication required")
    else Success([Header("Authorization", token.value), Header("Content-Type", "application/json")])
  }

  /** The seven operations with the arguments their callers may omit. */
  datatype Operation =
    | CurrentUser
    | UserGuilds
    | GuildChannels(guildId: Option<string>)
    | ChannelMessages(channelId: Option<string>, limit: Option<nat>)
    | SendMessage(channelId: Option<string>, content: Option<string>)
    | VoiceRegions
    | JoinVoiceChannel(guildId: Option<string>, channelId: Option<string>, userId: Option<string>)

  /** The one message each operation fails with, whatever went wrong. */
  function FailureMessage(op: Operation): string {
    match op
    case CurrentUser => "Failed to fetch user data from Discord"
    case UserGuilds => "Failed to fetch guild data from Discord"
    case GuildChannels(_) => "Failed to fetch channel data from Discord"
    case ChannelMessages(_, _) => "Failed to fetch message data from Discord"
    case SendMessage(_, _) => "Failed to send message to Discord"
    case VoiceRegions => "Failed to fetch voice region data from Discord"
    case JoinVoiceChannel(_, _, _) => "Failed to join voice channel in Discord"
  }

  /** The argument checks an operation makes before any request. */
  predicate ArgumentsValid(op: Operation) {
    match op
    case GuildChannels(g) => Truthy(g)
    case ChannelMessages(c, _) => Truthy(c)
    case SendMessage(c, content) => Truthy(c) && content.Some? && Trim(content.value) != ""
    case JoinVoiceChannel(g, c, u) => Truthy(g) && Truthy(c) && Truthy(u)
    case _ => true
  }

  /** Method, path below `ApiBase` and body of an operation whose arguments
      passed. Only `sendMessage` posts and only `joinVoiceChannel` patches;
      every other operation is a GET, and exactly the GETs carry no body. */
  function Endpoint(op: Operation): (r: (Method, string, Option<Json>))
    requires ArgumentsValid(op)
    ensures r.0 == Post <==> op.SendMessage?
    ensures r.0 == Patch <==> op.JoinVoiceChannel?
    ensures r.0 == Get <==> r.2.None?
  {
    match op
    case CurrentUser => (Get, "/users/@me", None)
    case UserGuilds => (Get, "/users/@me/guilds", None)
    case GuildChannels(g) => (Get, "/guilds/" + g.value + "/channels", None)
    case ChannelMessages(c, limit) =>
      (Get, "/channels/" + c.value + "/messages?limit=" + NatToString(limit.GetOr(DefaultMessageLimit)), None)
    case SendMessage(c, content) =>
      (Post, "/channels/" + c.value + "/messages", Some(Single("content", JString(content.value))))
    case VoiceRegions => (Get, "/voice/regions", None)
    case JoinVoiceChannel(g, c, u) =>
      (Patch, "/guilds/" + g.value + "/members/" + u.value, Some(Single("channel_id", JString(c.value))))
  }

  /** The request an operation issues with credential `token`, or None when
      an argument check or the header check fails before any request. */
  function Prepare(op: Operation, token: Option<string>): (r: Option<Request>)
    ensures r.Some? <==> ArgumentsValid(op) && Truthy(token)
    ensures r.Some? ==> HeaderValue(r.value.headers, "Authorization") == token
    ensures r.Some? ==> HeaderValue(r.value.headers, "Content-Type") == Some("application/json")
    ensures r.Some? ==> StartsWith(r.value.url, ApiBase + "/")
    ensures r.Some? ==> && r.value.verb == Endpoint(op).0 && r.value.url == ApiBase + Endpoint(op).1
                        && r.value.body == Endpoint(op).2
  {
    if !ArgumentsValid(op) then None
    else
      var (verb, path, body) := Endpoint(op);
      match Headers(token)
      case Failure(_) => None
      case Success(headers) =>
        assert (ApiBase + path)[..|ApiBase + "/"|] == ApiBase + "/";
        Some(Request(verb, ApiBase + path, headers, body))
  }

  /** What a caller of the operation sees once the request (if any) settles:
      the response data unchanged on success, and otherwise only the
      operation's fixed message, never the reason. */
  function Invoke<D>(op: Operation, token: Option<string>, outcome: Outcome<D>): (r: Result<D, string>)
    ensures r.Success? <==> Prepare(op, token).Some? && outcome.Ok?
    ensures r.Success? ==> r.value == outcome.data
    ensures r.Failure? ==> r.error == FailureMessage(op)
  {
    if Prepare(op, token).None? then Failure(FailureMessage(op))
    else
      match outcome
      case Ok(data) => Success(data)
      case Err => Failure(FailureMessage(op))
  }

  /** The requests an operation issues: one, or none when a local check fails. */
  function Issued(op: Operation, token: Option<string>): (r: seq<Request>)
    ensures |r| <= 1
    ensures r == [] <==> Prepare(op, token).None?
  {
    match Prepare(op, token)
    case Some(request) => [request]
    case None => []
  }

  /** When a local check fails no request is made, so the network outcome
      cannot influence the result. */
  lemma NoRequestIgnoresOutcome<D>(op: Operation, token: Option<string>, o1: Outcome<D>, o2: Outcome<D>)
    requires Prepare(op, token).None?
    ensures Invoke(op, token, o1) == Invoke(op, token, o2) == Failure(FailureMessage(op))
  {
  }

  /** The authentication predicate and the header check agree: a request can
      be authorised exactly when the client counts as authenticated. */
  lemma AuthenticatedIffHeadersBuild(slot: Option<string>)
    ensures IsAuthenticated(true, slot) <==> Headers(GetToken(true, slot)).Success?
  {
  }

  /** A missing identifier fails every operation that needs one before any
      request; a blank message fails `sendMessage` the same way. */
  lemma MissingIdentifierFailsLocally<D>(op: Operation, token: Option<string>)
    requires || (op.GuildChannels? && !Truthy(op.guildId))
             || (op.ChannelMessages? && !Truthy(op.channelId))
             || (op.SendMessage? && (!Truthy(op.channelId) || op.content.None? || Blank(op.content.value)))
             || (op.JoinVoiceChannel? && (!Truthy(op.guildId) || !Truthy(op.channelId) || !Truthy(op.userId)))
    ensures Issued(op, token) == []
    ensures forall o: Outcome<D> :: Invoke(op, token, o) == Failure(FailureMessage(op))
  {
  }

  /** `getChannelMessages` without a limit asks for 50 messages. */
  lemma MessagesUrlDefaultsLimit(channelId: string, token: string)
    requires channelId != "" && token != ""
    ensures Prepare(ChannelMessages(Some(channelId), None), Some(token)).Some?
    ensures Prepare(ChannelMessages(Some(channelId), None), Some(token)).value.url
         == ApiBase + "/channels/" + channelId + "/messages?limit=50"
  {
  }

  /** The operations that only read ask for fixed paths below the API base
      (the guild's channels for `getGuildChannels`), with no body. */
  lemma ReadOperationUrls(guildId: string, token: string)
    requires guildId != "" && token != ""
    ensures var req := Prepare(CurrentUser, Some(token)).value;
      req.verb == Get && req.url == ApiBase + "/users/@me" && req.body == None
    ensures var req := Prepare(UserGuilds, Some(token)).value;
      req.verb == Get && req.url == ApiBase + "/users/@me/guilds" && req.body == None
    ensures var req := Prepare(GuildChannels(Some(guildId)), Some(token)).value;
      req.verb == Get && req.url == ApiBase + "/guilds/" + guildId + "/channels" && req.body == None
    ensures var req := Prepare(VoiceRegions, Some(token)).value;
      req.verb == Get && req.url == ApiBase + "/voice/regions" && req.body == None
  {
  }

  /** The URL prefix of a message fetch, up to the limit's value. */
  function MessagesQuery(channelId: string): string {
    ApiBase + "/channels/" + channelId + "/messages?limit="
  }

  /** A message fetch with an explicit limit asks for the query prefix
      followed by the limit's decimal text. */
  lemma MessagesUrlWithLimit(channelId: string, limit: nat, token: string)
    requires channelId != "" && token != ""
    ensures Prepare(ChannelMessages(Some(channelId), Some(limit)), Some(token)).Some?
    ensures Prepare(ChannelMessages(Some(channelId), Some(limit)), Some(token)).value.url
         == MessagesQuery(channelId) + NatToString(limit)
  {
  }

  /** An explicit limit is written into the query in decimal, and reading
      the query value back gives the limit asked for. */
  lemma MessagesUrlCarriesLimit(channelId: string, limit: nat, token: string)
    requires channelId != "" && token != ""
    ensures Prepare(ChannelMessages(Some(channelId), Some(limit)), Some(token)).Some?
    ensures var url := Prepare(ChannelMessages(Some(channelId), Some(limit)), Some(token)).value.url;
      && StartsWith(url, MessagesQuery(channelId))
      && var value := url[|MessagesQuery(channelId)|..];
         && (forall i :: 0 <= i < |value| ==> IsDigit(value[i]))
         && DigitsValue(value) == limit
  {
    var url := Prepare(ChannelMessages(Some(channelId), Some(limit)), Some(token)).value.url;
    MessagesUrlWithLimit(channelId, limit, token);
    assert url[|MessagesQuery(channelId)|..] == NatToString(limit);
    DecimalRoundTrip(limit);
  }

  /** Two message fetches for the same channel ask for the same URL only when
      they ask for the same limit. */
  lemma MessagesUrlNamesLimit(channelId: string, a: nat, b: nat, token: string)
    requires channelId != "" && token != ""
    requires Prepare(ChannelMessages(Some(channelId), Some(a)), Some(token)).value.url
          == Prepare(ChannelMessages(Some(channelId), Some(b)), Some(token)).value.url
    ensures a == b
  {
    var prefix := MessagesQuery(channelId);
    var ua := Prepare(ChannelMessages(Some(channelId), Some(a)), Some(token)).value.url;
    var ub := Prepare(ChannelMessages(Some(channelId), Some(b)), Some(token)).value.url;
    MessagesUrlWithLimit(channelId, a, token);
    MessagesUrlWithLimit(channelId, b, token);
    assert ua[|prefix|..] == NatToString(a);
    assert ub[|prefix|..] == NatToString(b);
    DecimalInjective(a, b);
  }

  /** `sendMessage` posts the content exactly as given, not the trimmed text. */
  lemma SendPostsUntrimmedContent(channelId: string, content: string, token: string)
    requires channelId != "" && token != "" && !Blank(content)
    ensures Prepare(SendMessage(Some(channelId), Some(content)), Some(token)).Some?
    ensures var req := Prepare(SendMessage(Some(channelId), Some(content)), Some(token)).value;
      && req.verb == Post
      && req.url == ApiBase + "/channels/" + channelId + "/messages"
      && req.body == Some(JObject(map["content" := JString(content)]))
  {
    var op := SendMessage(Some(channelId), Some(content));
    assert ArgumentsValid(op);
    assert Endpoint(op) == (Post, "/channels/" + channelId + "/messages", Some(Single("content", JString(content))));
  }

  /** Joining a voice channel patches the user's guild membership with the channel id. */
  lemma JoinVoicePatchesMember(guildId: string, channelId: string, userId: string, token: string)
    requires guildId != "" && channelId != "" && userId != "" && token != ""
    ensures Prepare(JoinVoiceChannel(Some(guildId), Some(channelId), Some(userId)), Some(token)).Some?
    ensures var req := Prepare(JoinVoiceChannel(Some(guildId), Some(channelId), Some(userId)), Some(token)).value;
      && req.verb == Patch
      && req.url == ApiBase + "/guilds/" + guildId + "/members/" + userId
      && req.body == Some(JObject(map["channel_id" := JString(channelId)]))
  {
  }

  /** Distinct operations fail with distinct messages, so the message names
      the operation that failed. */
  lemma FailureMessageNamesOperation(a: Operation, b: Operation)
    requires FailureMessage(a) == FailureMessage(b)
    ensures a.CurrentUser? == b.CurrentUser? && a.UserGuilds? == b.UserGuilds?
    ensures a.GuildChannels? == b.GuildChannels? && a.ChannelMessages? == b.ChannelMessages?
    ensures a.SendMessage? == b.SendMessage? && a.VoiceRegions? == b.VoiceRegions?
    ensures a.JoinVoiceChannel? == b.JoinVoiceChannel?
  {
  }
}
