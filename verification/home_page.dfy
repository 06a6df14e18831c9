/** The home page (pages/index.js): the session check on mount, server and
    channel selection, the channel and message loads that follow a
    selection, sending a message, and logging out. Each handler or effect is
    a function from the page state (and the network outcomes it awaits) to
    the next state and the requests it issued. */
module HomePage {
  import opened Results
  import opened JsString
  import opened Http
  import opened DiscordApi

  const LoginRoute := "/login"
  const CdnIcons := "https://cdn.discordapp.com/icons/"

  datatype User = User(id: string, username: string, discriminator: string, avatar: Option<string>, email: Option<string>)

  /** A guild as Discord returns it, and the server entry the sidebar shows. */
  datatype RawGuild = RawGuild(id: string, name: string, icon: Option<string>)
  datatype Server = Server(id: string, name: string, icon: string)

  /** A channel as Discord returns it (`type` is numeric), and the entry the page keeps. */
  datatype RawChannel = RawChannel(id: string, name: string, channelType: int)
  datatype ChannelKind = Text | Voice
  datatype Channel = Channel(id: string, name: string, kind: ChannelKind)

  /** A message as Discord returns it (`authorName` is `author.username`), and as the page shows it. */
  datatype RawMessage = RawMessage(id: string, authorName: string, content: string, timestamp: string)
  datatype Message = Message(id: string, author: string, content: string, timestamp: string)

  /** The page's React state, plus the storage slot `discord_token` and the
      last route the page navigated to. */
  datatype HomeState = HomeState(
    stored: Option<string>,
    user: Option<User>,
    loading: bool,
    servers: seq<Server>,
    channels: seq<Channel>,
    activeServer: Option<string>,
    activeChannel: Option<string>,
    messages: seq<Message>,
    messageInput: string,
    navigation: Option<string>)

  /** The state after one handler or effect, with the API requests it issued, in order. */
  datatype Step = Step(state: HomeState, requests: seq<Request>)

  /** The state a fresh mount starts from, given what storage holds. */
  function Init(stored: Option<string>): HomeState {
    HomeState(stored, None, true, [], [], None, None, [], "", None)
  }

  // ---------------------------------------------------------------------
  // Guilds to server entries

  /** The truthiness test on a guild's icon hash. */
  predicate HasIcon(g: RawGuild) {
    Truthy(g.icon)
  }

  /** The guild list mapped one to one, in order, into server entries: id
      and name are kept, and the icon is the CDN URL of the guild's icon hash
      when it has one, otherwise the first character of its name. */
  function ServerEntries(guilds: seq<RawGuild>): (r: seq<Server>)
    ensures |r| == |guilds|
    ensures forall i :: 0 <= i < |r| ==> r[i].id == guilds[i].id && r[i].name == guilds[i].name
    ensures forall i :: 0 <= i < |r| && HasIcon(guilds[i]) ==>
              r[i].icon == CdnIcons + guilds[i].id + "/" + guilds[i].icon.value + ".png"
    ensures forall i :: 0 <= i < |r| && !HasIcon(guilds[i]) ==> r[i].icon == FirstChar(guilds[i].name)
  {
    seq(|guilds|, i requires 0 <= i < |guilds| =>
      var g := guilds[i];
      Server(g.id, g.name, if HasIcon(g) then CdnIcons + g.id + "/" + g.icon.value + ".png" else FirstChar(g.name)))
  }

  /** The sidebar draws an image exactly for the entries whose guild had an
      icon: a CDN URL starts with "http", while the fallback is the name's
      first character alone and never does. */
  lemma IconRendersAsImage(guilds: seq<RawGuild>, i: nat)
    requires i < |guilds|
    ensures StartsWith(ServerEntries(guilds)[i].icon, "http") <==> HasIcon(guilds[i])
    ensures !HasIcon(guilds[i]) ==> ServerEntries(guilds)[i].icon == FirstChar(guilds[i].name)
    ensures !HasIcon(guilds[i]) ==> |ServerEntries(guilds)[i].icon| <= 1
  {
    var g := guilds[i];
    if HasIcon(g) {
      var url := ServerEntries(guilds)[i].icon;
      assert url == CdnIcons + (g.id + "/" + g.icon.value + ".png");
      assert url[..4] == CdnIcons[..4] == "http";
    }
  }

  // ---------------------------------------------------------------------
  // Channels to text and voice entries

  /** Only text (0) and voice (2) channels are kept. */
  predicate Listed(c: RawChannel) {
    c.channelType == 0 || c.channelType == 2
  }

  function Classify(c: RawChannel): (r: Channel)
    requires Listed(c)
  {
    Channel(c.id, c.name, if c.channelType == 0 then Text else Voice)
  }

  /** The raw channel an entry stands for: the partner of `Classify`. */
  function RawOf(c: Channel): (r: RawChannel)
    ensures Listed(r) && Classify(r) == c
  {
    RawChannel(c.id, c.name, if c.kind == Text then 0 else 2)
  }

  /** The channel list filtered to text and voice channels, mapped into
      entries. Every listed channel appears, and every entry stands for a
      listed channel of the input. */
  function ChannelEntries(raw: seq<RawChannel>): (r: seq<Channel>)
    ensures |r| <= |raw|
    ensures forall x :: x in raw && Listed(x) ==> Classify(x) in r
    ensures forall c :: c in r ==> RawOf(c) in raw
  {
    if raw == [] then []
    else
      var rest := ChannelEntries(raw[1..]);
      assert forall x :: x in raw[1..] ==> x in raw;
      if Listed(raw[0]) then
        assert RawOf(Classify(raw[0])) == raw[0];
        [Classify(raw[0])] + rest
      else rest
  }

  /** Filtering keeps the input order: it distributes over concatenation. */
  lemma {:induction false} ChannelEntriesKeepOrder(a: seq<RawChannel>, b: seq<RawChannel>)
    ensures ChannelEntries(a + b) == ChannelEntries(a) + ChannelEntries(b)
    decreases |a|
  {
    if a != [] {
      assert (a + b)[1..] == a[1..] + b;
      ChannelEntriesKeepOrder(a[1..], b);
    } else {
      assert a + b == b;
    }
  }

  /** Turning the entries back into raw channels and filtering again gives
      the same entries: filtering is idempotent and drops nothing it kept. */
  lemma {:induction false} ChannelEntriesIdempotent(cs: seq<Channel>)
    ensures ChannelEntries(seq(|cs|, i requires 0 <= i < |cs| => RawOf(cs[i]))) == cs
    decreases |cs|
  {
    var raw := seq(|cs|, i requires 0 <= i < |cs| => RawOf(cs[i]));
    if cs != [] {
      var tail := seq(|cs[1..]|, i requires 0 <= i < |cs[1..]| => RawOf(cs[1..][i]));
      assert raw[1..] == tail;
      ChannelEntriesIdempotent(cs[1..]);
      assert [cs[0]] + cs[1..] == cs;
    }
  }

  /** The first channel with the given id, as `channels.find` returns it. */
  function FindChannel(channels: seq<Channel>, id: string): (r: Option<Channel>)
    ensures r.None? <==> forall i :: 0 <= i < |channels| ==> channels[i].id != id
    ensures r.Some? ==> exists i :: 0 <= i < |channels| && channels[i] == r.value && r.value.id == id
                          && forall j :: 0 <= j < i ==> channels[j].id != id
  {
    if channels == [] then None
    else if channels[0].id == id then Some(channels[0])
    else
      var r := FindChannel(channels[1..], id);
      assert r.Some? ==> exists i :: 0 <= i < |channels| && channels[i] == r.value && r.value.id == id
                                  && forall j :: 0 <= j < i ==> channels[j].id != id by {
        if r.Some? {
          var k :| 0 <= k < |channels[1..]| && channels[1..][k] == r.value && r.value.id == id
                   && forall j :: 0 <= j < k ==> channels[1..][j].id != id;
          assert forall j :: 0 <= j < k + 1 ==> channels[j].id != id by {
            forall j | 0 <= j < k + 1 ensures channels[j].id != id {
              if j > 0 { assert channels[j] == channels[1..][j - 1]; }
            }
          }
        }
      }
      r
  }

  /** The fetched messages mapped one to one, in order, into the entries the
      page shows: the author is the author's username, and id, content and
      timestamp are Discord's. */
  function MessageEntries(raw: seq<RawMessage>): (r: seq<Message>)
    ensures |r| == |raw|
    ensures forall i :: 0 <= i < |r| ==> r[i].id == raw[i].id && r[i].author == raw[i].authorName
    ensures forall i :: 0 <= i < |r| ==> r[i].content == raw[i].content && r[i].timestamp == raw[i].timestamp
  {
    seq(|raw|, i requires 0 <= i < |raw| => Message(raw[i].id, raw[i].authorName, raw[i].content, raw[i].timestamp))
  }

  // ---------------------------------------------------------------------
  // Transitions

  /** The session check on mount. Without a stored credential it only
      navigates to the login page. Otherwise it fetches the user and then the
      guilds; if either fails the credential is removed and the page
      navigates to the login page. Loading ends once the fetches settle. */
  function CheckAuth(s: HomeState, userReply: Outcome<User>, guildsReply: Outcome<seq<RawGuild>>): (r: Step)
    ensures !Truthy(s.stored) ==> r.requests == [] && r.state == s.(navigation := Some(LoginRoute))
    ensures Truthy(s.stored) ==> !r.state.loading
    ensures Truthy(s.stored) ==>
              r.requests == Issued(CurrentUser, s.stored) + (if userReply.Ok? then Issued(UserGuilds, s.stored) else [])
    ensures Truthy(s.stored) ==> && 1 <= |r.requests| <= 2 && r.requests[0].url == ApiBase + "/users/@me"
                                 && HeaderValue(r.requests[0].headers, "Authorization") == s.stored
    ensures Truthy(s.stored) && userReply.Err? ==> |r.requests| == 1 && r.state.user == s.user
    ensures Truthy(s.stored) && userReply.Ok? ==>
              && |r.requests| == 2 && r.requests[1].url == ApiBase + "/users/@me/guilds"
              && HeaderValue(r.requests[1].headers, "Authorization") == s.stored
    ensures Truthy(s.stored) && userReply.Ok? ==> r.state.user == Some(userReply.data)
    ensures Truthy(s.stored) && (userReply.Err? || guildsReply.Err?) ==>
              r.state.stored == None && r.state.navigation == Some(LoginRoute) && r.state.servers == s.servers
    ensures Truthy(s.stored) && userReply.Ok? && guildsReply.Ok? ==>
              && r.state.servers == ServerEntries(guildsReply.data)
              && r.state.stored == s.stored && r.state.navigation == s.navigation
    ensures r.state.channels == s.channels && r.state.messages == s.messages
    ensures r.state.activeServer == s.activeServer && r.state.activeChannel == s.activeChannel
    ensures r.state.messageInput == s.messageInput
  {
    if !IsAuthenticated(true, s.stored) then
      Step(s.(navigation := Some(LoginRoute)), [])
    else
      var userRequests := Issued(CurrentUser, s.stored);
      var failed := s.(stored := None, navigation := Some(LoginRoute), loading := false);
      match Invoke(CurrentUser, s.stored, userReply)
      case Failure(_) => Step(failed, userRequests)
      case Success(user) =>
        var withUser := s.(user := Some(user));
        var requests := userRequests + Issued(UserGuilds, s.stored);
        match Invoke(UserGuilds, s.stored, guildsReply)
        case Failure(_) => Step(withUser.(stored := None, navigation := Some(LoginRoute), loading := false), requests)
        case Success(guilds) => Step(withUser.(servers := ServerEntries(guilds), loading := false), requests)
  }

  /** Clicking a server selects it and clears the channel selection; the
      channel and message lists are left as they are. */
  function ServerClick(s: HomeState, serverId: string): (r: HomeState)
    ensures r.activeServer == Some(serverId) && r.activeChannel == None
    ensures r.channels == s.channels && r.messages == s.messages
    ensures r.(activeServer := s.activeServer, activeChannel := s.activeChannel) == s
  {
    s.(activeServer := Some(serverId), activeChannel := None)
  }

  /** Clicking a channel selects it; nothing checks it is in the channel list. */
  function ChannelClick(s: HomeState, channelId: string): (r: HomeState)
    ensures r.activeChannel == Some(channelId)
    ensures r.(activeChannel := s.activeChannel) == s
  {
    s.(activeChannel := Some(channelId))
  }

  /** The channel load that follows a server selection. It does nothing
      without a selected server, nor without a stored credential (the header
      check throws before any request and the page swallows the error);
      otherwise a successful fetch replaces the channel list with its text
      and voice entries and a failed one leaves the list as it was. */
  function LoadChannels(s: HomeState, reply: Outcome<seq<RawChannel>>): (r: Step)
    ensures !Truthy(s.activeServer) ==> r == Step(s, [])
    ensures r.state == s || (reply.Ok? && r.state == s.(channels := ChannelEntries(reply.data)))
    ensures r.state.channels != s.channels ==> reply.Ok? && Truthy(s.activeServer)
    ensures Truthy(s.activeServer) && !Truthy(s.stored) ==> r == Step(s, [])
    ensures Truthy(s.activeServer) ==> r.requests == Issued(GuildChannels(s.activeServer), s.stored)
    ensures Truthy(s.activeServer) && Truthy(s.stored) ==>
              && |r.requests| == 1
              && r.requests[0].url == ApiBase + "/guilds/" + s.activeServer.value + "/channels"
              && HeaderValue(r.requests[0].headers, "Authorization") == s.stored
    ensures Truthy(s.activeServer) && Truthy(s.stored) && reply.Ok? ==> r.state.channels == ChannelEntries(reply.data)
  {
    if !Truthy(s.activeServer) then Step(s, [])
    else
      var op := GuildChannels(s.activeServer);
      match Invoke(op, s.stored, reply)
      case Success(data) => Step(s.(channels := ChannelEntries(data)), Issued(op, s.stored))
      case Failure(_) => Step(s, Issued(op, s.stored))
  }

  /** The selected channel is a text channel: the first channel in the list
      with the selected id has kind text. */
  predicate TextChannelSelected(s: HomeState) {
    && Truthy(s.activeChannel)
    && var found := FindChannel(s.channels, s.activeChannel.value);
       found.Some? && found.value.kind == Text
  }

  /** The message load that follows a channel selection. It fetches only for
      a selected text channel and a stored credential; a successful fetch
      replaces the messages and a failed one leaves them as they were. */
  function LoadMessages(s: HomeState, reply: Outcome<seq<RawMessage>>): (r: Step)
    ensures !TextChannelSelected(s) ==> r == Step(s, [])
    ensures r.state == s || (reply.Ok? && r.state == s.(messages := MessageEntries(reply.data)))
    ensures r.state.messages != s.messages ==> reply.Ok? && TextChannelSelected(s)
    ensures TextChannelSelected(s) && !Truthy(s.stored) ==> r == Step(s, [])
    ensures TextChannelSelected(s) ==> r.requests == Issued(ChannelMessages(s.activeChannel, None), s.stored)
    ensures TextChannelSelected(s) && Truthy(s.stored) ==>
              && |r.requests| == 1
              && r.requests[0].url == ApiBase + "/channels/" + s.activeChannel.value + "/messages?limit=50"
              && HeaderValue(r.requests[0].headers, "Authorization") == s.stored
    ensures TextChannelSelected(s) && Truthy(s.stored) && reply.Ok? ==> r.state.messages == MessageEntries(reply.data)
  {
    if !TextChannelSelected(s) then Step(s, [])
    else
      var op := ChannelMessages(s.activeChannel, None);
      assert Truthy(s.stored) ==> Prepare(op, s.stored).value.url
                                  == ApiBase + "/channels/" + s.activeChannel.value + "/messages?limit=50" by {
        if Truthy(s.stored) { MessagesUrlDefaultsLimit(s.activeChannel.value, s.stored.value); }
      }
      match Invoke(op, s.stored, reply)
      case Success(data) => Step(s.(messages := MessageEntries(data)), Issued(op, s.stored))
      case Failure(_) => Step(s, Issued(op, s.stored))
  }

  /** Whether a send goes ahead: non-blank input and a selected channel. */
  predicate CanSend(s: HomeState) {
    Trim(s.messageInput) != "" && Truthy(s.activeChannel)
  }

  /** The state after a successful send by `user`: the message Discord
      returned is appended, authored by the user, and the input is cleared. */
  function AppendSent(s: HomeState, m: RawMessage, user: User): (r: HomeState)
    ensures |r.messages| == |s.messages| + 1
    ensures r.messages[..|s.messages|] == s.messages
    ensures r.messages[|s.messages|] == Message(m.id, user.username, m.content, m.timestamp)
    ensures r.messageInput == ""
    ensures r.(messages := s.messages, messageInput := s.messageInput) == s
  {
    s.(messages := s.messages + [Message(m.id, user.username, m.content, m.timestamp)], messageInput := "")
  }

  /** Sending the typed message. Blank input, no selected channel or no
      stored credential: nothing happens. A successful send appends exactly one message, written by the
      signed-in user with the id, content and timestamp Discord returned, and
      clears the input; a failed send changes nothing. */
  function Send(s: HomeState, reply: Outcome<RawMessage>): (r: Step)
    ensures !CanSend(s) ==> r == Step(s, [])
    ensures CanSend(s) && !Truthy(s.stored) ==> r == Step(s, [])
    ensures CanSend(s) ==> r.requests == Issued(SendMessage(s.activeChannel, Some(s.messageInput)), s.stored)
    ensures CanSend(s) && Truthy(s.stored) ==>
              |r.requests| == 1 && HeaderValue(r.requests[0].headers, "Authorization") == s.stored
    ensures r.state == s || (reply.Ok? && s.user.Some? && r.state == AppendSent(s, reply.data, s.user.value))
    ensures CanSend(s) && Truthy(s.stored) && reply.Ok? && s.user.Some? ==>
              r.state == AppendSent(s, reply.data, s.user.value)
  {
    if !CanSend(s) then Step(s, [])
    else
      var op := SendMessage(s.activeChannel, Some(s.messageInput));
      var requests := Issued(op, s.stored);
      var result := Invoke(op, s.stored, reply);
      if result.Success? && s.user.Some? then Step(AppendSent(s, result.value, s.user.value), requests)
      else Step(s, requests)
  }

  /** The send request goes to the selected channel and carries the input
      exactly as typed, untrimmed. */
  lemma SendPostsTypedInput(s: HomeState, reply: Outcome<RawMessage>)
    requires !Blank(s.messageInput) && Truthy(s.activeChannel) && Truthy(s.stored)
    ensures var requests := Send(s, reply).requests;
      && requests == Issued(SendMessage(s.activeChannel, Some(s.messageInput)), s.stored)
      && |requests| == 1
      && requests[0].url == ApiBase + "/channels/" + s.activeChannel.value + "/messages"
      && requests[0].body == Some(Json.Single("content", Json.JString(s.messageInput)))
  {
    assert CanSend(s);
    var op := SendMessage(s.activeChannel, Some(s.messageInput));
    SendPostsUntrimmedContent(s.activeChannel.value, s.messageInput, s.stored.value);
    assert Send(s, reply).requests == Issued(op, s.stored) == [Prepare(op, s.stored).value];
  }

  /** Logging out removes the credential and navigates to the login page;
      the rest of the state is left as it is. */
  function Logout(s: HomeState): (r: HomeState)
    ensures r.stored == None && r.navigation == Some(LoginRoute)
    ensures r.(stored := s.stored, navigation := s.navigation) == s
  {
    s.(stored := None, navigation := Some(LoginRoute))
  }

  // ---------------------------------------------------------------------
  // Properties across transitions

  /** After logging out, mounting the page again makes no request and goes
      straight back to the login page. */
  lemma LogoutThenRemountMakesNoRequest(s: HomeState, u: Outcome<User>, g: Outcome<seq<RawGuild>>)
    ensures var r := CheckAuth(Init(Logout(s).stored), u, g);
      r.requests == [] && r.state.navigation == Some(LoginRoute)
  {
  }

  /** A failed session check leaves nothing to retry with: the next mount
      makes no request either. */
  lemma FailedCheckThenRemountMakesNoRequest(s: HomeState, u: Outcome<User>, g: Outcome<seq<RawGuild>>,
                                             u2: Outcome<User>, g2: Outcome<seq<RawGuild>>)
    requires Truthy(s.stored) && (u.Err? || g.Err?)
    ensures CheckAuth(Init(CheckAuth(s, u, g).state.stored), u2, g2).requests == []
  {
  }

  /** Switching servers keeps the selected channel cleared until a channel is
      clicked: a message load right after a server click does nothing. */
  lemma ServerClickThenLoadMessagesIsIdle(s: HomeState, serverId: string, reply: Outcome<seq<RawMessage>>)
    ensures LoadMessages(ServerClick(s, serverId), reply) == Step(ServerClick(s, serverId), [])
  {
  }

  /** A voice channel never triggers a message fetch. */
  lemma VoiceChannelLoadsNoMessages(s: HomeState, channelId: string, reply: Outcome<seq<RawMessage>>)
    requires FindChannel(s.channels, channelId).Some? && FindChannel(s.channels, channelId).value.kind == Voice
    ensures LoadMessages(ChannelClick(s, channelId), reply) == Step(ChannelClick(s, channelId), [])
  {
  }

  /** Two successful sends append two messages in the order they were sent. */
  lemma SendsAppendInOrder(s: HomeState, m1: RawMessage, m2: RawMessage, input2: string)
    requires !Blank(s.messageInput) && Truthy(s.activeChannel) && Truthy(s.stored) && s.user.Some? && !Blank(input2)
    ensures var s1 := Send(s, Ok(m1)).state;
            var s2 := Send(s1.(messageInput := input2), Ok(m2)).state;
            && |s2.messages| == |s.messages| + 2
            && s2.messages[..|s.messages|] == s.messages
            && s2.messages[|s.messages|].id == m1.id
            && s2.messages[|s.messages| + 1].id == m2.id
  {
    var u := s.user.value;
    assert CanSend(s);
    var s1 := Send(s, Ok(m1)).state;
    assert s1 == AppendSent(s, m1, u);
    var t := s1.(messageInput := input2);
    assert CanSend(t);
    var s2 := Send(t, Ok(m2)).state;
    assert s2 == AppendSent(t, m2, u);
    assert t.messages == s1.messages;
    assert s2.messages[..|s1.messages|] == s1.messages;
    assert s2.messages[|s.messages|] == s1.messages[|s.messages|];
    assert s2.messages[..|s.messages|] == s1.messages[..|s.messages|];
  }
}
