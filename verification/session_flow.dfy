/** Properties that span pages: the login form, the stored credential and
    the home page's session check, plus the worked sign-in scenario. */
module SessionFlow {
  import opened Results
  import opened JsString
  import opened Http
  import opened DiscordApi
  import opened HomePage
  import LoginPage
  import TokenLogin

  /** The login form, the token-login route and the API client all validate
      a token against the same current-user endpoint. */
  lemma ValidationEndpointsAgree(token: string)
    requires token != ""
    ensures LoginPage.ValidationUrl == TokenLogin.ValidationUrl == ApiBase + "/users/@me"
    ensures Prepare(CurrentUser, Some(token)).value.url == LoginPage.ValidationUrl
  {
  }

  /** Mounting the home page with a stored token first asks Discord for the
      current user, presenting that token unchanged. */
  lemma MountPresentsStoredToken(token: string, u: Outcome<User>, g: Outcome<seq<RawGuild>>)
    requires token != ""
    ensures var step := CheckAuth(Init(Some(token)), u, g);
            && |step.requests| >= 1
            && HeaderValue(step.requests[0].headers, "Authorization") == Some(token)
            && step.requests[0].url == LoginPage.ValidationUrl
  {
  }

  /** The token a successful login stores is the one the home page then
      presents to Discord, unchanged, on the same endpoint the login checked. */
  lemma LoginThenHomeSendsSameToken(l: LoginPage.LoginState, u: Outcome<User>, g: Outcome<seq<RawGuild>>)
    requires !Blank(l.token)
    ensures var stored := LoginPage.Submit(l, LoginPage.Responded(true)).stored;
            var step := CheckAuth(Init(stored), u, g);
            && |step.requests| >= 1
            && HeaderValue(step.requests[0].headers, "Authorization") == Some(l.token)
            && step.requests[0].url == LoginPage.ValidationUrl
  {
    var k :| 0 <= k < |l.token| && !IsWhitespace(l.token[k]);
    LoginPage.StoresTokenAsEntered(l);
    MountPresentsStoredToken(l.token, u, g);
  }

  /** A rejected token is never stored, so with nothing stored before, the
      home page still makes no request. */
  lemma RejectedLoginKeepsHomeSignedOut(l: LoginPage.LoginState, reply: LoginPage.ValidationReply,
                                        u: Outcome<User>, g: Outcome<seq<RawGuild>>)
    requires l.stored == None && reply != LoginPage.Responded(true)
    ensures CheckAuth(Init(LoginPage.Submit(l, reply).stored), u, g).requests == []
  {
  }

  /** The sign-in scenario, first half: token "tok1" is accepted, the user
      is Alice and the one guild, "Home", has no icon. */
  lemma SignInScenarioMount()
    ensures var alice := User("u1", "Alice", "0001", None, None);
      var mounted := CheckAuth(Init(Some("tok1")), Ok(alice), Ok([RawGuild("g1", "Home", None)]));
      && |mounted.requests| == 2
      && mounted.state.user == Some(alice)
      && mounted.state.servers == [Server("g1", "Home", "H")]
      && mounted.state.stored == Some("tok1")
      && !mounted.state.loading
  {
    assert FirstChar("Home") == "H";
    assert ServerEntries([RawGuild("g1", "Home", None)]) == [Server("g1", "Home", "H")];
  }

  /** The sign-in scenario, second half: selecting the guild loads a text, a
      voice and a category channel; the category channel is dropped, the
      text channel fetches messages and the voice channel does not. */
  lemma SignInScenarioChannels(s: HomeState)
    requires s.stored == Some("tok1")
    ensures var raw := [RawChannel("c1", "general", 0), RawChannel("c2", "lounge", 2), RawChannel("c3", "ignored", 4)];
      var loaded := LoadChannels(ServerClick(s, "g1"), Ok(raw)).state;
      && loaded.channels == [Channel("c1", "general", Text), Channel("c2", "lounge", Voice)]
      && |LoadMessages(ChannelClick(loaded, "c1"), Err).requests| == 1
      && LoadMessages(ChannelClick(loaded, "c2"), Err).requests == []
  {
    var raw := [RawChannel("c1", "general", 0), RawChannel("c2", "lounge", 2), RawChannel("c3", "ignored", 4)];
    assert raw[1..] == [RawChannel("c2", "lounge", 2), RawChannel("c3", "ignored", 4)];
    assert raw[1..][1..] == [RawChannel("c3", "ignored", 4)];
    assert raw[1..][1..][1..] == [];
    var loaded := LoadChannels(ServerClick(s, "g1"), Ok(raw)).state;
    assert loaded.channels == [Channel("c1", "general", Text), Channel("c2", "lounge", Voice)];
    assert TextChannelSelected(ChannelClick(loaded, "c1"));
    assert !TextChannelSelected(ChannelClick(loaded, "c2"));
  }
}
