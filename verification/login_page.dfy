/** The token login form (pages/login.js). Submitting checks the entered
    token against Discord's current-user endpoint and stores it only when
    Discord accepts it. The submit handler awaits one request, so it is
    modelled in two halves: `BeginSubmit` up to the request and
    `FinishSubmit` once it settles. */
module LoginPage {
  import opened Results
  import opened JsString
  import opened Http

  const ValidationUrl := "https://discord.com/api/v10/users/@me"
  const HomeRoute := "/"

  const EnterTokenMessage := "Please enter your Discord token"
  const InvalidTokenMessage := "Invalid Discord token"
  const FallbackMessage := "Failed to authenticate. Please check your token."

  /** The form's React state, plus the storage slot `discord_token` and the
      last route the page navigated to. */
  datatype LoginState = LoginState(token: string, isLoading: bool, error: string, stored: Option<string>, navigation: Option<string>)

  /** How the validation request settled: a response with its `ok` flag, or
      a rejected fetch with the browser's error message. */
  datatype ValidationReply = Responded(ok: bool) | FetchFailed(message: string)

  /** Either the submit stopped before any request, or it is waiting on `request`. */
  datatype Submission = Rejected(state: LoginState) | Pending(state: LoginState, request: Request)

  /** The first half of `handleSubmit`. A blank token only sets an error.
      Otherwise loading starts, the error is cleared, and the token, as
      entered, is sent as the `Authorization` header. */
  function BeginSubmit(s: LoginState): (r: Submission)
    ensures r.Rejected? <==> Blank(s.token)
    ensures r.Rejected? ==> r.state == s.(error := EnterTokenMessage)
    ensures r.Pending? ==> r.state == s.(isLoading := true, error := "")
    ensures r.Pending? ==> && r.request.verb == Get && r.request.url == ValidationUrl
                           && HeaderValue(r.request.headers, "Authorization") == Some(s.token)
    ensures r.Pending? ==> r.request.body == None && |r.request.headers| == 1
  {
    if Trim(s.token) == "" then Rejected(s.(error := EnterTokenMessage))
    else Pending(s.(isLoading := true, error := ""), Request(Get, ValidationUrl, [Header("Authorization", s.token)], None))
  }

  /** The message the catch block shows: the thrown error's message, or a
      fallback when it is empty. */
  function CaughtMessage(message: string): (r: string)
    ensures r != ""
    ensures message != "" ==> r == message
    ensures message == "" ==> r == FallbackMessage
  {
    if message != "" then message else FallbackMessage
  }

  /** The second half of `handleSubmit`. An accepted token is stored exactly
      as entered and the page navigates home; otherwise an error is shown and
      nothing is stored. Loading ends either way. */
  function FinishSubmit(s: LoginState, reply: ValidationReply): (r: LoginState)
    ensures !r.isLoading && r.token == s.token
    ensures reply == Responded(true) ==> && r.stored == Some(s.token) && r.navigation == Some(HomeRoute)
                                         && r.error == s.error
    ensures reply != Responded(true) ==> && r.stored == s.stored && r.navigation == s.navigation
                                         && r.error != ""
    ensures reply == Responded(false) ==> r.error == InvalidTokenMessage
    ensures reply.FetchFailed? ==> r.error == CaughtMessage(reply.message)
    ensures reply.FetchFailed? && reply.message != "" ==> r.error == reply.message
  {
    match reply
    case Responded(true) => s.(stored := Some(s.token), navigation := Some(HomeRoute), isLoading := false)
    case Responded(false) => s.(error := CaughtMessage(InvalidTokenMessage), isLoading := false)
    case FetchFailed(message) => s.(error := CaughtMessage(message), isLoading := false)
  }

  /** The whole submit, for a request that settles with `reply`. */
  function Submit(s: LoginState, reply: ValidationReply): (r: LoginState)
    ensures Blank(s.token) ==> r == s.(error := EnterTokenMessage)
    ensures !Blank(s.token) ==> !r.isLoading
    ensures r.stored != s.stored ==> !Blank(s.token) && reply == Responded(true) && r.stored == Some(s.token)
  {
    match BeginSubmit(s)
    case Rejected(state) => state
    case Pending(state, _) => FinishSubmit(state, reply)
  }

  /** A successful login stores the token untrimmed, surrounding spaces included. */
  lemma StoresTokenAsEntered(s: LoginState)
    requires !Blank(s.token)
    ensures Submit(s, Responded(true)).stored == Some(s.token)
    ensures Submit(s, Responded(true)).error == ""
    ensures Submit(s.(token := " " + s.token + " "), Responded(true)).stored == Some(" " + s.token + " ")
  {
    var padded := " " + s.token + " ";
    assert !Blank(padded) by {
      var k :| 0 <= k < |s.token| && !IsWhitespace(s.token[k]);
      assert padded[k + 1] == s.token[k];
    }
  }
}
