# Discord web client: session, selection and validation rules

A Dafny model of the decision and transition rules of a small Next.js Discord
web client. The client lets a user paste a Discord token, checks it, keeps it
in browser storage, and then browses servers (guilds), channels and messages
and posts messages through Discord's REST API.

The model covers five parts of the client:

- **DiscordApi** (`lib/discord.js`). The stored-credential helpers
  (`getToken`, `isAuthenticated`, `getHeaders`) and the seven API operations.
  `Prepare` gives the request an operation issues, or none when an argument
  check or the header check fails first. `Invoke` gives what the caller sees
  once that request settles: the data unchanged, or the operation's one fixed
  failure message.
- **HomePage** (`pages/index.js`). The page state and its transitions: the
  session check on mount, server click, channel click, channel load, message
  load, send and logout. It also holds the two list transforms, guilds to
  server entries and raw channels to text/voice entries.
- **LoginPage** (`pages/login.js`). The token form's submit handler, in two
  halves around the validation request.
- **TokenLogin** (`pages/api/auth/token-login.js`). The server route that
  validates a token: method check, token-format check, Discord's answer, and
  the projection of the user object.
- **ErrorPage** (`pages/error.js`). The message shown for an authentication
  error code.

**SessionFlow** states properties that span pages, such as "the token a login
stores is the one the home page sends". It also holds a worked sign-in scenario
as a lemma.

Supporting modules:

- **Results**: `Option`, the network `Outcome` (`Ok(data)` or `Err`) and `Result`.
- **JsString**: JavaScript's `trim` with its exact whitespace set, string
  truthiness, `charAt(0)`, `startsWith` and decimal rendering.
- **Json** and **Http**: request and response data.

Every await in the source becomes an argument. Each transition takes the
network outcome it would have awaited. It returns the next state together
with the requests it issued, so "makes no request" is a statement about that
list. Browser storage is the `stored` field (the `discord_token` slot), and
navigation is the `navigation` field (the last route pushed).

### Behaviour of the code that the model keeps

- A channel or message load applies whatever response it receives, even one
  for a server or channel that is no longer selected.
- A server click does not clear the channel or message lists. It only resets
  the selected channel.
- A channel click is not checked against the channel list.
- Logout removes the token and navigates, but leaves the page state as it is.
- In the session check, a failed guild fetch is as fatal as a failed user
  fetch: the token is removed.
- With no stored token the session check navigates away and leaves `loading`
  true.
- Failures are not sorted into kinds. Every API failure becomes one fixed
  message per operation, and the local argument checks fail the same way.

## Model

| member | source | states |
|---|---|---|
| JsString.Trim | pages/login.js:14 | `trim()` gives the empty string exactly when every character is JavaScript whitespace; the result is a contiguous run of the input, and a non-empty result starts and ends with a non-whitespace character |
| JsString.TrimStartDropsWhitespace | pages/login.js:14 | what trimming the start removes is whitespace |
| JsString.TrimEndDropsWhitespace | pages/login.js:14 | what trimming the end removes is whitespace |
| JsString.TrimDropsOnlyWhitespace | pages/login.js:14 | `trim()` removes only whitespace: the result is the input with a blank prefix and a blank suffix cut off |
| JsString.NatToString | lib/discord.js:79 | the message limit in the URL is rendered as decimal digits, at least one, without a leading zero |
| JsString.DecimalRoundTrip | lib/discord.js:79 | reading the rendered limit back gives the limit, so the query parameter names it unambiguously |
| DiscordApi.IsAuthenticated | lib/discord.js:6-16 | authenticated exactly when a browser window exists and a non-empty token is stored; outside a browser `getToken` yields nothing |
| DiscordApi.Headers | lib/discord.js:19-29 | fails with "Authentication required" exactly for a missing or empty token; otherwise `Authorization` is the token unchanged and `Content-Type` is `application/json` |
| DiscordApi.AuthenticatedIffHeadersBuild | lib/discord.js:14-29 | `isAuthenticated()` holds exactly when `getHeaders()` with the stored token succeeds |
| DiscordApi.Endpoint | lib/discord.js:31-145 | only `sendMessage` POSTs and only `joinVoiceChannel` PATCHes; every other operation is a GET, and exactly the GETs send no body |
| DiscordApi.Prepare | lib/discord.js:31-145 | a request is built exactly when the operation's argument checks pass and the token is non-empty; it carries the token as `Authorization` and a JSON content type, and its method, URL (the API base followed by the operation's path) and body are the operation's endpoint |
| DiscordApi.Invoke | lib/discord.js:31-145 | succeeds exactly when a request was built and answered, returning its data unchanged; every failure, local or remote, is the operation's fixed message |
| DiscordApi.NoRequestIgnoresOutcome | lib/discord.js:57-70 | when a local check fails, no network outcome can change the result, which is the fixed failure message |
| DiscordApi.MissingIdentifierFailsLocally | lib/discord.js:57-130 | a missing guild or channel id, missing or blank message content, or any missing id for joining voice issues no request and fails with the fixed message |
| DiscordApi.MessagesUrlDefaultsLimit | lib/discord.js:73-81 | without a limit, the messages URL is the API base, `/channels/`, the id and `/messages?limit=50` |
| DiscordApi.MessagesUrlWithLimit | lib/discord.js:73-81 | with an explicit limit the messages URL is the API base, `/channels/`, the id, `/messages?limit=` and the limit in decimal |
| DiscordApi.ReadOperationUrls | lib/discord.js:31-124 | `getCurrentUser`, `getUserGuilds`, `getGuildChannels` and `getVoiceRegions` GET `/users/@me`, `/users/@me/guilds`, `/guilds/{guild}/channels` and `/voice/regions` below the API base, with no body |
| DiscordApi.MessagesUrlCarriesLimit | lib/discord.js:73-81 | with an explicit limit the URL is the channel's messages path followed by `?limit=` and a digit string whose value is the limit |
| DiscordApi.MessagesUrlNamesLimit | lib/discord.js:79 | two message fetches for the same channel have the same URL only when they ask for the same limit |
| DiscordApi.SendPostsUntrimmedContent | lib/discord.js:89-104 | sending POSTs to the channel's messages URL with body `{content}` holding the content as given, untrimmed |
| DiscordApi.JoinVoicePatchesMember | lib/discord.js:126-140 | joining voice PATCHes `/guilds/{guild}/members/{user}` with body `{channel_id}` |
| DiscordApi.FailureMessageNamesOperation | lib/discord.js:31-145 | two operations that fail with the same message are the same operation |
| HomePage.ServerEntries | pages/index.js:32-38 | the guild list maps one to one and in order onto server entries; each keeps its guild's id and name; the icon is `https://cdn.discordapp.com/icons/{id}/{icon}.png` when the guild's icon hash is truthy, otherwise the name's first character |
| HomePage.IconRendersAsImage | pages/index.js:153-156 | the sidebar shows an image exactly for entries whose guild had a truthy icon hash (only those start with "http"); otherwise it shows the entry's icon, which is the name's first character |
| HomePage.ChannelEntries | pages/index.js:59-65 | every channel of type 0 or 2 appears, as text or voice with its id and name; every entry comes from such a channel of the input |
| HomePage.ChannelEntriesKeepOrder | pages/index.js:59-65 | the transform distributes over concatenation, so the input order is kept |
| HomePage.ChannelEntriesIdempotent | pages/index.js:59-65 | turning entries back into raw channels and transforming again gives the same entries |
| HomePage.MessageEntries | pages/index.js:85-90 | the fetched messages map one to one and in order onto entries with Discord's id, content and timestamp and the author's username as author |
| HomePage.FindChannel | pages/index.js:79 | finds the first channel with the id, or reports that none has it |
| HomePage.CheckAuth | pages/index.js:19-47 | with no token: no request and navigation to `/login`; otherwise the requests are `getCurrentUser`, then `getUserGuilds` only when the user fetch succeeded, both carrying the stored token; a failed user or guild fetch removes the token, navigates to `/login` and ends loading, keeping the previous user when the user fetch failed; success sets the user and the server entries; selection, lists and message input are untouched |
| HomePage.ServerClick | pages/index.js:99-102 | selects the server and clears the selected channel; nothing else changes, channel and message lists included |
| HomePage.ChannelClick | pages/index.js:104-106 | selects the channel and changes nothing else |
| HomePage.LoadChannels | pages/index.js:54-69 | with no selected server, or no stored token (the header check throws and the error is swallowed), nothing happens; otherwise one request to the guild's channels URL carrying the token; success replaces the list with the transformed entries, failure keeps it |
| HomePage.LoadMessages | pages/index.js:76-94 | a request is made only when the first channel with the selected id is a text channel and a token is stored, to its messages URL with limit 50, carrying the token; with no token nothing changes; success replaces the messages, anything else keeps them |
| HomePage.AppendSent | pages/index.js:114-120 | exactly one message is appended at the end, authored by the user's username with Discord's id, content and timestamp, and the input is cleared |
| HomePage.Send | pages/index.js:108-124 | blank input or no selected channel: no request, no change; with no stored token: no request, no change; otherwise one `sendMessage` request carrying the token; success appends one message and clears the input; failure changes nothing |
| HomePage.SendPostsTypedInput | pages/index.js:113 | the send request is `sendMessage` for the selected channel, posting the input exactly as typed, untrimmed |
| HomePage.Logout | pages/index.js:126-129 | the token is removed and the page navigates to `/login`; nothing else changes |
| HomePage.LogoutThenRemountMakesNoRequest | pages/index.js:126-129 | after logout, mounting again makes no request and goes to `/login` |
| HomePage.FailedCheckThenRemountMakesNoRequest | pages/index.js:39-46 | after a failed session check, the next mount makes no request |
| HomePage.ServerClickThenLoadMessagesIsIdle | pages/index.js:99-102 | right after a server click the message load does nothing |
| HomePage.VoiceChannelLoadsNoMessages | pages/index.js:79-81 | selecting a voice channel never fetches messages |
| HomePage.SendsAppendInOrder | pages/index.js:114-120 | two successful sends append two messages after the old ones, in sending order |
| LoginPage.BeginSubmit | pages/login.js:11-28 | a blank token only sets "Please enter your Discord token"; otherwise loading starts, the error clears, and a GET to `/users/@me` goes out with no body and one header, `Authorization`, holding the token as entered |
| LoginPage.CaughtMessage | pages/login.js:38-40 | the shown error is the thrown message, or "Failed to authenticate. Please check your token." when that is empty; never empty |
| LoginPage.FinishSubmit | pages/login.js:30-43 | loading ends either way; an ok response stores the token exactly as entered and navigates to `/`; otherwise an error shows and storage and navigation are untouched; non-ok gives "Invalid Discord token"; a rejected fetch shows its message, or the fallback text when that is empty |
| LoginPage.Submit | pages/login.js:11-44 | storage changes only for a non-blank token that Discord accepted, and then holds that token |
| LoginPage.StoresTokenAsEntered | pages/login.js:35 | a padded token is stored with its padding |
| TokenLogin.TokenField | pages/api/auth/token-login.js:8 | destructuring `token` fails exactly for a null or undefined body; otherwise it reads the `token` property |
| TokenLogin.ProjectUser | pages/api/auth/token-login.js:28-40 | fails exactly for a null answer; the user holds exactly the five listed fields the answer has, with their values |
| TokenLogin.Handle | pages/api/auth/token-login.js:1-45 | 405 "Method not allowed" exactly for a non-POST; 400 "Invalid token format" exactly for a missing, non-string or blank token; 401 "Invalid Discord token" exactly for a non-ok answer; 200 with `success: true` and the projected user exactly for a parsed non-null answer; 500 otherwise; Discord is called only after both checks pass, with the token as `Authorization` |
| TokenLogin.MethodCheckComesFirst | pages/api/auth/token-login.js:3-5 | a method other than POST gets 405 "Method not allowed" whatever the body and whatever Discord would answer |
| TokenLogin.FormatCheckComesBeforeDiscord | pages/api/auth/token-login.js:8-13 | a missing, non-string or blank token gets 400 "Invalid token format" whatever Discord would answer |
| TokenLogin.DiscordCallDependsOnRequestOnly | pages/api/auth/token-login.js:16-20 | once both checks pass, the call to Discord is the same GET with the token as `Authorization`, whatever Discord answers |
| TokenLogin.ProjectionDropsOtherFields | pages/api/auth/token-login.js:33-39 | fields outside the five never reach the reply |
| ErrorPage.ErrorMessage | pages/error.js:9-30 | never empty; the unknown-error message exactly when the query is not one of the eight known codes |
| ErrorPage.ErrorMessageMatchesTable | pages/error.js:10-28 | the switch agrees with the eight-entry code table, with the unknown-error default for anything else |
| ErrorPage.CreateAccountCodesShareMessage | pages/error.js:19-24 | the account-creation message is shown exactly for the codes `OAuthCreateAccount` and `EmailCreateAccount` |
| SessionFlow.ValidationEndpointsAgree | pages/login.js:24 | the login form, the token route and `getCurrentUser` check tokens against the same endpoint |
| SessionFlow.MountPresentsStoredToken | pages/index.js:19-27 | with a token stored, the first request of the mount asks for the current user and presents that token unchanged |
| SessionFlow.LoginThenHomeSendsSameToken | pages/login.js:24-37 | the token a successful login stores is sent unchanged by the home page's first request, to the endpoint the login checked |
| SessionFlow.RejectedLoginKeepsHomeSignedOut | pages/login.js:30-40 | a rejected login stores nothing, so the home page still makes no request |
| SessionFlow.SignInScenarioMount | pages/index.js:19-47 | an accepted token, user Alice and one icon-less guild "Home": two requests, the user set, one server entry with icon "H", loading over |
| SessionFlow.SignInScenarioChannels | pages/index.js:54-94 | a text, a voice and a category channel: the category channel is dropped, the text channel fetches messages, the voice channel does not |

## Left out

- Network, storage and navigation are not performed. `fetch`/axios results are arguments, `localStorage` is the `stored` field, and `router.push` is the `navigation` field.
- React effect scheduling is not modelled. `LoadChannels` and `LoadMessages` are the effect bodies; when React runs them, and how async completions interleave, is outside the model. The code has no guard against out-of-order responses, so no stale-response property is claimed.
- HomePage.Send: when no user is loaded, the source's state updater would read `user.username` of `null` and throw. The model leaves the state unchanged in that case. The form is only rendered after the session check has set the user.
- Response payloads in the pages are typed records. A payload of the wrong shape, which makes the source throw inside its `try`, is not modelled.
- Strings are sequences of Unicode scalar values: `JsString.FirstChar` and the other string functions use Unicode scalar values. JavaScript's `charAt` works on UTF-16 code units, which differs only for characters outside the Basic Multilingual Plane.
- JsString.NatToString: writes every non-negative integer in plain digits, while JavaScript does so only below 10^21 (above that `${limit}` gives exponent form, and numbers are exact integers only up to 2^53). This does not matter here, because the page only ever renders the default limit 50.
- The message limit of `getChannelMessages` is a non-negative integer in the model. Callers never pass one. Other JavaScript values interpolated into the URL are not modelled.
- An error thrown by `localStorage.setItem` in the login handler is not modelled.
- JSX rendering, CSS, timestamp formatting (`toLocaleTimeString`), console logging, `next.config.js` and `tailwind.config.js` are presentation or configuration.
- `pages/api/auth/[...nextauth].js` (the OAuth provider configuration) is not part of this model.
