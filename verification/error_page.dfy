/** The authentication error page (pages/error.js): the message shown for
    the `error` query parameter. */
module ErrorPage {

  /** The `error` query parameter: absent, given once, or repeated (an array). */
  datatype QueryValue = Absent | Given(code: string) | Repeated(codes: seq<string>)

  const UnknownMessage := "An unknown error occurred. Please try again."
  const CreateAccountMessage := "Error creating your account. Please try again."

  /** `getErrorMessage`: the `switch` over the error code. */
  function ErrorMessage(error: QueryValue): (r: string)
    ensures r != ""
    ensures r == UnknownMessage <==> !(error.Given? && error.code in KnownCodes)
  {
    match error
    case Given("Callback") => "Failed to process authentication callback. Please try again."
    case Given("AccessDenied") => "You do not have permission to sign in."
    case Given("OAuthSignin") => "Error starting the OAuth sign-in flow. Please try again."
    case Given("OAuthCallback") => "Error completing the OAuth sign-in flow. Please try again."
    case Given("OAuthCreateAccount") => CreateAccountMessage
    case Given("OAuthAccountNotLinked") => "Email already exists with a different provider."
    case Given("EmailCreateAccount") => CreateAccountMessage
    case Given("SessionRequired") => "You must be signed in to access this page."
    case _ => UnknownMessage
  }

  /** The eight codes the page knows. */
  const KnownCodes: set<string> := {
    "Callback", "AccessDenied", "OAuthSignin", "OAuthCallback",
    "OAuthCreateAccount", "OAuthAccountNotLinked", "EmailCreateAccount", "SessionRequired"
  }

  /** The message table as data: an independent statement of the switch. */
  const Messages: map<string, string> := map[
    "Callback" := "Failed to process authentication callback. Please try again.",
    "AccessDenied" := "You do not have permission to sign in.",
    "OAuthSignin" := "Error starting the OAuth sign-in flow. Please try again.",
    "OAuthCallback" := "Error completing the OAuth sign-in flow. Please try again.",
    "OAuthCreateAccount" := "Error creating your account. Please try again.",
    "OAuthAccountNotLinked" := "Email already exists with a different provider.",
    "EmailCreateAccount" := "Error creating your account. Please try again.",
    "SessionRequired" := "You must be signed in to access this page."
  ]

  /** The switch agrees with the table for every query value, and falls back
      to the unknown-error message for anything the table lacks. */
  lemma ErrorMessageMatchesTable(error: QueryValue)
    ensures Messages.Keys == KnownCodes
    ensures ErrorMessage(error) == (if error.Given? && error.code in Messages then Messages[error.code] else UnknownMessage)
  {
  }

  /** The two account-creation codes share one message, and no other query
      value is shown it. */
  lemma CreateAccountCodesShareMessage(error: QueryValue)
    ensures ErrorMessage(error) == CreateAccountMessage <==>
              error == Given("OAuthCreateAccount") || error == Given("EmailCreateAccount")
  {
  }
}
