/**
 * The sign-in page, src/pages/Auth.tsx: the login request `handleAuth` sends, the
 * session it starts on success, and the title and message of the toast on failure.
 */
module AuthPage {
  import opened Outcomes
  import opened JsText
  import opened Toasts
  import Json
  import HttpClient
  import AuthContext

  /** What `/auth/login` answers. */
  datatype LoginResponse = LoginResponse(token: string, agent: AuthContext.Agent)

  const DefaultError: string := "An error occurred during authentication"
  const CredentialsMessage: string := "Incorrect email or password. Please check your credentials."
  const WelcomeToast := Toast("Welcome!", "You have successfully logged in", false)
  const AfterLogin: string := "/ai-actions"

  /** The JSON members of the login body. */
  function Credentials(email: string, password: string): seq<Json.Member> {
    [("email", Json.Str(email)), ("password", Json.Str(password))]
  }

  /** The call `handleAuth` hands to `fetchClient`. */
  function LoginCall(email: string, password: string): HttpClient.Call {
    HttpClient.Call("/auth/login",
      Some(HttpClient.RequestInit(Some("POST"), HttpClient.Text(Json.Stringify(Credentials(email, password))), None)))
  }

  /** The login body reads back as exactly the typed email and password. */
  lemma LoginBodyReadsBack(email: string, password: string)
    ensures var call := LoginCall(email, password);
      call.options.Some? && call.options.value.body.Text? &&
      Json.Parse(call.options.value.body.text) == Some(Json.ObjectDoc(Credentials(email, password))) &&
      Json.Get(Credentials(email, password), "email") == Some(Json.Str(email)) &&
      Json.Get(Credentials(email, password), "password") == Some(Json.Str(password))
  {
    Json.StringifyRoundTrip(Credentials(email, password));
  }

  /** Whether the failure reads as rejected credentials. */
  predicate Denied(message: string) {
    Includes(message, "401") || Includes(message, "Unauthorized")
  }

  /** The toast of a failed sign-in, from the error's message. */
  function AuthErrorToast(message: string): Toast {
    var text := if message != "" then message else DefaultError;
    if Denied(text) then Toast("Access Denied", CredentialsMessage, true) else Toast("Error", text, true)
  }

  /** A message naming "401" or "Unauthorized" is reported as denied access with the
      fixed credentials text; any other keeps the title "Error" and the message, and an
      empty message becomes the default text. */
  lemma AuthErrorCases(message: string)
    ensures AuthErrorToast(message).destructive
    ensures AuthErrorToast(message).title == "Access Denied" <==> Denied(message)
    ensures Denied(message) ==> AuthErrorToast(message).description == CredentialsMessage
    ensures !Denied(message) && message != "" ==> AuthErrorToast(message) == Toast("Error", message, true)
    ensures message == "" ==> AuthErrorToast(message) == Toast("Error", DefaultError, true)
  {
    if message == "" {
      DefaultNotDenied();
    }
  }

  /** The default text is not read as denied access. */
  lemma DefaultNotDenied()
    ensures !Denied(DefaultError)
  {
    assert '4' !in DefaultError && 'U' !in DefaultError;
    HeadAbsentNotIncluded(DefaultError, "401");
    HeadAbsentNotIncluded(DefaultError, "Unauthorized");
  }

  /** The message of a non-ok answer from `fetchClient` carries only the status text:
      a refusal whose status text is "Unauthorized" reads as denied access, while the
      same refusal with an empty status text reads as a plain error. */
  lemma RefusalNeedsStatusText()
    ensures AuthErrorToast(HttpClient.ErrorMessage("Unauthorized")).title == "Access Denied"
    ensures AuthErrorToast(HttpClient.ErrorMessage("")) == Toast("Error", "API Error: ", true)
  {
    var m := HttpClient.ErrorMessage("Unauthorized");
    assert OccursAt(m, "Unauthorized", 11) by {
      assert m[11..11 + |"Unauthorized"|] == "Unauthorized";
    }
    IncludesAt(m, "Unauthorized", 11);
    var e := HttpClient.ErrorMessage("");
    assert e == "API Error: ";
    assert '4' !in e && 'U' !in e;
    HeadAbsentNotIncluded(e, "401");
    HeadAbsentNotIncluded(e, "Unauthorized");
  }

  /** The sign-in form. */
  class LoginPage {
    var email: string
    var password: string
    var loading: bool

    constructor()
      ensures email == "" && password == "" && !loading
    {
      email := "";
      password := "";
      loading := false;
    }

    /** `handleAuth`; `reply` is what `fetchClient` settles to for the login call, the
        error being its message.  Returns the call made, the toast and where the page
        navigates, if anywhere. */
    method HandleAuth(reply: Result<LoginResponse, string>, auth: AuthContext.AuthProvider)
      returns (call: HttpClient.Call, toast: Toast, navigate: Option<string>)
      modifies this, auth, auth.storage
      ensures !loading && email == old(email) && password == old(password)
      ensures call == LoginCall(email, password)
      ensures reply.Success? ==>
        auth.token == Some(reply.value.token) && auth.agent == Some(reply.value.agent) && auth.Valid() &&
        toast == WelcomeToast && navigate == Some(AfterLogin)
      ensures reply.Failure? ==>
        auth.token == old(auth.token) && auth.agent == old(auth.agent) &&
        auth.storage.items == old(auth.storage.items) &&
        toast == AuthErrorToast(reply.error) && navigate.None?
    {
      loading := true;
      call := LoginCall(email, password);
      if reply.Success? {
        auth.Login(reply.value.token, reply.value.agent);
        toast := WelcomeToast;
        navigate := Some(AfterLogin);
      } else {
        var title := "Error";
        var message := if reply.error != "" then reply.error else DefaultError;
        if Includes(message, "401") || Includes(message, "Unauthorized") {
          title := "Access Denied";
          message := CredentialsMessage;
        }
        toast := Toast(title, message, true);
        navigate := None;
      }
      loading := false;
    }
  }
}
