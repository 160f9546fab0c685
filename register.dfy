/**
 * The invitation sign-up page, src/pages/Register.tsx: the check of the invitation
 * token with its error classification, and the password gates and request of
 * `handleRegister`.
 */
module Register {
  import opened Outcomes
  import opened JsText
  import opened Toasts
  import AuthContext
  import HttpClient

  const MissingLink: string := "Invalid invitation link"
  const NotFound: string := "Invitation not found"
  const AlreadyUsed: string := "This invitation has already been used"
  const Expired: string := "This invitation has expired"
  const Invalid: string := "Invalid invitation"

  /** The reason shown for a failed invitation check, from the error message. */
  function InvitationError(message: string): string {
    if Includes(message, "404") then NotFound
    else if Includes(message, "410") || Includes(message, "already used") then AlreadyUsed
    else if Includes(message, "expired") then Expired
    else Invalid
  }

  /** The first matching rule wins: "404", then "410" or "already used", then
      "expired", and anything else is an invalid invitation. */
  lemma InvitationErrorCases(message: string)
    ensures InvitationError(message) == NotFound <==> Includes(message, "404")
    ensures InvitationError(message) == AlreadyUsed <==>
      !Includes(message, "404") && (Includes(message, "410") || Includes(message, "already used"))
    ensures InvitationError(message) == Expired <==>
      !Includes(message, "404") && !Includes(message, "410") && !Includes(message, "already used") &&
      Includes(message, "expired")
    ensures InvitationError(message) == Invalid <==>
      !Includes(message, "404") && !Includes(message, "410") && !Includes(message, "already used") &&
      !Includes(message, "expired")
  {
  }

  /** A message naming both codes is classified by the first: 404 wins over 410. */
  lemma NotFoundWinsOverUsed(a: string, b: string, c: string)
    ensures InvitationError(a + "404" + b + "410" + c) == NotFound
  {
    IncludesAt(a + "404" + b + "410" + c, "404", |a|);
  }

  /** The invitation check goes through `fetchClient`, whose error message carries the
      status text and not the status code: a 404 answer ("Not Found") reads as an invalid
      invitation. */
  lemma NotFoundNeedsStatusText()
    ensures InvitationError(HttpClient.ErrorMessage("Not Found")) == Invalid
  {
    var m := HttpClient.ErrorMessage("Not Found");
    assert '4' !in m && 'a' !in m && 'e' !in m;
    HeadAbsentNotIncluded(m, "404");
    HeadAbsentNotIncluded(m, "410");
    HeadAbsentNotIncluded(m, "already used");
    HeadAbsentNotIncluded(m, "expired");
  }

  /** Likewise a 410 answer ("Gone") never reads as an already used invitation. */
  lemma GoneNeedsStatusText()
    ensures InvitationError(HttpClient.ErrorMessage("Gone")) !in {NotFound, AlreadyUsed}
  {
    var g := HttpClient.ErrorMessage("Gone");
    assert '4' !in g && 'a' !in g;
    HeadAbsentNotIncluded(g, "404");
    HeadAbsentNotIncluded(g, "410");
    HeadAbsentNotIncluded(g, "already used");
    var r := InvitationError(g);
    assert r == Expired || r == Invalid;
  }

  /** The invitation record: only its email is used. */
  datatype Invitation = Invitation(email: string)

  datatype RegisterRequest = RegisterRequest(name: string, email: string, password: string)

  /** What `registerWithToken` answers. */
  datatype AuthResponse = AuthResponse(token: string, agent: AuthContext.Agent)

  const MismatchToast := Toast("Passwords don't match", "Please make sure both passwords are the same", true)
  const TooShortToast := Toast("Password too short", "Password must be at least 8 characters long", true)
  const CreatedToast := Toast("Account created!", "Welcome to MyEstatia", false)

  /** The message of the `TypeError` raised by reading `email` off a null invitation. */
  const NullInvitationMessage: string := "Cannot read properties of null (reading 'email')"

  /** The toast of a failed registration. */
  function FailedToast(message: string): Toast {
    MessageOr("Registration failed", message, "Failed to create account. Please try again.")
  }

  /** The two password guards of `handleRegister`, in order. */
  function RegisterGate(password: string, confirm: string): Option<Toast> {
    if password != confirm then Some(MismatchToast)
    else if |password| < 8 then Some(TooShortToast)
    else None
  }

  /** Registration goes ahead exactly for matching passwords of eight characters or
      more, and a mismatch is reported before a short password. */
  lemma RegisterGateCases(password: string, confirm: string)
    ensures RegisterGate(password, confirm).None? <==> password == confirm && |password| >= 8
    ensures password != confirm ==> RegisterGate(password, confirm) == Some(MismatchToast)
  {
  }

  /** The page state. */
  class RegisterPage {
    const token: Option<string>
    var loading: bool
    var registering: bool
    var invitation: Option<Invitation>
    var error: Option<string>
    var name: string
    var password: string
    var confirmPassword: string

    constructor(token: Option<string>)
      ensures this.token == token && loading && !registering && invitation == None && error == None
      ensures name == "" && password == "" && confirmPassword == ""
    {
      this.token := token;
      loading := true;
      registering := false;
      invitation := None;
      error := None;
      name := "";
      password := "";
      confirmPassword := "";
    }

    /** `checkInvitation`; `reply` is what `validateInvitation(token)` gives when it is
        called.  Returns the token it was called with, if it was. */
    method CheckInvitation(reply: Result<Invitation, string>) returns (validated: Option<string>)
      modifies this
      ensures !loading
      ensures name == old(name) && password == old(password) && confirmPassword == old(confirmPassword)
      ensures registering == old(registering)
      ensures validated.Some? <==> token.Some? && Truthy(token.value)
      ensures validated.Some? ==> validated == token
      ensures validated.None? ==> error == Some(MissingLink) && invitation == old(invitation)
      ensures validated.Some? && reply.Success? ==> invitation == Some(reply.value) && error == old(error)
      ensures validated.Some? && reply.Failure? ==>
        error == Some(InvitationError(reply.error)) && invitation == old(invitation)
    {
      if token.None? || !Truthy(token.value) {
        error := Some(MissingLink);
        loading := false;
        return None;
      }
      validated := token;
      if reply.Success? {
        invitation := Some(reply.value);
        loading := false;
      } else {
        error := Some(InvitationError(reply.error));
        loading := false;
      }
    }

    /** `handleRegister`; `reply` is what `registerWithToken` gives when it is called.
        Returns the request sent, the arguments `login` received, and the toast. */
    method HandleRegister(reply: Result<AuthResponse, string>)
      returns (request: Option<(Option<string>, RegisterRequest)>,
               login: Option<(string, AuthContext.Agent)>, toast: Toast)
      modifies this
      ensures RegisterGate(password, confirmPassword).None? ==> !registering
      ensures name == old(name) && password == old(password) && confirmPassword == old(confirmPassword)
      ensures invitation == old(invitation) && error == old(error) && loading == old(loading)
      ensures RegisterGate(password, confirmPassword).Some? ==>
        Some(toast) == RegisterGate(password, confirmPassword) && request.None? && login.None? &&
        registering == old(registering)
      ensures request.Some? <==> RegisterGate(password, confirmPassword).None? && invitation.Some?
      ensures request.Some? ==> request.value == (token, RegisterRequest(name, invitation.value.email, password))
      ensures login.Some? <==> request.Some? && reply.Success?
      ensures login.Some? ==> login.value == (reply.value.token, reply.value.agent) && toast == CreatedToast
      ensures RegisterGate(password, confirmPassword).None? && invitation.None? ==>
        toast == FailedToast(NullInvitationMessage)
      ensures request.Some? && reply.Failure? ==> toast == FailedToast(reply.error)
    {
      if password != confirmPassword {
        return None, None, MismatchToast;
      }
      if |password| < 8 {
        return None, None, TooShortToast;
      }
      registering := true;
      if invitation.None? {
        request, login, toast := None, None, FailedToast(NullInvitationMessage);
      } else {
        request := Some((token, RegisterRequest(name, invitation.value.email, password)));
        if reply.Success? {
          login := Some((reply.value.token, reply.value.agent));
          toast := CreatedToast;
        } else {
          login := None;
          toast := FailedToast(reply.error);
        }
      }
      registering := false;
    }
  }
}
