/** The page behind an invitation link (`/register/:token`): it first checks
    the invitation, then lets the invitee choose a name and a password, and
    signs the new account in. */
module RegisterPage {

  import opened Common
  import opened Passwords

  datatype Request =
    | VerifyInvitation(token: string)
    | Register(email: string, firstName: string, lastName: string, password: string, invitationToken: string)

  /** A successful registration: the new user and their access token. */
  datatype Registered = Registered(user: Account, accessToken: string)

  datatype Screen = Verifying | InvalidInvitation | RegisterForm

  const MismatchText := "Wachtwoorden komen niet overeen"
  const FailureText := "Registratie mislukt. Probeer opnieuw."

  /** What the page shows: the spinner while the invitation is checked, the
      "invalid invitation" screen unless it checked out, else the form. */
  function ScreenOf(verifying: bool, validToken: bool): (s: Screen)
    ensures s == RegisterForm <==> !verifying && validToken
    ensures s == InvalidInvitation <==> !verifying && !validToken
  {
    if verifying then Verifying
    else if !validToken then InvalidInvitation
    else RegisterForm
  }

  class Page {
    const token: string
    var email: string
    var firstName: string
    var lastName: string
    var password: string
    var confirmPassword: string
    var loading: bool
    var verifying: bool
    var validToken: bool
    var notices: seq<Notice>
    var requests: seq<Request>
    /** The calls made to `onRegister`, the shell's sign-in. */
    var signIns: seq<Registered>

    constructor (invitation: string)
      ensures token == invitation && email == "" && firstName == "" && lastName == ""
      ensures password == "" && confirmPassword == ""
      ensures !loading && verifying && !validToken
      ensures notices == [] && requests == [] && signIns == []
      ensures ScreenOf(verifying, validToken) == Verifying
    {
      token := invitation;
      email, firstName, lastName := "", "", "";
      password, confirmPassword := "", "";
      loading, verifying, validToken := false, true, false;
      notices, requests, signIns := [], [], [];
    }

    /** Checking the invitation: its e-mail address fills the (read-only) e-mail
        field when it is valid; otherwise an error toast. Either way the check
        is over and the page shows the form exactly when it succeeded. */
    method VerifyToken(reply: Reply<string>)
      modifies this`email, this`validToken, this`verifying, this`notices, this`requests
      ensures requests == old(requests) + [VerifyInvitation(token)]
      ensures !verifying
      ensures validToken <==> reply.Ok?
      ensures ScreenOf(verifying, validToken) == (if reply.Ok? then RegisterForm else InvalidInvitation)
      ensures reply.Ok? ==> email == reply.data && notices == old(notices)
      ensures reply.Failed? ==> email == old(email)
                                && notices == old(notices) + [Error("Ongeldige of verlopen uitnodiging")]
    {
      requests := requests + [VerifyInvitation(token)];
      if reply.Ok? {
        email := reply.data;
        validToken := true;
      } else {
        notices := notices + [Error("Ongeldige of verlopen uitnodiging")];
        validToken := false;
      }
      verifying := false;
    }

    /** The four editable inputs. */
    method Edit(first: string, last: string, pw: string, confirmation: string)
      modifies this`firstName, this`lastName, this`password, this`confirmPassword
      ensures firstName == first && lastName == last && password == pw && confirmPassword == confirmation
    {
      firstName, lastName, password, confirmPassword := first, last, pw, confirmation;
    }

    /** Submitting: a mismatch, then a short password, stop the form without a
        request; otherwise one registration call whose success signs the new
        user in with the returned token. */
    method HandleSubmit(reply: Reply<Registered>)
      modifies this`loading, this`notices, this`requests, this`signIns
      ensures PasswordProblem(password, confirmPassword, MismatchText).Some? ==>
                requests == old(requests) && signIns == old(signIns) && loading == old(loading)
                && notices == old(notices) + [Error(PasswordProblem(password, confirmPassword, MismatchText).value)]
      ensures PasswordProblem(password, confirmPassword, MismatchText).None? ==>
                requests == old(requests) + [Register(email, firstName, lastName, password, token)] && !loading
      ensures PasswordProblem(password, confirmPassword, MismatchText).None? && reply.Ok? ==>
                signIns == old(signIns) + [reply.data]
                && notices == old(notices) + [Success("Account succesvol aangemaakt!")]
      ensures PasswordProblem(password, confirmPassword, MismatchText).None? && reply.Failed? ==>
                signIns == old(signIns) && notices == old(notices) + [Error(DetailOr(reply.detail, FailureText))]
    {
      var problem := PasswordProblem(password, confirmPassword, MismatchText);
      if problem.Some? {
        notices := notices + [Error(problem.value)];
        return;
      }
      loading := true;
      requests := requests + [Register(email, firstName, lastName, password, token)];
      if reply.Ok? {
        notices := notices + [Success("Account succesvol aangemaakt!")];
        signIns := signIns + [reply.data];
      } else {
        notices := notices + [Error(DetailOr(reply.detail, FailureText))];
      }
      loading := false;
    }
  }
}
