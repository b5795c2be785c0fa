/** The page behind a password-reset link (`/reset-password/:token`): a new
    password, typed twice, replaces the old one. */
module ResetPasswordPage {

  import opened Common
  import opened Passwords

  datatype Request = ResetPassword(token: string, newPassword: string)

  datatype Screen = ResetForm | Confirmation

  const MismatchText := "Wachtwoorden komen niet overeen"
  const FailureText := "Kon wachtwoord niet resetten. Link mogelijk verlopen."

  /** The confirmation screen replaces the form once the reset went through. */
  function ScreenOf(success: bool): (s: Screen)
    ensures s == Confirmation <==> success
  {
    if success then Confirmation else ResetForm
  }

  class Page {
    const token: string
    var newPassword: string
    var confirmPassword: string
    var loading: bool
    var success: bool
    var notices: seq<Notice>
    var requests: seq<Request>

    constructor (link: string)
      ensures token == link && newPassword == "" && confirmPassword == ""
      ensures !loading && !success && notices == [] && requests == []
    {
      token := link;
      newPassword, confirmPassword := "", "";
      loading, success := false, false;
      notices, requests := [], [];
    }

    method Edit(pw: string, confirmation: string)
      modifies this`newPassword, this`confirmPassword
      ensures newPassword == pw && confirmPassword == confirmation
    {
      newPassword, confirmPassword := pw, confirmation;
    }

    /** Submitting: a mismatch, then a short password, stop the form without a
        request; otherwise one reset call. Only its success turns the page to
        the confirmation; loading is over after every attempt. */
    method HandleSubmit(reply: Reply<()>)
      modifies this`loading, this`success, this`notices, this`requests
      ensures loading == (old(loading) && PasswordProblem(newPassword, confirmPassword, MismatchText).Some?)
      ensures success <==> old(success) || (PasswordProblem(newPassword, confirmPassword, MismatchText).None? && reply.Ok?)
      ensures PasswordProblem(newPassword, confirmPassword, MismatchText).Some? ==>
                requests == old(requests)
                && notices == old(notices) + [Error(PasswordProblem(newPassword, confirmPassword, MismatchText).value)]
      ensures PasswordProblem(newPassword, confirmPassword, MismatchText).None? ==>
                requests == old(requests) + [ResetPassword(token, newPassword)]
      ensures PasswordProblem(newPassword, confirmPassword, MismatchText).None? && reply.Ok? ==>
                notices == old(notices) + [Success("Wachtwoord succesvol gewijzigd!")]
      ensures PasswordProblem(newPassword, confirmPassword, MismatchText).None? && reply.Failed? ==>
                notices == old(notices) + [Error(DetailOr(reply.detail, FailureText))]
    {
      var problem := PasswordProblem(newPassword, confirmPassword, MismatchText);
      if problem.Some? {
        notices := notices + [Error(problem.value)];
        return;
      }
      loading := true;
      requests := requests + [ResetPassword(token, newPassword)];
      if reply.Ok? {
        success := true;
        notices := notices + [Success("Wachtwoord succesvol gewijzigd!")];
      } else {
        notices := notices + [Error(DetailOr(reply.detail, FailureText))];
      }
      loading := false;
    }
  }
}
