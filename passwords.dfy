/** The two checks every password form runs before it sends anything: the
    password must equal its confirmation, and only then must it be at least six
    characters long (JavaScript `length`, in UTF-16 code units). */
module Passwords {

  import opened Common
  import opened Strings

  const MinLength: nat := 6
  const TooShortText := "Wachtwoord moet minimaal 6 tekens bevatten"

  /** The error a form shows instead of submitting, or None when it may submit.
      The mismatch check comes first, so a short mismatching password reports
      the mismatch. */
  function PasswordProblem(password: string, confirmation: string, mismatchText: string): (r: Option<string>)
    ensures r.None? <==> password == confirmation && Utf16Length(password) >= MinLength
    ensures password != confirmation ==> r == Some(mismatchText)
    ensures password == confirmation && Utf16Length(password) < MinLength ==> r == Some(TooShortText)
  {
    if password != confirmation then Some(mismatchText)
    else if Utf16Length(password) < MinLength then Some(TooShortText)
    else None
  }

  /** Because `length` counts UTF-16 code units, an accepted password has at
      least three characters, and any matching password of six characters or
      more is accepted. */
  lemma AcceptedLength(password: string, mismatchText: string)
    ensures PasswordProblem(password, password, mismatchText).None? ==> |password| >= MinLength / 2
    ensures |password| >= MinLength ==> PasswordProblem(password, password, mismatchText).None?
  {
  }
}
