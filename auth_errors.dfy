/**
 * What the two password screens (app/auth/register.tsx and app/auth/reset-password.tsx)
 * share: the checks on the two password fields, their messages, and how a caught exception
 * becomes the message shown.
 */
module AuthErrors {
  import opened Wrappers

  const PasswordsDoNotMatch: string := "Passwords do not match"
  const PasswordTooShort: string := "Password must be at least 6 characters"
  const Unexpected: string := "An unexpected error occurred"

  /** The shortest password accepted. */
  const MinPasswordLength: nat := 6

  /**
   * The two checks after the "fill in" check: first that the confirmation equals the
   * password, then the length.
   */
  function PasswordProblem(password: string, confirmPassword: string): (r: Option<string>)
    ensures r == Some(PasswordsDoNotMatch) <==> password != confirmPassword
    ensures r == Some(PasswordTooShort) <==> password == confirmPassword && |password| < MinPasswordLength
    ensures r == None <==> password == confirmPassword && |password| >= MinPasswordLength
  {
    if password != confirmPassword then Some(PasswordsDoNotMatch)
    else if |password| < MinPasswordLength then Some(PasswordTooShort)
    else None
  }

  /** A password of exactly six characters passes both checks when confirmed. */
  lemma SixCharactersAccepted(password: string)
    requires |password| == 6
    ensures PasswordProblem(password, password) == None
  {
  }

  /** `error.message || "An unexpected error occurred"`. */
  function CaughtMessage(message: string): (m: string)
    ensures m != ""
    ensures message != "" ==> m == message
  {
    if message != "" then message else Unexpected
  }

  /** How a remote call ends: an error result, success, or an exception. */
  datatype Remote = Failed(message: string) | Succeeded | Threw(thrown: string)
}
