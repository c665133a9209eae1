/**
 * The password reset screen (app/auth/reset-password.tsx): a session check on opening, then
 * the same password checks as registration before the new password is sent.
 */
module ResetPassword {
  import opened Wrappers
  import opened AuthErrors

  const FillInAll: string := "Please fill in all fields"
  const InvalidLink: string := "Invalid or expired reset link. Please request a new password reset."

  /** The validation chain of `handleResetPassword`. */
  function Validate(password: string, confirmPassword: string): (r: Option<string>)
    ensures r == Some(FillInAll) <==> password == "" || confirmPassword == ""
    ensures password != "" && confirmPassword != "" ==> r == PasswordProblem(password, confirmPassword)
    ensures r == None <==> password == confirmPassword && |password| >= MinPasswordLength
  {
    if password == "" || confirmPassword == "" then Some(FillInAll)
    else PasswordProblem(password, confirmPassword)
  }

  /** Here an empty confirmation is a missing field, unlike on the registration screen. */
  lemma EmptyConfirmIsMissing(password: string)
    ensures Validate(password, "") == Some(FillInAll)
  {
  }

  /** The screen's state. */
  class Screen {
    var password: string
    var confirmPassword: string
    var isLoading: bool
    var errorMessage: Option<string>
    var isSuccess: bool

    constructor ()
      ensures password == "" && confirmPassword == ""
      ensures !isLoading && errorMessage == None && !isSuccess
    {
      password, confirmPassword := "", "";
      isLoading, errorMessage, isSuccess := false, None, false;
    }

    /** The effect on opening: without a session (or on an error) the link is refused. */
    method CheckSession(hasSession: bool)
      modifies this`errorMessage
      ensures errorMessage == if hasSession then old(errorMessage) else Some(InvalidLink)
    {
      if !hasSession {
        errorMessage := Some(InvalidLink);
      }
    }

    /**
     * `handleResetPassword`, with the outcome of `updateUser` as input. It returns the new
     * password when it was sent.
     */
    method HandleResetPassword(update: Remote) returns (sent: Option<string>)
      modifies this`isLoading, this`errorMessage, this`isSuccess
      ensures var invalid := Validate(password, confirmPassword);
        && (invalid.Some? ==>
              errorMessage == invalid && sent.None?
              && isLoading == old(isLoading) && isSuccess == old(isSuccess))
        && (invalid.None? ==> sent == Some(password) && !isLoading)
      ensures isSuccess != old(isSuccess) ==> sent.Some? && update.Succeeded?
      ensures sent.Some? && update.Succeeded? ==> isSuccess && errorMessage == None
      ensures sent.Some? && update.Failed? ==> errorMessage == Some(update.message)
      ensures sent.Some? && update.Threw? ==> errorMessage == Some(CaughtMessage(update.thrown))
    {
      sent := None;
      var invalid := Validate(password, confirmPassword);
      if invalid.Some? {
        errorMessage := invalid;
        return;
      }
      isLoading := true;
      errorMessage := None;
      sent := Some(password);
      match update {
        case Failed(message) =>
          errorMessage := Some(message);
        case Threw(thrown) =>
          errorMessage := Some(CaughtMessage(thrown));
        case Succeeded =>
          isSuccess := true;
      }
      isLoading := false;
    }
  }
}
