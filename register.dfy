/**
 * The registration screen (app/auth/register.tsx): three checks on the fields, then a
 * sign-up request and a profile row, in both of which an empty department becomes null.
 */
module Register {
  import opened Wrappers
  import opened AuthErrors

  const FillInRequired: string := "Please fill in all required fields"

  /** The roles and departments the pickers offer. */
  const Roles: seq<string> := ["Administrator", "Medical Staff", "Reception"]
  const Departments: seq<string> :=
    ["Emergency", "ICU", "Cardiology", "General Medicine", "Neurology", "Pediatrics", "Orthopedics",
     "Obstetrics & Gynecology", "Oncology"]

  /** The validation chain of `handleRegister`: the message it sets, or none when it goes on. */
  function Validate(email: string, password: string, confirmPassword: string, name: string): (r: Option<string>)
    ensures r == Some(FillInRequired) <==> email == "" || password == "" || name == ""
    ensures email != "" && password != "" && name != "" ==> r == PasswordProblem(password, confirmPassword)
    ensures r == None <==>
      email != "" && name != "" && password == confirmPassword && |password| >= MinPasswordLength
  {
    if email == "" || password == "" || name == "" then Some(FillInRequired)
    else PasswordProblem(password, confirmPassword)
  }

  /** A filled-in form with an empty confirmation is a mismatch, not a missing field. */
  lemma EmptyConfirmIsMismatch(email: string, password: string, name: string)
    requires email != "" && password != "" && name != ""
    ensures Validate(email, password, "", name) == Some(PasswordsDoNotMatch)
  {
  }

  /** The missing-field check comes first: with an empty name nothing else is reported. */
  lemma MissingFieldFirst(email: string, password: string, confirmPassword: string)
    ensures Validate(email, password, confirmPassword, "") == Some(FillInRequired)
  {
  }

  /** `department || null`. */
  function OrNull(department: string): (d: Option<string>)
    ensures d == None <==> department == ""
    ensures d.Some? ==> d.value == department
  {
    if department == "" then None else Some(department)
  }

  /** The sign-up call: credentials and the user metadata. */
  datatype SignUp = SignUp(email: string, password: string, name: string, role: string, department: Option<string>)

  /** The `profiles` row inserted for the new user. */
  datatype ProfileRow = ProfileRow(id: string, email: string, name: string, role: string, department: Option<string>)

  /** How `signUp` ends: an error, a result with or without a user id, or an exception. */
  datatype SignUpResult = SignUpFailed(message: string) | SignedUp(userId: Option<string>) | SignUpThrew(thrown: string)

  /** The screen's state. */
  class Screen {
    var email: string
    var password: string
    var confirmPassword: string
    var name: string
    var role: string
    var department: string
    var isLoading: bool
    var errorMessage: Option<string>

    constructor ()
      ensures email == "" && password == "" && confirmPassword == "" && name == ""
      ensures role == "Medical Staff" && department == ""
      ensures !isLoading && errorMessage == None
    {
      email, password, confirmPassword, name := "", "", "", "";
      role, department := "Medical Staff", "";
      isLoading, errorMessage := false, None;
    }

    /**
     * `handleRegister`, with the outcomes of the two remote calls as inputs. It returns the
     * sign-up request, the profile row and the route replaced on success, each when made.
     */
    method HandleRegister(signUpResult: SignUpResult, insert: Remote)
      returns (request: Option<SignUp>, row: Option<ProfileRow>, redirect: Option<string>)
      modifies this`isLoading, this`errorMessage
      ensures var invalid := Validate(email, password, confirmPassword, name);
        && (invalid.Some? ==>
              errorMessage == invalid && isLoading == old(isLoading)
              && request.None? && row.None? && redirect.None?)
        && (invalid.None? ==>
              request == Some(SignUp(email, password, name, role, OrNull(department))) && !isLoading)
      ensures row.Some? ==>
        signUpResult.SignedUp? && signUpResult.userId.Some?
        && row.value == ProfileRow(signUpResult.userId.value, email, name, role, OrNull(department))
      ensures request.Some? && signUpResult.SignedUp? && signUpResult.userId.Some? ==> row.Some?
      ensures request.Some? && signUpResult.SignedUp? && signUpResult.userId.None? ==>
        errorMessage == None && row.None?
      ensures redirect.Some? <==> request.Some? && row.Some? && insert.Succeeded?
      ensures redirect.Some? ==> redirect.value == "/auth/login" && errorMessage == None
      ensures request.Some? && signUpResult.SignUpFailed? ==> errorMessage == Some(signUpResult.message)
      ensures request.Some? && signUpResult.SignUpThrew? ==> errorMessage == Some(CaughtMessage(signUpResult.thrown))
      ensures row.Some? && insert.Failed? ==> errorMessage == Some(insert.message)
      ensures row.Some? && insert.Threw? ==> errorMessage == Some(CaughtMessage(insert.thrown))
    {
      request, row, redirect := None, None, None;
      var invalid := Validate(email, password, confirmPassword, name);
      if invalid.Some? {
        errorMessage := invalid;
        return;
      }
      isLoading := true;
      errorMessage := None;
      request := Some(SignUp(email, password, name, role, OrNull(department)));
      match signUpResult {
        case SignUpFailed(message) =>
          errorMessage := Some(message);
        case SignUpThrew(thrown) =>
          errorMessage := Some(CaughtMessage(thrown));
        case SignedUp(userId) =>
          if userId.Some? {
            row := Some(ProfileRow(userId.value, email, name, role, OrNull(department)));
            match insert {
              case Failed(message) =>
                errorMessage := Some(message);
              case Threw(thrown) =>
                errorMessage := Some(CaughtMessage(thrown));
              case Succeeded =>
                redirect := Some("/auth/login");
            }
          }
      }
      isLoading := false;
    }
  }
}
