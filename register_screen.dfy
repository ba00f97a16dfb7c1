/**
 * The registration form: three text inputs, an in-flight flag and one error
 * line. Submitting checks the inputs in a fixed order and calls the
 * session's registration only when every check passes.
 */
module RegisterScreen {
  import opened Common
  import opened AuthService
  import opened AuthContext

  const FillAllFields := "Please fill in all fields"
  const PasswordsDiffer := "Passwords do not match"
  const PasswordTooShort := "Password must be at least 6 characters long"
  const RegistrationFallback := "An error occurred during registration"
  const MinPasswordLength := 6

  /**
   * The checks of `handleRegister`, first failing one wins: an empty input,
   * then a confirmation that differs, then a password shorter than six
   * characters. Nothing is trimmed.
   */
  function ValidateRegistration(email: string, password: string, confirm: string): (r: Option<string>)
    ensures r == None <==> email != "" && password == confirm && |password| >= MinPasswordLength
    ensures email == "" || password == "" || confirm == "" ==> r == Some(FillAllFields)
    ensures r == Some(PasswordsDiffer) <==> email != "" && password != "" && confirm != "" && password != confirm
    ensures r == Some(PasswordTooShort) <==>
              email != "" && password != "" && password == confirm && |password| < MinPasswordLength
  {
    if email == "" || password == "" || confirm == "" then Some(FillAllFields)
    else if password != confirm then Some(PasswordsDiffer)
    else if |password| < MinPasswordLength then Some(PasswordTooShort)
    else None
  }

  /** The mismatch is reported even when the password is also too short. */
  lemma MismatchBeforeLength(email: string, password: string, confirm: string)
    requires email != "" && password != "" && confirm != "" && password != confirm
    requires |password| < MinPasswordLength
    ensures ValidateRegistration(email, password, confirm) == Some(PasswordsDiffer)
  {
  }

  /** Six spaces pass the form's checks: the password is not trimmed. */
  lemma BlankPasswordAccepted(email: string)
    requires email != ""
    ensures ValidateRegistration(email, "      ", "      ") == None
  {
  }

  datatype Input = Email | Password | ConfirmPassword

  class RegisterForm {
    var email: string
    var password: string
    var confirmPassword: string
    var isLoading: bool
    var error: Option<string>

    constructor ()
      ensures email == "" && password == "" && confirmPassword == ""
      ensures !isLoading && error == None
    {
      email := "";
      password := "";
      confirmPassword := "";
      isLoading := false;
      error := None;
    }

    /** An input's `onChangeText`: store the text and clear the error line. */
    method OnChangeText(input: Input, text: string)
      modifies this
      ensures input == Email ==> email == text
      ensures input != Email ==> email == old(email)
      ensures input == Password ==> password == text
      ensures input != Password ==> password == old(password)
      ensures input == ConfirmPassword ==> confirmPassword == text
      ensures input != ConfirmPassword ==> confirmPassword == old(confirmPassword)
      ensures error == None && isLoading == old(isLoading)
    {
      match input {
        case Email => email := text;
        case Password => password := text;
        case ConfirmPassword => confirmPassword := text;
      }
      error := None;
    }

    /**
     * `handleRegister`: a failed check shows its message and leaves the
     * session alone; otherwise the session registers, and a failure shows
     * the service's message. The fallback text never shows, because every
     * service failure carries a non-empty message.
     */
    method HandleRegister(session: Session, createUser: (string, string) -> Result<User, ProviderError>)
      returns (submitted: bool)
      modifies this, session
      ensures email == old(email) && password == old(password) && confirmPassword == old(confirmPassword)
      ensures session.loading == old(session.loading)
      ensures submitted <==> ValidateRegistration(email, password, confirmPassword) == None
      ensures submitted ==> !isLoading
      ensures !submitted ==> isLoading == old(isLoading)
      ensures !submitted ==>
                error == ValidateRegistration(email, password, confirmPassword) && session.user == old(session.user)
      ensures submitted && AuthService.Register(email, password, createUser).Success? ==>
                error == None && session.user == Some(AuthService.Register(email, password, createUser).value)
      ensures submitted && AuthService.Register(email, password, createUser).Failure? ==>
                error == Some(AuthService.Register(email, password, createUser).error.message)
      ensures submitted && AuthService.Register(email, password, createUser).Failure? ==> session.user == old(session.user)
    {
      error := None;
      var check := ValidateRegistration(email, password, confirmPassword);
      if check.Some? {
        error := check;
        submitted := false;
        return;
      }
      submitted := true;
      isLoading := true;
      var outcome := session.Register(email, password, createUser);
      if outcome.Failure? {
        error := Some(OrElse(outcome.error.message, RegistrationFallback));
      }
      isLoading := false;
    }
  }
}
