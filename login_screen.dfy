/**
 * The sign-in form: two text inputs, an in-flight flag and one error line.
 * Submitting calls the session's login only when both inputs are non-empty.
 */
module LoginScreen {
  import opened Common
  import opened AuthService
  import opened AuthContext

  const FillAllFields := "Please fill in all fields"
  const LoginFallback := "An error occurred during login"

  /** The one check of `handleLogin`: both inputs non-empty, nothing trimmed. */
  function ValidateLogin(email: string, password: string): (r: Option<string>)
    ensures r == None <==> email != "" && password != ""
    ensures r != None ==> r == Some(FillAllFields)
  {
    if email == "" || password == "" then Some(FillAllFields) else None
  }

  datatype Input = Email | Password

  class LoginForm {
    var email: string
    var password: string
    var isLoading: bool
    var error: Option<string>

    constructor ()
      ensures email == "" && password == "" && !isLoading && error == None
    {
      email := "";
      password := "";
      isLoading := false;
      error := None;
    }

    /** An input's `onChangeText`: store the text and clear the error line. */
    method OnChangeText(input: Input, text: string)
      modifies this
      ensures input == Email ==> email == text && password == old(password)
      ensures input == Password ==> password == text && email == old(email)
      ensures error == None && isLoading == old(isLoading)
    {
      match input {
        case Email => email := text;
        case Password => password := text;
      }
      error := None;
    }

    /**
     * `handleLogin`: empty inputs show the fill-in message and leave the
     * session alone; otherwise the session signs in, and a failure shows the
     * service's message, never the fallback text, since every service
     * failure carries a non-empty message.
     */
    method HandleLogin(session: Session, signIn: (string, string) -> Result<User, ProviderError>)
      returns (submitted: bool)
      modifies this, session
      ensures email == old(email) && password == old(password)
      ensures session.loading == old(session.loading)
      ensures submitted <==> ValidateLogin(email, password) == None
      ensures submitted ==> !isLoading
      ensures !submitted ==>
                isLoading == old(isLoading) && error == Some(FillAllFields) && session.user == old(session.user)
      ensures submitted && AuthService.Login(email, password, signIn).Success? ==>
                error == None && session.user == Some(AuthService.Login(email, password, signIn).value)
      ensures submitted && AuthService.Login(email, password, signIn).Failure? ==>
                error == Some(AuthService.Login(email, password, signIn).error.message)
                && session.user == old(session.user)
    {
      error := None;
      var check := ValidateLogin(email, password);
      if check.Some? {
        error := check;
        submitted := false;
        return;
      }
      submitted := true;
      isLoading := true;
      var outcome := session.Login(email, password, signIn);
      if outcome.Failure? {
        error := Some(OrElse(outcome.error.message, LoginFallback));
      }
      isLoading := false;
    }
  }
}
