/**
 * The authentication facade: four operations that each wrap one call to the
 * remote auth provider and normalise whatever the provider rejects with into
 * an `AuthError { code, message }`.
 *
 * The provider is an oracle: each operation receives the provider call's
 * outcome (or a function from the call's arguments to it).
 */
module AuthService {
  import opened Common

  /** The provider's principal: a unique identifier and an e-mail address. */
  datatype User = User(uid: string, email: string)

  /**
   * What a rejected provider call throws: an object carrying a `code`
   * (its `message` is "" when absent), or any value without a `code`.
   */
  datatype ProviderError = Coded(code: string, message: string) | Uncoded

  /** The normalised error every operation rejects with. */
  datatype AuthError = AuthError(code: string, message: string)

  const UnknownCode := "auth/unknown"
  const UnknownMessage := "An unknown error occurred"

  /** The fixed code -> message table. Codes outside it keep the provider's message. */
  const ErrorMessages: map<string, string> := map[
    "auth/email-already-in-use" := "This email is already registered.",
    "auth/invalid-email" := "The email address is not valid.",
    "auth/operation-not-allowed" :=
      "Email/password accounts are not enabled. Please enable them in the Firebase Console.",
    "auth/weak-password" := "The password is too weak.",
    "auth/configuration-not-found" :=
      "Authentication configuration is missing. Please check Firebase Console settings.",
    "auth/network-request-failed" := "Network error. Please check your connection."
  ]

  /** `errorMap[code]`, with a miss read as the falsy "". */
  function TableMessage(code: string): (m: string)
    ensures code in ErrorMessages ==> m == ErrorMessages[code] && m != ""
    ensures code !in ErrorMessages ==> m == ""
  {
    if code in ErrorMessages then ErrorMessages[code] else ""
  }

  /**
   * `handleError`: the code is kept, the message comes from the table, else
   * from the provider, else the generic unknown message. Total, never empty.
   */
  function HandleError(code: string, providerMessage: string): (e: AuthError)
    ensures e.code == code
    ensures e.message != ""
    ensures code in ErrorMessages ==> e.message == ErrorMessages[code]
    ensures code !in ErrorMessages && providerMessage != "" ==> e.message == providerMessage
    ensures code !in ErrorMessages && providerMessage == "" ==> e.message == UnknownMessage
  {
    AuthError(code, OrElse(OrElse(TableMessage(code), providerMessage), UnknownMessage))
  }

  /** The catch block shared by all four operations. */
  function Classify(thrown: ProviderError): (e: AuthError)
    ensures thrown.Uncoded? ==> e == AuthError(UnknownCode, UnknownMessage)
    ensures thrown.Coded? ==> e.code == thrown.code
    ensures e.message != ""
  {
    match thrown
    case Coded(code, message) => HandleError(code, message)
    case Uncoded => AuthError(UnknownCode, UnknownMessage)
  }

  /** try { return await call } catch (error) { throw classify(error) } */
  function Normalise<T>(outcome: Result<T, ProviderError>): (r: Result<T, AuthError>)
    ensures outcome.Success? <==> r.Success?
    ensures outcome.Success? ==> r.value == outcome.value
    ensures outcome.Failure? ==> r.error == Classify(outcome.error)
  {
    match outcome
    case Success(v) => Success(v)
    case Failure(thrown) => Failure(Classify(thrown))
  }

  function Register(email: string, password: string,
                    createUser: (string, string) -> Result<User, ProviderError>): (r: Result<User, AuthError>)
    ensures createUser(email, password).Success? ==> r == Success(createUser(email, password).value)
    ensures createUser(email, password).Failure? ==> r.Failure? && r.error.message != ""
    ensures createUser(email, password).Failure? ==> r.error == Classify(createUser(email, password).error)
    ensures createUser(email, password) == Failure(Uncoded) ==> r == Failure(AuthError(UnknownCode, UnknownMessage))
  {
    Normalise(createUser(email, password))
  }

  function Login(email: string, password: string,
                 signIn: (string, string) -> Result<User, ProviderError>): (r: Result<User, AuthError>)
    ensures signIn(email, password).Success? ==> r == Success(signIn(email, password).value)
    ensures signIn(email, password).Failure? ==> r.Failure? && r.error.message != ""
    ensures signIn(email, password).Failure? ==> r.error == Classify(signIn(email, password).error)
    ensures signIn(email, password) == Failure(Uncoded) ==> r == Failure(AuthError(UnknownCode, UnknownMessage))
  {
    Normalise(signIn(email, password))
  }

  function Logout(signOut: Result<(), ProviderError>): (r: Result<(), AuthError>)
    ensures signOut.Success? <==> r.Success?
    ensures signOut.Failure? ==> r.Failure? && r.error.message != ""
    ensures signOut.Failure? ==> r.error == Classify(signOut.error)
    ensures signOut == Failure(Uncoded) ==> r == Failure(AuthError(UnknownCode, UnknownMessage))
  {
    Normalise(signOut)
  }

  function ResetPassword(email: string, sendReset: string -> Result<(), ProviderError>): (r: Result<(), AuthError>)
    ensures sendReset(email).Success? <==> r.Success?
    ensures sendReset(email).Failure? ==> r.Failure? && r.error.message != ""
    ensures sendReset(email).Failure? ==> r.error == Classify(sendReset(email).error)
    ensures sendReset(email) == Failure(Uncoded) ==> r == Failure(AuthError(UnknownCode, UnknownMessage))
  {
    Normalise(sendReset(email))
  }

  /** Each of the six table codes yields its fixed message, whatever the provider said. */
  lemma TableCodesMessages(providerMessage: string)
    ensures HandleError("auth/email-already-in-use", providerMessage).message == "This email is already registered."
    ensures HandleError("auth/invalid-email", providerMessage).message == "The email address is not valid."
    ensures HandleError("auth/operation-not-allowed", providerMessage).message
            == "Email/password accounts are not enabled. Please enable them in the Firebase Console."
    ensures HandleError("auth/weak-password", providerMessage).message == "The password is too weak."
    ensures HandleError("auth/configuration-not-found", providerMessage).message
            == "Authentication configuration is missing. Please check Firebase Console settings."
    ensures HandleError("auth/network-request-failed", providerMessage).message
            == "Network error. Please check your connection."
  {
  }

  /** Codes the table lacks, such as user-not-found and wrong-password, pass the provider's message through. */
  lemma UntabledCodesKeepProviderMessage(providerMessage: string)
    requires providerMessage != ""
    ensures HandleError("auth/user-not-found", providerMessage) == AuthError("auth/user-not-found", providerMessage)
    ensures HandleError("auth/wrong-password", providerMessage) == AuthError("auth/wrong-password", providerMessage)
    ensures HandleError("auth/user-disabled", providerMessage) == AuthError("auth/user-disabled", providerMessage)
  {
    assert "auth/user-not-found" !in ErrorMessages;
    assert "auth/wrong-password" !in ErrorMessages;
    assert "auth/user-disabled" !in ErrorMessages;
  }
}
