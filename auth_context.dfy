/**
 * The process-wide session state: the current user and a loading flag,
 * overwritten by the provider's auth-state notifications and by the outcomes
 * of login, register and logout. Children render only once loading is over.
 */
module AuthContext {
  import opened Common
  import opened AuthService

  const MissingAuthProvider := "useAuth must be used within an AuthProvider"

  /** `useAuth`: the provider's value, or an error outside any provider. */
  function UseAuth<T>(context: Option<T>): (r: Result<T, string>)
    ensures context.Some? ==> r == Success(context.value)
    ensures context.None? ==> r == Failure(MissingAuthProvider)
  {
    match context
    case Some(c) => Success(c)
    case None => Failure(MissingAuthProvider)
  }

  class Session {
    var user: Option<User>
    var loading: bool

    /** The provider mounts with no user, loading. */
    constructor ()
      ensures user == None && loading
    {
      user := None;
      loading := true;
    }

    /** The auth-state listener: every notification sets the user and ends loading. */
    method OnAuthStateChanged(notified: Option<User>)
      modifies this
      ensures user == notified && !loading
    {
      user := notified;
      loading := false;
    }

    /** `login`: the signed-in user on success; on failure the user is kept and the error re-thrown. */
    method Login(email: string, password: string,
                 signIn: (string, string) -> Result<User, ProviderError>) returns (r: Result<(), AuthError>)
      modifies this
      ensures loading == old(loading)
      ensures AuthService.Login(email, password, signIn).Success? ==>
                r.Success? && user == Some(AuthService.Login(email, password, signIn).value)
      ensures AuthService.Login(email, password, signIn).Failure? ==>
                r == Failure(AuthService.Login(email, password, signIn).error) && user == old(user)
    {
      var outcome := AuthService.Login(email, password, signIn);
      match outcome
      case Success(u) =>
        user := Some(u);
        r := Success(());
      case Failure(e) =>
        r := Failure(e);
    }

    /** `register`: like `login`, through the registration call. */
    method Register(email: string, password: string,
                    createUser: (string, string) -> Result<User, ProviderError>) returns (r: Result<(), AuthError>)
      modifies this
      ensures loading == old(loading)
      ensures AuthService.Register(email, password, createUser).Success? ==>
                r.Success? && user == Some(AuthService.Register(email, password, createUser).value)
      ensures AuthService.Register(email, password, createUser).Failure? ==>
                r == Failure(AuthService.Register(email, password, createUser).error) && user == old(user)
    {
      var outcome := AuthService.Register(email, password, createUser);
      match outcome
      case Success(u) =>
        user := Some(u);
        r := Success(());
      case Failure(e) =>
        r := Failure(e);
    }

    /** `logout`: no user on success; on failure the user is kept and the error re-thrown. */
    method Logout(signOut: Result<(), ProviderError>) returns (r: Result<(), AuthError>)
      modifies this
      ensures loading == old(loading)
      ensures r == AuthService.Logout(signOut)
      ensures r.Success? ==> user == None
      ensures r.Failure? ==> user == old(user)
    {
      r := AuthService.Logout(signOut);
      if r.Success? {
        user := None;
      }
    }

    /** `resetPassword`: forwards the outcome and touches no state. */
    method ResetPassword(email: string, sendReset: string -> Result<(), ProviderError>) returns (r: Result<(), AuthError>)
      ensures r == AuthService.ResetPassword(email, sendReset)
    {
      r := AuthService.ResetPassword(email, sendReset);
    }

    /** `{!loading && children}`. */
    function RendersChildren(): (shown: bool)
      reads this
      ensures shown <==> !loading
    {
      !loading
    }
  }
}
