/**
 * The navigation gate: nothing while the session is loading, then the
 * authenticated or the unauthenticated screen set.
 */
module AppNavigator {
  import opened Common
  import opened AuthService

  datatype Screen = Login | Register | ForgotPassword | Home | StoryGenerator

  const AuthenticatedScreens: set<Screen> := {Home, StoryGenerator}
  const UnauthenticatedScreens: set<Screen> := {Login, Register, ForgotPassword}

  /** The screens rendered for a session state; None renders nothing. */
  function ScreenSet(loading: bool, user: Option<User>): (shown: Option<set<Screen>>)
    ensures loading <==> shown.None?
    ensures !loading && user.Some? ==> shown == Some({Home, StoryGenerator})
    ensures !loading && user.None? ==> shown == Some({Login, Register, ForgotPassword})
  {
    if loading then None
    else if user.Some? then Some(AuthenticatedScreens)
    else Some(UnauthenticatedScreens)
  }

  /** No screen belongs to both sets, and together they are every navigator screen. */
  lemma ScreenSetsPartition()
    ensures AuthenticatedScreens !! UnauthenticatedScreens
    ensures forall s: Screen :: s in AuthenticatedScreens || s in UnauthenticatedScreens
  {
    forall s: Screen
      ensures s in AuthenticatedScreens || s in UnauthenticatedScreens
    {
      match s
      case Home =>
      case StoryGenerator =>
      case Login =>
      case Register =>
      case ForgotPassword =>
    }
  }

  /** Which user is signed in does not matter, only whether one is. */
  lemma ScreenSetDependsOnPresenceOnly(loading: bool, u1: Option<User>, u2: Option<User>)
    requires u1.Some? == u2.Some?
    ensures ScreenSet(loading, u1) == ScreenSet(loading, u2)
  {
  }

  /** A signed-in user never sees the sign-in screens, and a signed-out one never sees Home. */
  lemma SignedInNeverSeesLogin(user: Option<User>)
    ensures user.Some? ==> Login !in ScreenSet(false, user).value && Home in ScreenSet(false, user).value
    ensures user.None? ==> Home !in ScreenSet(false, user).value && Login in ScreenSet(false, user).value
  {
  }
}
