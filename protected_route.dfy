/**
 * `ProtectedRoute`: what the gate in front of the administration screens
 * shows for the context's (`loading`, `isAuthenticated`). The sign-in screen
 * it shows is given the context's `login` as its callback.
 */
module ProtectedRoute {

  datatype Screen =
    | Spinner      // a check or a login is still running
    | SignIn       // `LoginForm`, whose `onLoginSuccess` is the context's `login`
    | Children     // the protected screens

  function Gate(loading: bool, isAuthenticated: bool): (s: Screen)
    ensures loading ==> s == Spinner
    ensures !loading && !isAuthenticated ==> s == SignIn
    ensures !loading && isAuthenticated ==> s == Children
  {
    if loading then Spinner
    else if !isAuthenticated then SignIn
    else Children
  }

  /**
   * Each screen appears for exactly one region of the inputs: the spinner
   * whatever `isAuthenticated` says while loading, the protected screens only
   * for a settled, authenticated session.
   */
  lemma GateCases(loading: bool, isAuthenticated: bool)
    ensures Gate(loading, isAuthenticated) == SignIn <==> !loading && !isAuthenticated
    ensures Gate(loading, isAuthenticated) == Children <==> !loading && isAuthenticated
    ensures Gate(loading, isAuthenticated) == Spinner <==> loading
  {
  }
}
