/**
 * The `useApiError` hook: runs one API call, keeps the `error` and `loading`
 * state of the screen that uses it, and treats an authentication failure as
 * a forced sign-out rather than as an error to show.
 */
module UseApiError {
  import opened Wrappers
  import opened Text
  import opened Api
  import opened AuthContext

  const SessionExpiredMarker: string := "Сессия истекла"
  const StatusMarker: string := "401"
  const UnauthorizedMarker: string := "Unauthorized"
  const UnknownError: string := "Произошла неизвестная ошибка"
  /** Stands for the engine's `TypeError` message when `.includes` is read from `undefined`. */
  const NoMessageTypeError: string := "Cannot read properties of undefined (reading 'includes')"

  /** What an API call can throw: an `Error` with its message, or a bare string. */
  datatype Thrown = ErrorObject(message: string) | ThrownString(text: string)

  /** How `handleApiCall` ends: it returns the result, returns `undefined`, or throws. */
  datatype CallResult<T> = Returned(value: T) | ReturnedUndefined | Threw(err: Thrown)

  /** The message marks an authentication failure. */
  predicate AuthLike(m: string) {
    Includes(m, SessionExpiredMarker) || Includes(m, StatusMarker) || Includes(m, UnauthorizedMarker)
  }

  /** The client's own 401 message is recognised as an authentication failure. */
  lemma SessionExpiredIsAuthLike()
    ensures AuthLike(SessionExpired)
  {
    assert SessionExpired[..|SessionExpiredMarker|] == SessionExpiredMarker;
    assert OccursAt(SessionExpired, SessionExpiredMarker, 0);
  }

  /** The text set as `error`: the message when it is truthy, otherwise the generic one. */
  function ShownMessage(m: string): (shown: string)
    ensures shown != ""
    ensures m != "" ==> shown == m
    ensures m == "" ==> shown == UnknownError
  {
    if m != "" then m else UnknownError
  }

  /** The error shown after `err` was caught, if it is shown at all. */
  function ShownError(err: Thrown): (shown: Option<string>)
    ensures shown.Some? <==> err.ErrorObject? && !AuthLike(err.message)
    ensures shown.Some? ==> shown.value == ShownMessage(err.message)
  {
    match err
    case ErrorObject(m) => if AuthLike(m) then None else Some(ShownMessage(m))
    case ThrownString(_) => None
  }

  /**
   * How the call ends. A result is returned; an auth-like error ends with
   * `undefined`; any other error is rethrown. A thrown string has no
   * `message`, so reading `.includes` from it throws a `TypeError` instead.
   */
  function Ending<T>(outcome: Result<T, Thrown>): CallResult<T> {
    match outcome
    case Success(v) => Returned(v)
    case Failure(ErrorObject(m)) => if AuthLike(m) then ReturnedUndefined else Threw(ErrorObject(m))
    case Failure(ThrownString(_)) => Threw(ErrorObject(NoMessageTypeError))
  }

  /** Nothing is shown and nothing is thrown exactly when the error is auth-like; every other error propagates. */
  lemma EndingCases<T>(outcome: Result<T, Thrown>)
    ensures Ending(outcome).ReturnedUndefined? <==> outcome.Failure? && outcome.error.ErrorObject? && AuthLike(outcome.error.message)
    ensures Ending(outcome).Returned? <==> outcome.Success?
    ensures outcome.Failure? && outcome.error.ErrorObject? && !AuthLike(outcome.error.message) ==>
      Ending(outcome) == Threw(outcome.error)
    ensures Ending(outcome).Threw? ==> ShownError(outcome.error).Some? || outcome.error.ThrownString?
  {
  }

  /** A session expiry during the call signs out silently. */
  lemma SessionExpiryIsSilent<T>(outcome: Result<T, Thrown>)
    requires outcome == Failure(ErrorObject(SessionExpired))
    ensures Ending(outcome) == ReturnedUndefined
    ensures ShownError(ErrorObject(SessionExpired)) == None
  {
    SessionExpiredIsAuthLike();
  }

  class ApiErrorState {
    const auth: AuthProvider
    var error: Option<string>
    var loading: bool

    constructor (auth: AuthProvider)
      ensures this.auth == auth && error == None && !loading
    {
      this.auth := auth;
      error := None;
      loading := false;
    }

    /**
     * `handleApiCall(apiCall, options)` for the outcome the call produced.
     * `onSuccess`/`onError` are reported as the argument they would receive.
     * `loading` is raised for the call and lowered on every exit when
     * `showLoading`; `error` is cleared at the start when
     * `clearErrorOnStart`, and set only for an error that is shown. An
     * auth-like error runs the context's `logout`; nothing else touches the
     * session.
     */
    method HandleApiCall<T>(outcome: Result<T, Thrown>, showLoading: bool, clearErrorOnStart: bool,
                            hasOnSuccess: bool, hasOnError: bool)
      returns (r: CallResult<T>, successArg: Option<T>, errorArg: Option<Thrown>)
      modifies this, auth, auth.api, auth.api.storage
      ensures r == Ending(outcome)
      ensures loading == if showLoading then false else old(loading)
      ensures error ==
        if outcome.Failure? && ShownError(outcome.error).Some? then ShownError(outcome.error)
        else if clearErrorOnStart then None else old(error)
      ensures successArg == if hasOnSuccess && outcome.Success? then Some(outcome.value) else None
      ensures errorArg == if hasOnError && outcome.Failure? && ShownError(outcome.error).Some? then Some(outcome.error) else None
      ensures r.ReturnedUndefined? ==>
        auth.SignedOut() && auth.api.storage.items == old(auth.api.storage.items) - {AuthTokenKey, UserKey}
      ensures !r.ReturnedUndefined? ==>
        && auth.user == old(auth.user) && auth.isAuthenticated == old(auth.isAuthenticated)
        && auth.api.token == old(auth.api.token) && auth.api.storage.items == old(auth.api.storage.items)
      ensures auth.loading == old(auth.loading)
    {
      if showLoading {
        loading := true;
      }
      if clearErrorOnStart {
        error := None;
      }
      successArg, errorArg := None, None;
      match outcome {
        case Success(v) =>
          if hasOnSuccess {
            successArg := Some(v);
          }
          r := Returned(v);
        case Failure(err) =>
          if err.ThrownString? {
            r := Threw(ErrorObject(NoMessageTypeError));
          } else if AuthLike(err.message) {
            auth.Logout();
            r := ReturnedUndefined;
          } else {
            error := Some(ShownMessage(err.message));
            if hasOnError {
              errorArg := Some(err);
            }
            r := Threw(err);
          }
      }
      if showLoading {
        loading := false;
      }
    }

    /** `clearError()`: `error` becomes null and nothing else changes. */
    method ClearError()
      modifies this
      ensures error == None && loading == old(loading)
    {
      error := None;
    }
  }
}
