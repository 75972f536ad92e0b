/**
 * The sign-in form (`LoginForm`): its two fields, the checks made before
 * submitting, the call to the context's `login`, the message shown when it
 * throws, and the server-status indicator fed by `healthCheck`.
 */
module LoginForm {
  import opened Wrappers
  import opened Text
  import opened Api
  import opened AuthContext
  import opened UseApiError
  import opened Records

  const IdentifierRequired: string := "Введите логин или email"
  const PasswordRequired: string := "Введите пароль"
  const PasswordTooShort: string := "Пароль должен содержать минимум 3 символа"
  const LoginFailed: string := "Произошла ошибка при входе"
  const MinPasswordLength: nat := 3

  /** The colours of `COLORS` the indicator uses. */
  const SuccessColor: string := "#4caf50"
  const ErrorColor: string := "#b00020"
  const WarningColor: string := "#ff9800"

  datatype Field = Identifier | Password

  /** `serverStatus`: `'checking'` until the health check answers. */
  datatype ServerStatus = Checking | Online | Offline

  /**
   * `validateForm()`: the message of the first check that fails (a blank
   * identifier, an empty password, a password shorter than three
   * characters), or none when the form may be submitted. The password's
   * `length` counts UTF-16 code units.
   */
  function Validate(identifier: string, password: string): (e: Option<string>)
    ensures e.None? <==> Trim(identifier) != "" && Length(password) >= MinPasswordLength
    ensures Trim(identifier) == "" ==> e == Some(IdentifierRequired)
    ensures Trim(identifier) != "" && password == "" ==> e == Some(PasswordRequired)
    ensures Trim(identifier) != "" && password != "" && Length(password) < MinPasswordLength ==> e == Some(PasswordTooShort)
  {
    if Trim(identifier) == "" then Some(IdentifierRequired)
    else if password == "" then Some(PasswordRequired)
    else if Length(password) < MinPasswordLength then Some(PasswordTooShort)
    else None
  }

  /**
   * The length check counts code units: two characters outside the Basic
   * Multilingual Plane make a long enough password, while two ordinary
   * characters do not.
   */
  lemma PasswordLengthInCodeUnits(identifier: string)
    requires Trim(identifier) != ""
    ensures Validate(identifier, "\U{1F600}\U{1F600}") == None
    ensures Validate(identifier, "ab") == Some(PasswordTooShort)
  {
    assert Utf16("\U{1F600}\U{1F600}") == CharUnits('\U{1F600}') + Utf16("\U{1F600}");
    assert Utf16("ab") == CharUnits('a') + Utf16("b");
  }

  /** An identifier made only of spaces is refused whatever the password. */
  lemma BlankIdentifierRefused(identifier: string, password: string)
    requires forall k :: 0 <= k < |identifier| ==> IsWhitespace(identifier[k])
    ensures Validate(identifier, password) == Some(IdentifierRequired)
  {
    BlankIffAllWhitespace(identifier);
  }

  /**
   * The message `handleSubmit` shows for what `login` threw: the error's
   * message when it is truthy, a thrown string as it is, otherwise the
   * generic one.
   */
  function SubmitErrorText(err: Thrown): (m: string)
    ensures err.ErrorObject? && err.message != "" ==> m == err.message
    ensures err.ErrorObject? && err.message == "" ==> m == LoginFailed
    ensures err.ThrownString? ==> m == err.text
  {
    match err
    case ErrorObject(message) => if message != "" then message else LoginFailed
    case ThrownString(text) => text
  }

  /** `getServerStatusColor()`. */
  function StatusColor(s: ServerStatus): (c: string)
    ensures c == SuccessColor <==> s == Online
    ensures c == ErrorColor <==> s == Offline
    ensures c == WarningColor <==> s == Checking
  {
    match s
    case Online => SuccessColor
    case Offline => ErrorColor
    case Checking => WarningColor
  }

  /** `getServerStatusText()`. */
  function StatusText(s: ServerStatus): (t: string)
    ensures s == Online ==> t == "Сервер доступен"
    ensures s == Offline ==> t == "Сервер недоступен"
    ensures s == Checking ==> t == "Проверка сервера..."
  {
    match s
    case Online => "Сервер доступен"
    case Offline => "Сервер недоступен"
    case Checking => "Проверка сервера..."
  }

  /** Each status has its own text and its own colour. */
  lemma StatusShownDistinctly(s: ServerStatus, t: ServerStatus)
    requires s != t
    ensures StatusText(s) != StatusText(t) && StatusColor(s) != StatusColor(t)
  {
    assert StatusText(s)[7] != StatusText(t)[7] || |StatusText(s)| != |StatusText(t)|;
  }

  /** The wrong-password reply of the backend is shown as the Russian message. */
  lemma WrongPasswordShown(status: int, me: Exchange<Option<User>>)
    requires status != 401 && !IsOk(status)
    ensures var x := Received(HttpResponse(status, None,
      Some(ErrorPayload(Some(ErrorDetail(Some(InvalidCredentials), None)), None, None))));
      AfterClientLogin(LoginResult(x), me) == Failure(InvalidCredentialsRu)
      && SubmitErrorText(ErrorObject(InvalidCredentialsRu)) == InvalidCredentialsRu
  {
    WrongPasswordMessage(status);
  }

  class LoginFormState {
    const auth: AuthProvider
    var identifier: string
    var password: string
    var loading: bool
    var error: Option<string>
    var serverStatus: ServerStatus

    /** The first render: empty fields, no error, not submitting, status being checked. */
    constructor (auth: AuthProvider)
      ensures this.auth == auth
      ensures identifier == "" && password == "" && !loading && error == None && serverStatus == Checking
    {
      this.auth := auth;
      identifier, password := "", "";
      loading := false;
      error := None;
      serverStatus := Checking;
    }

    /** `checkServerHealth()`: online exactly when the health check saw a 2xx response. */
    method CheckServerHealth(health: Exchange<()>)
      modifies this
      ensures serverStatus == (if HealthCheck(health) then Online else Offline)
      ensures serverStatus == Online <==> health.Received? && IsOk(health.response.status)
      ensures identifier == old(identifier) && password == old(password) && loading == old(loading) && error == old(error)
    {
      serverStatus := if HealthCheck(health) then Online else Offline;
    }

    /**
     * Whether the fields and the submit button accept input: not while a
     * sign-in runs, and not while the server is known to be offline.
     */
    predicate Enabled()
      reads this
    {
      !loading && serverStatus != Offline
    }

    /**
     * `handleChange(e)`: the named field takes the value, and a shown error
     * is cleared. Only an enabled field can be edited.
     */
    method HandleChange(field: Field, value: string)
      requires Enabled()
      modifies this
      ensures identifier == (if field == Identifier then value else old(identifier))
      ensures password == (if field == Password then value else old(password))
      ensures error == (if TruthyField(old(error)) then None else old(error))
      ensures loading == old(loading) && serverStatus == old(serverStatus)
    {
      if field == Identifier {
        identifier := value;
      } else {
        password := value;
      }
      if TruthyField(error) {
        error := None;
      }
    }

    /**
     * `handleSubmit(e)`: a form that fails validation shows the check's
     * message and calls nothing. Otherwise the context's `login` runs with
     * the fields as typed; what it throws is shown, and `loading` ends false.
     * Only an enabled submit button can send the form.
     */
    method Submit(x: Exchange<AuthPayload>, me: Exchange<Option<User>>)
      returns (attempt: Option<Result<AuthPayload, string>>)
      requires Enabled()
      modifies this, auth, auth.api, auth.api.storage
      ensures identifier == old(identifier) && password == old(password) && serverStatus == old(serverStatus)
      ensures attempt.None? <==> Validate(old(identifier), old(password)).Some?
      ensures attempt.None? ==>
        && error == Validate(old(identifier), old(password)) && loading == old(loading)
        && unchanged(auth, auth.api, auth.api.storage)
      ensures attempt.Some? ==> Settled(attempt.value, x, me, old(auth.api.storage.items))
    {
      var invalid := Validate(identifier, password);
      if invalid.Some? {
        Refuse(invalid.value);
        attempt := None;
      } else {
        var r := SignIn(x, me);
        attempt := Some(r);
      }
    }

    /**
     * The form after `login` settled with `r`, from storage `before`: `r` is
     * the client's login outcome, nothing is loading, and the error shown is
     * `r`'s message. A failure leaves the session signed out with both keys
     * removed; a success signs in as the payload's user, the token cleared
     * when `/users/me` answered 401.
     */
    predicate Settled(r: Result<AuthPayload, string>, x: Exchange<AuthPayload>, me: Exchange<Option<User>>,
                      before: map<string, string>)
      reads this, auth, auth.api, auth.api.storage
    {
      && r == AfterClientLogin(LoginResult(x), me) && !loading && !auth.loading
      && error == (if r.Failure? then Some(SubmitErrorText(ErrorObject(r.error))) else None)
      && (r.Failure? ==> auth.SignedOut() && auth.api.storage.items == before - {AuthTokenKey, UserKey})
      && (r.Success? ==> auth.SignedInAs(r.value, Unauthorized(me), before))
    }

    /** The part of `handleSubmit` where validation failed: its message is shown. */
    method Refuse(message: string)
      modifies this
      ensures error == Some(message)
      ensures identifier == old(identifier) && password == old(password)
      ensures loading == old(loading) && serverStatus == old(serverStatus)
    {
      error := Some(message);
    }

    /** The part of `handleSubmit` after validation passed. */
    method SignIn(x: Exchange<AuthPayload>, me: Exchange<Option<User>>) returns (r: Result<AuthPayload, string>)
      modifies this, auth, auth.api, auth.api.storage
      ensures identifier == old(identifier) && password == old(password) && serverStatus == old(serverStatus)
      ensures Settled(r, x, me, old(auth.api.storage.items))
    {
      loading := true;
      error := None;
      r := auth.Login(identifier, password, x, me);
      if r.Failure? {
        error := Some(SubmitErrorText(ErrorObject(r.error)));
      }
      loading := false;
    }
  }
}
