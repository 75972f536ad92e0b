/**
 * The session-holding API client (`ApiService`). It keeps one bearer token,
 * mirrored under `authToken` in local storage, builds every request's headers
 * from it, turns a 401 response into a forced logout, and turns any other
 * error response into one message by a fixed precedence.
 *
 * The network is an input: each call receives the `Exchange` that `fetch`
 * produced for it. Browser effects (the page reload on 401, console output)
 * are not part of the model.
 */
module Api {
  import opened Wrappers
  import opened Text
  import opened Json
  import opened Records
  import opened Storage

  const AuthTokenKey: string := "authToken"
  const UserKey: string := "user"

  const SessionExpired: string := "Сессия истекла. Необходимо войти заново."
  const NoTokenError: string := "Нет токена аутентификации"
  const MissingJwtError: string := "Сервер не вернул токен аутентификации"
  const MissingUserError: string := "Сервер не вернул данные пользователя"
  /** Stands for the engine's `SyntaxError` message when a 2xx body is not JSON. */
  const InvalidJsonBody: string := "Unexpected token in JSON"

  /** The backend error strings `login` and `register` translate, and their translations. */
  const InvalidCredentials: string := "Invalid identifier or password"
  const InvalidCredentialsRu: string := "Неверный логин или пароль"
  const EmailNotConfirmed: string := "Your account email is not confirmed"
  const EmailNotConfirmedRu: string := "Email не подтвержден"
  const AccountBlocked: string := "Your account has been blocked"
  const AccountBlockedRu: string := "Аккаунт заблокирован"
  const AlreadyTaken: string := "Email or Username are already taken"
  const AlreadyTakenRu: string := "Email или имя пользователя уже используются"

  // ---------------------------------------------------------------------
  // What comes back from the network
  // ---------------------------------------------------------------------

  /** The `error` member of an error body: a string, or an object with `message` and `details`. */
  datatype ErrorField = ErrorText(text: string) | ErrorDetail(message: Option<string>, details: Option<string>)

  /** An error body as the client reads it: `error`, `message` and `details`, each possibly absent. */
  datatype ErrorPayload = ErrorPayload(error: Option<ErrorField>, message: Option<string>, details: Option<string>)

  /**
   * A response: its status and its body parsed as JSON, read as the success
   * type for a 2xx status and as an error body otherwise. `None` stands for a
   * body that is not JSON. When the success type is itself an `Option`, a
   * JSON `null` body is `Some(None)`.
   */
  datatype HttpResponse<T> = HttpResponse(status: int, okBody: Option<T>, errorBody: Option<ErrorPayload>)

  /** What `fetch` produced: a network failure (`fetch` rejects) or a response. */
  datatype Exchange<T> = NetworkFailure(reason: string) | Received(response: HttpResponse<T>)

  /** `response.ok`. */
  predicate IsOk(status: int) {
    200 <= status <= 299
  }

  predicate Unauthorized<T>(x: Exchange<T>) {
    x.Received? && x.response.status == 401
  }

  // ---------------------------------------------------------------------
  // Error message extraction (request, lines 60-84)
  // ---------------------------------------------------------------------

  /** `errorData.error` is truthy: an object, or a non-empty string. */
  predicate ErrorFieldTruthy(e: Option<ErrorField>) {
    e.Some? && (e.value.ErrorDetail? || e.value.text != "")
  }

  function Fallback(status: int): string {
    "HTTP " + IntToString(status)
  }

  /**
   * The message thrown for a non-2xx, non-401 response. A truthy `error`
   * decides alone: its text, else its `message`, else its `details`, else
   * the fallback; only when `error` is falsy are the top-level `message`
   * and then `details` consulted. An unreadable body gives the fallback.
   */
  function ErrorMessage(status: int, body: Option<ErrorPayload>): (m: string)
    ensures m != ""
    ensures body.None? ==> m == Fallback(status)
    ensures body.Some? && ErrorFieldTruthy(body.value.error) && body.value.error.value.ErrorText? ==>
      m == body.value.error.value.text
    ensures body.Some? && ErrorFieldTruthy(body.value.error) && body.value.error.value.ErrorDetail? ==>
      var d := body.value.error.value;
      m == (if TruthyField(d.message) then d.message.value
            else if TruthyField(d.details) then d.details.value
            else Fallback(status))
    ensures body.Some? && !ErrorFieldTruthy(body.value.error) ==>
      var p := body.value;
      m == (if TruthyField(p.message) then p.message.value
            else if TruthyField(p.details) then p.details.value
            else Fallback(status))
  {
    var fallback := Fallback(status);
    match body
    case None => fallback
    case Some(p) =>
      if ErrorFieldTruthy(p.error) then
        match p.error.value
        case ErrorText(t) => t
        case ErrorDetail(msg, details) => OrElse(msg, OrElse(details, fallback))
      else OrElse(p.message, OrElse(p.details, fallback))
  }

  /** The candidates `ErrorMessage` chooses among, in precedence order. */
  function Candidates(body: Option<ErrorPayload>): seq<Option<string>> {
    match body
    case None => []
    case Some(p) =>
      if ErrorFieldTruthy(p.error) then
        match p.error.value
        case ErrorText(t) => [Some(t)]
        case ErrorDetail(msg, details) => [msg, details]
      else [p.message, p.details]
  }

  /** The first truthy candidate, or the fallback: an independent statement of the precedence. */
  function FirstTruthy(cs: seq<Option<string>>, fallback: string): string {
    if cs == [] then fallback else OrElse(cs[0], FirstTruthy(cs[1..], fallback))
  }

  /** The precedence chain is "first truthy candidate, else `HTTP <status>`". */
  lemma ErrorMessageIsFirstTruthy(status: int, body: Option<ErrorPayload>)
    ensures ErrorMessage(status, body) == FirstTruthy(Candidates(body), Fallback(status))
  {
    var cs := Candidates(body);
    if |cs| == 1 {
      assert cs[1..] == [];
    } else if |cs| == 2 {
      var fallback := Fallback(status);
      assert cs[1..][1..] == [];
      assert FirstTruthy(cs[1..], fallback) == OrElse(cs[1], fallback);
    }
  }

  /** A 401 never reaches the message extraction: its body is not looked at. */
  lemma UnauthorizedIgnoresBody<T>(body: Option<ErrorPayload>, okBody: Option<T>)
    ensures Outcome(Received(HttpResponse(401, okBody, body))) == Failure(SessionExpired)
  {
  }

  // ---------------------------------------------------------------------
  // Building a request (getHeaders, request lines 33-41)
  // ---------------------------------------------------------------------

  datatype Method = Get | Post | Put | Delete

  /** The `options` argument of `request`: method, extra headers and the object to send as JSON. */
  datatype RequestOptions = RequestOptions(verb: Option<Method>, headers: map<string, string>, body: Option<Json>)

  const NoOptions: RequestOptions := RequestOptions(None, map[], None)

  /**
   * What is handed to `fetch`. `body` is the JSON value whose
   * `JSON.stringify` text (`BodyText`) is sent.
   */
  datatype OutgoingRequest = OutgoingRequest(url: string, verb: Method, headers: map<string, string>, body: Option<Json>) {
    function BodyText(): Option<string> {
      if body.Some? then Some(Stringify(body.value)) else None
    }
  }

  /** `getHeaders()`: JSON content type always, the bearer header exactly when the token is truthy. */
  function Headers(token: Option<string>): (h: map<string, string>)
    ensures "Content-Type" in h && h["Content-Type"] == "application/json"
    ensures "Authorization" in h <==> TruthyField(token)
    ensures "Authorization" in h ==> h["Authorization"] == "Bearer " + token.value
    ensures h.Keys <= {"Content-Type", "Authorization"}
  {
    var base := map["Content-Type" := "application/json"];
    if TruthyField(token) then base["Authorization" := "Bearer " + token.value] else base
  }

  /** `{...defaults, ...overrides}`: the caller's headers win key by key, nothing else is lost. */
  function MergeHeaders(defaults: map<string, string>, overrides: map<string, string>): (h: map<string, string>)
    ensures h.Keys == defaults.Keys + overrides.Keys
    ensures forall k :: k in overrides ==> h[k] == overrides[k]
    ensures forall k :: k in defaults && k !in overrides ==> h[k] == defaults[k]
  {
    defaults + overrides
  }

  /** The request `request(endpoint, options)` sends while `token` is held. */
  function BuildRequest(baseUrl: string, endpoint: string, token: Option<string>, options: RequestOptions): (r: OutgoingRequest)
    ensures r.url == baseUrl + endpoint && r.body == options.body
    ensures options.verb.None? ==> r.verb == Get
    ensures options.verb.Some? ==> r.verb == options.verb.value
    ensures "Content-Type" in r.headers
    ensures forall k :: k in r.headers <==> k in Headers(token) || k in options.headers
  {
    OutgoingRequest(
      baseUrl + endpoint,
      options.verb.GetOr(Get),
      MergeHeaders(Headers(token), options.headers),
      options.body)
  }

  /** Without a credential (and no header of the caller's own) no Authorization header is sent. */
  lemma NoCredentialNoAuthorization(baseUrl: string, endpoint: string, token: Option<string>, options: RequestOptions)
    requires !TruthyField(token) && "Authorization" !in options.headers
    ensures "Authorization" !in BuildRequest(baseUrl, endpoint, token, options).headers
  {
  }

  /** With a credential the bearer header is sent unless the caller overrides it. */
  lemma CredentialAttached(baseUrl: string, endpoint: string, token: Option<string>, options: RequestOptions)
    requires TruthyField(token) && "Authorization" !in options.headers
    ensures var h := BuildRequest(baseUrl, endpoint, token, options).headers;
      "Authorization" in h && h["Authorization"] == "Bearer " + token.value
  {
  }

  // ---------------------------------------------------------------------
  // The outcome of a request (request lines 43-95)
  // ---------------------------------------------------------------------

  /**
   * What `request` resolves to or throws, given what `fetch` produced: the
   * 401 check comes first, then `!ok`, then the body is parsed.
   */
  function Outcome<T>(x: Exchange<T>): (r: Result<T, string>)
    ensures x.NetworkFailure? ==> r == Failure(x.reason)
    ensures Unauthorized(x) ==> r == Failure(SessionExpired)
    ensures x.Received? && x.response.status != 401 && !IsOk(x.response.status) ==>
      r == Failure(ErrorMessage(x.response.status, x.response.errorBody))
    ensures x.Received? && IsOk(x.response.status) ==>
      r == if x.response.okBody.Some? then Success(x.response.okBody.value) else Failure(InvalidJsonBody)
  {
    match x
    case NetworkFailure(reason) => Failure(reason)
    case Received(resp) =>
      if resp.status == 401 then Failure(SessionExpired)
      else if !IsOk(resp.status) then Failure(ErrorMessage(resp.status, resp.errorBody))
      else if resp.okBody.None? then Failure(InvalidJsonBody)
      else Success(resp.okBody.value)
  }

  // ---------------------------------------------------------------------
  // Error translation (login lines 121-135, register lines 150-157)
  // ---------------------------------------------------------------------

  /** `login`'s translation: the first matching substring decides; anything else passes through. */
  function TranslateLoginError(m: string): (r: string)
    ensures Includes(m, InvalidCredentials) ==> r == InvalidCredentialsRu
    ensures !Includes(m, InvalidCredentials) && Includes(m, EmailNotConfirmed) ==> r == EmailNotConfirmedRu
    ensures !Includes(m, InvalidCredentials) && !Includes(m, EmailNotConfirmed) && Includes(m, AccountBlocked) ==>
      r == AccountBlockedRu
    ensures !Includes(m, InvalidCredentials) && !Includes(m, EmailNotConfirmed) && !Includes(m, AccountBlocked) ==>
      r == m
  {
    if Includes(m, InvalidCredentials) then InvalidCredentialsRu
    else if Includes(m, EmailNotConfirmed) then EmailNotConfirmedRu
    else if Includes(m, AccountBlocked) then AccountBlockedRu
    else m
  }

  /** `register`'s translation of the duplicate-account error; anything else passes through. */
  function TranslateRegisterError(m: string): (r: string)
    ensures Includes(m, AlreadyTaken) ==> r == AlreadyTakenRu
    ensures !Includes(m, AlreadyTaken) ==> r == m
  {
    if Includes(m, AlreadyTaken) then AlreadyTakenRu else m
  }

  /** A pattern longer than the text cannot occur in it. */
  lemma TooLongToInclude(s: string, pat: string)
    requires |s| < |pat|
    ensures !Includes(s, pat)
  {
  }

  /** Translating a translated message changes nothing more. */
  lemma TranslateLoginErrorIdempotent(m: string)
    ensures TranslateLoginError(TranslateLoginError(m)) == TranslateLoginError(m)
  {
    var r := TranslateLoginError(m);
    if r != m {
      assert |r| <= 25;
      TooLongToInclude(r, InvalidCredentials);
      TooLongToInclude(r, EmailNotConfirmed);
      TooLongToInclude(r, AccountBlocked);
    }
  }

  /** The client's own failure messages are never translated. */
  lemma OwnMessagesPassThrough()
    ensures TranslateLoginError(MissingJwtError) == MissingJwtError
    ensures TranslateLoginError(MissingUserError) == MissingUserError
    ensures TranslateLoginError(SessionExpired) == SessionExpired
  {
    MissingJwtPassesThrough();
    MissingUserPassesThrough();
    SessionExpiredPassesThrough();
  }

  lemma MissingJwtPassesThrough()
    ensures TranslateLoginError(MissingJwtError) == MissingJwtError
  {
    var s := MissingJwtError;
    assert forall k :: 0 <= k < |s| ==> s[k] != 'I' && s[k] != 'Y';
    NoSuchText(s);
  }

  lemma MissingUserPassesThrough()
    ensures TranslateLoginError(MissingUserError) == MissingUserError
  {
    var s := MissingUserError;
    assert forall k :: 0 <= k < |s| ==> s[k] != 'I' && s[k] != 'Y';
    NoSuchText(s);
  }

  lemma SessionExpiredPassesThrough()
    ensures TranslateLoginError(SessionExpired) == SessionExpired
  {
    var s := SessionExpired;
    assert forall k :: 0 <= k < |s| ==> s[k] != 'I' && s[k] != 'Y';
    NoSuchText(s);
  }

  /** None of the three login patterns occurs in `s` when `s` has no Latin capital `I` or `Y`. */
  lemma NoSuchText(s: string)
    requires forall k :: 0 <= k < |s| ==> s[k] != 'I' && s[k] != 'Y'
    ensures !Includes(s, InvalidCredentials) && !Includes(s, EmailNotConfirmed) && !Includes(s, AccountBlocked)
  {
    FirstCharAbsent(s, InvalidCredentials);
    FirstCharAbsent(s, EmailNotConfirmed);
    FirstCharAbsent(s, AccountBlocked);
  }

  /** A pattern whose first character does not occur in `s` does not occur in `s`. */
  lemma FirstCharAbsent(s: string, pat: string)
    requires pat != "" && forall k :: 0 <= k < |s| ==> s[k] != pat[0]
    ensures !Includes(s, pat)
  {
    forall k | 0 <= k ensures !OccursAt(s, pat, k) {
      if k + |pat| <= |s| {
        assert s[k..k + |pat|][0] == s[k];
      }
    }
  }

  // ---------------------------------------------------------------------
  // The auth endpoints as functions of the exchange
  // ---------------------------------------------------------------------

  /** The body `login` posts: the identifier trimmed, the password as given. */
  function LoginBody(identifier: string, password: string): Json {
    JObj([("identifier", JStr(Trim(identifier))), ("password", JStr(password))])
  }

  function LoginOptions(identifier: string, password: string): RequestOptions {
    RequestOptions(Some(Post), map[], Some(LoginBody(identifier, password)))
  }

  /** What `login` resolves to or throws: the response must carry a truthy `jwt` and a `user`. */
  function LoginResult(x: Exchange<AuthPayload>): (r: Result<AuthPayload, string>)
    ensures r.Success? ==> TruthyField(r.value.jwt) && r.value.user.Some?
    ensures x.NetworkFailure? ==> r.Failure?
  {
    LoginChecks(Outcome(x))
  }

  /**
   * What `login` makes of the outcome of its request. Its own two messages
   * go through the translation too, which leaves them as they are
   * (`OwnMessagesPassThrough`).
   */
  function LoginChecks(o: Result<AuthPayload, string>): (r: Result<AuthPayload, string>)
    ensures r.Success? ==> r == o && TruthyField(r.value.jwt) && r.value.user.Some?
    ensures o.Success? && TruthyField(o.value.jwt) && o.value.user.Some? ==> r == o
    ensures o.Failure? ==> r == Failure(TranslateLoginError(o.error))
  {
    match o
    case Failure(m) => Failure(TranslateLoginError(m))
    case Success(p) =>
      if !TruthyField(p.jwt) then Failure(MissingJwtError)
      else if p.user.None? then Failure(MissingUserError)
      else Success(p)
  }

  /** `login` succeeds exactly when the response is 2xx, is JSON, and has a truthy `jwt` and a `user`. */
  lemma LoginSucceedsIff(x: Exchange<AuthPayload>)
    ensures LoginResult(x).Success? <==>
      x.Received? && IsOk(x.response.status) && x.response.okBody.Some?
      && TruthyField(x.response.okBody.value.jwt) && x.response.okBody.value.user.Some?
    ensures LoginResult(x).Success? ==> LoginResult(x).value == x.response.okBody.value
  {
  }

  /** The backend's "Invalid identifier or password" error surfaces as the Russian message. */
  lemma WrongPasswordMessage(status: int)
    requires status != 401 && !IsOk(status)
    ensures LoginResult(Received(HttpResponse(status, None,
      Some(ErrorPayload(Some(ErrorDetail(Some(InvalidCredentials), None)), None, None)))))
      == Failure(InvalidCredentialsRu)
  {
    IncludesTrivia(InvalidCredentials);
  }

  function RegisterOptions(userData: Json): RequestOptions {
    RequestOptions(Some(Post), map[], Some(userData))
  }

  /** What `register` resolves to or throws: any parsed body is accepted. */
  function RegisterResult(x: Exchange<AuthPayload>): (r: Result<AuthPayload, string>)
    ensures r.Success? <==> Outcome(x).Success?
    ensures r.Success? ==> r == Outcome(x)
    ensures r.Failure? ==> r.error == TranslateRegisterError(Outcome(x).error)
  {
    match Outcome(x)
    case Failure(m) => Failure(TranslateRegisterError(m))
    case Success(p) => Success(p)
  }

  const CurrentUserPath: string := "/users/me?populate=role"

  // ---------------------------------------------------------------------
  // Resource endpoints (lines 173-300)
  // ---------------------------------------------------------------------

  /**
   * The resource operations of the client. `query` is the text
   * `URLSearchParams(params).toString()` produced (empty for no params).
   */
  datatype Endpoint =
    | GetUsers(query: string) | CreateUser(userData: Json) | UpdateUser(id: int, userData: Json) | DeleteUser(id: int)
    | GetDrivings(query: string) | CreateDriving(data: Json) | UpdateDriving(id: int, data: Json) | DeleteDriving(id: int)
    | GetExams(query: string) | CreateExam(data: Json) | UpdateExam(id: int, data: Json) | DeleteExam(id: int)
    | GetTimetables(query: string) | CreateTimetable(data: Json) | UpdateTimetable(id: int, data: Json)
    | DeleteTimetable(id: int)
    | GenericGet(path: string) | GenericPost(path: string, data: Json) | GenericPut(path: string, data: Json)
    | GenericDelete(path: string)

  /** `?query` when the query is non-empty, nothing otherwise. */
  function QuerySuffix(query: string): string {
    if query != "" then "?" + query else ""
  }

  /** `{ data: record }`: the envelope the collection endpoints expect. */
  function DataEnvelope(record: Json): Json {
    JObj([("data", record)])
  }

  const PopulateUser: string := "?populate=users_permissions_user"

  function Send(m: Method, body: Json): RequestOptions {
    RequestOptions(Some(m), map[], Some(body))
  }

  const Remove: RequestOptions := RequestOptions(Some(Delete), map[], None)

  /** The endpoint path and the options each resource operation passes to `request`. */
  function Route(e: Endpoint): (r: (string, RequestOptions))
    ensures r.1.headers == map[]
    ensures r.1.verb.None? <==>
      e.GetUsers? || e.GetDrivings? || e.GetExams? || e.GetTimetables? || e.GenericGet?
    ensures r.1.verb == Some(Post) <==>
      e.CreateUser? || e.CreateDriving? || e.CreateExam? || e.CreateTimetable? || e.GenericPost?
    ensures r.1.verb == Some(Put) <==>
      e.UpdateUser? || e.UpdateDriving? || e.UpdateExam? || e.UpdateTimetable? || e.GenericPut?
    ensures r.1.verb == Some(Delete) <==>
      e.DeleteUser? || e.DeleteDriving? || e.DeleteExam? || e.DeleteTimetable? || e.GenericDelete?
  {
    match e
    case GetUsers(q) => ("/users" + QuerySuffix(q), NoOptions)
    case CreateUser(u) => ("/auth/local/register", Send(Post, u))
    case UpdateUser(id, u) => ("/users/" + IntToString(id), Send(Put, u))
    case DeleteUser(id) => ("/users/" + IntToString(id), Remove)
    case GetDrivings(q) => ("/drivings" + QuerySuffix(q) + PopulateUser, NoOptions)
    case CreateDriving(d) => ("/drivings", Send(Post, DataEnvelope(d)))
    case UpdateDriving(id, d) => ("/drivings/" + IntToString(id), Send(Put, DataEnvelope(d)))
    case DeleteDriving(id) => ("/drivings/" + IntToString(id), Remove)
    case GetExams(q) => ("/exams" + QuerySuffix(q) + PopulateUser, NoOptions)
    case CreateExam(d) => ("/exams", Send(Post, DataEnvelope(d)))
    case UpdateExam(id, d) => ("/exams/" + IntToString(id), Send(Put, DataEnvelope(d)))
    case DeleteExam(id) => ("/exams/" + IntToString(id), Remove)
    case GetTimetables(q) => ("/timetables" + QuerySuffix(q), NoOptions)
    case CreateTimetable(d) => ("/timetables", Send(Post, DataEnvelope(d)))
    case UpdateTimetable(id, d) => ("/timetables/" + IntToString(id), Send(Put, DataEnvelope(d)))
    case DeleteTimetable(id) => ("/timetables/" + IntToString(id), Remove)
    case GenericGet(p) => (p, NoOptions)
    case GenericPost(p, d) => (p, Send(Post, d))
    case GenericPut(p, d) => (p, Send(Put, d))
    case GenericDelete(p) => (p, Remove)
  }

  /** The record sent by a create or update call, and whether the endpoint wraps it in `{data: ...}`. */
  predicate Wrapped(e: Endpoint) {
    e.CreateDriving? || e.UpdateDriving? || e.CreateExam? || e.UpdateExam?
    || e.CreateTimetable? || e.UpdateTimetable?
  }

  /**
   * The driving, exam and timetable writes send `{data: record}`; user
   * writes and the generic ones send the record itself; reads and deletes
   * send no body.
   */
  lemma BodyShape(e: Endpoint)
    ensures Wrapped(e) ==> Route(e).1.body == Some(DataEnvelope(e.data))
    ensures (e.CreateUser? || e.UpdateUser?) ==> Route(e).1.body == Some(e.userData)
    ensures (e.GenericPost? || e.GenericPut?) ==> Route(e).1.body == Some(e.data)
    ensures Route(e).1.body.None? <==>
      (e.GetUsers? || e.GetDrivings? || e.GetExams? || e.GetTimetables? || e.GenericGet?
       || e.DeleteUser? || e.DeleteDriving? || e.DeleteExam? || e.DeleteTimetable? || e.GenericDelete?)
  {
  }

  /**
   * For drivings and exams the populate parameter is appended with its own
   * `?` after the optional `?query`: a non-empty query gives two `?`.
   */
  lemma PopulateAfterQuery(q: string)
    requires q != ""
    ensures Route(GetDrivings(q)).0 == "/drivings?" + q + "?populate=users_permissions_user"
    ensures Route(GetExams(q)).0 == "/exams?" + q + "?populate=users_permissions_user"
  {
  }

  /**
   * The paths of the resource calls: a list path gets `?query` only for a
   * non-empty query, creates post to the collection (users register), and
   * every update and delete addresses `/<collection>/<id>`.
   */
  lemma ResourcePaths(q: string, id: int, d: Json)
    ensures Route(GetUsers(q)).0 == "/users" + QuerySuffix(q)
    ensures Route(GetTimetables(q)).0 == "/timetables" + QuerySuffix(q)
    ensures Route(GetDrivings(q)).0 == "/drivings" + QuerySuffix(q) + PopulateUser
    ensures Route(GetExams(q)).0 == "/exams" + QuerySuffix(q) + PopulateUser
    ensures q == "" ==> Route(GetUsers(q)).0 == "/users" && Route(GetTimetables(q)).0 == "/timetables"
    ensures q != "" ==> Route(GetUsers(q)).0 == "/users?" + q && Route(GetTimetables(q)).0 == "/timetables?" + q
    ensures Route(CreateUser(d)).0 == "/auth/local/register"
    ensures Route(CreateDriving(d)).0 == "/drivings" && Route(CreateExam(d)).0 == "/exams"
    ensures Route(CreateTimetable(d)).0 == "/timetables"
    ensures Route(UpdateUser(id, d)).0 == Route(DeleteUser(id)).0 == "/users/" + IntToString(id)
    ensures Route(UpdateDriving(id, d)).0 == Route(DeleteDriving(id)).0 == Route(CreateDriving(d)).0 + "/" + IntToString(id)
    ensures Route(UpdateExam(id, d)).0 == Route(DeleteExam(id)).0 == Route(CreateExam(d)).0 + "/" + IntToString(id)
    ensures Route(UpdateTimetable(id, d)).0 == Route(DeleteTimetable(id)).0
      == Route(CreateTimetable(d)).0 + "/" + IntToString(id)
  {
  }

  /** Different ids address different records: a record path names one id. */
  lemma RecordPathsDistinct(prefix: string, i: int, j: int)
    requires prefix + IntToString(i) == prefix + IntToString(j)
    ensures i == j
  {
    assert IntToString(i) == (prefix + IntToString(i))[|prefix|..];
    assert IntToString(j) == (prefix + IntToString(j))[|prefix|..];
    IntToStringInjective(i, j);
  }

  /** `healthCheck`'s URL: the first `/api` removed from the base URL, then `/`. */
  function HealthUrl(baseUrl: string): (url: string)
    ensures url != "" && url[|url| - 1] == '/'
    ensures !Includes(baseUrl, "/api") ==> url == baseUrl + "/"
    ensures Includes(baseUrl, "/api") ==>
      var k := IndexOf(baseUrl, "/api"); url == baseUrl[..k] + baseUrl[k + 4..] + "/"
  {
    ReplaceFirst(baseUrl, "/api", "") + "/"
  }

  /** `healthCheck()`: true for a 2xx response, false for any other response and for a network failure. */
  function HealthCheck<T>(x: Exchange<T>): (healthy: bool)
    ensures healthy ==> x.Received?
    ensures x.Received? ==> (healthy <==> IsOk(x.response.status))
  {
    x.Received? && IsOk(x.response.status)
  }

  // ---------------------------------------------------------------------
  // The client object
  // ---------------------------------------------------------------------

  class ApiService {
    const baseUrl: string
    const storage: LocalStorage
    var token: Option<string>

    /** A new client picks up the token a previous session left in storage. */
    constructor (baseUrl: string, storage: LocalStorage)
      ensures this.baseUrl == baseUrl && this.storage == storage
      ensures token == storage.GetItem(AuthTokenKey)
    {
      this.baseUrl := baseUrl;
      this.storage := storage;
      token := storage.GetItem(AuthTokenKey);
    }

    /** `isAuthenticated()`: the token is truthy. */
    predicate IsAuthenticated()
      reads this
    {
      TruthyField(token)
    }

    /**
     * `setToken(t)`: the field takes `t`; a truthy `t` is stored under
     * `authToken`, a falsy one removes that key. No other key changes.
     */
    method SetToken(t: Option<string>)
      modifies this, storage
      ensures token == t && IsAuthenticated() == TruthyField(t)
      ensures storage.items ==
        if TruthyField(t) then old(storage.items)[AuthTokenKey := t.value] else old(storage.items) - {AuthTokenKey}
    {
      token := t;
      if TruthyField(t) {
        storage.SetItem(AuthTokenKey, t.value);
      } else {
        storage.RemoveItem(AuthTokenKey);
      }
    }

    /**
     * `request(endpoint, options)`. A 401 clears the token and the stored
     * user and fails with the session-expired message; every other outcome
     * leaves the state alone and is `Outcome(exchange)`.
     */
    method Request<T>(endpoint: string, options: RequestOptions, exchange: Exchange<T>)
      returns (r: Result<T, string>, sent: OutgoingRequest)
      modifies this, storage
      ensures sent == BuildRequest(baseUrl, endpoint, old(token), options)
      ensures r == Outcome(exchange)
      ensures Unauthorized(exchange) ==>
        token == None && storage.items == old(storage.items) - {AuthTokenKey, UserKey}
      ensures !Unauthorized(exchange) ==> token == old(token) && storage.items == old(storage.items)
    {
      sent := BuildRequest(baseUrl, endpoint, token, options);
      if exchange.NetworkFailure? {
        r := Failure(exchange.reason);
        return;
      }
      var response := exchange.response;
      if response.status == 401 {
        SetToken(None);
        storage.RemoveItem(UserKey);
        r := Failure(SessionExpired);
        return;
      }
      if !IsOk(response.status) {
        r := Failure(ErrorMessage(response.status, response.errorBody));
        return;
      }
      if response.okBody.None? {
        r := Failure(InvalidJsonBody);
      } else {
        r := Success(response.okBody.value);
      }
    }

    /**
     * `login(identifier, password)`: posts the trimmed identifier; on
     * success the token becomes the response's `jwt`; every failure clears
     * the token and is translated.
     */
    method Login(identifier: string, password: string, exchange: Exchange<AuthPayload>)
      returns (r: Result<AuthPayload, string>, sent: OutgoingRequest)
      modifies this, storage
      ensures sent == BuildRequest(baseUrl, "/auth/local", old(token), LoginOptions(identifier, password))
      ensures r == LoginResult(exchange)
      ensures r.Success? ==> TruthyField(r.value.jwt) && r.value.user.Some?
      ensures r.Success? ==>
        token == r.value.jwt && storage.items == old(storage.items)[AuthTokenKey := r.value.jwt.value]
      ensures r.Failure? ==> token == None
      ensures r.Failure? && Unauthorized(exchange) ==> storage.items == old(storage.items) - {AuthTokenKey, UserKey}
      ensures r.Failure? && !Unauthorized(exchange) ==> storage.items == old(storage.items) - {AuthTokenKey}
    {
      var response;
      response, sent := Request("/auth/local", LoginOptions(identifier, password), exchange);
      r := CheckLogin(response);
      if r.Failure? && Unauthorized(exchange) {
        RemoveWithin(old(storage.items), {AuthTokenKey, UserKey}, {AuthTokenKey});
      }
    }

    /**
     * The part of `login` after its request: the response must have a truthy
     * `jwt` and a `user`, which installs the token; anything else clears the
     * token and is translated.
     */
    method CheckLogin(response: Result<AuthPayload, string>) returns (r: Result<AuthPayload, string>)
      modifies this, storage
      ensures r == LoginChecks(response)
      ensures r.Success? ==>
        token == r.value.jwt && TruthyField(r.value.jwt) && r.value.user.Some?
        && storage.items == old(storage.items)[AuthTokenKey := r.value.jwt.value]
      ensures r.Failure? ==> token == None && storage.items == old(storage.items) - {AuthTokenKey}
    {
      var failure := "";
      if response.Failure? {
        failure := response.error;
      } else if !TruthyField(response.value.jwt) {
        failure := MissingJwtError;
      } else if response.value.user.None? {
        failure := MissingUserError;
      } else {
        SetToken(response.value.jwt);
        r := response;
        return;
      }
      SetToken(None);
      OwnMessagesPassThrough();
      r := Failure(TranslateLoginError(failure));
    }

    /** `register(userData)`: installs the `jwt` only when the response has a truthy one. */
    method Register(userData: Json, exchange: Exchange<AuthPayload>)
      returns (r: Result<AuthPayload, string>, sent: OutgoingRequest)
      modifies this, storage
      ensures sent == BuildRequest(baseUrl, "/auth/local/register", old(token), RegisterOptions(userData))
      ensures r == RegisterResult(exchange)
      ensures r.Success? && TruthyField(r.value.jwt) ==>
        token == r.value.jwt && storage.items == old(storage.items)[AuthTokenKey := r.value.jwt.value]
      ensures r.Success? && !TruthyField(r.value.jwt) ==>
        token == old(token) && storage.items == old(storage.items)
      ensures r.Failure? && !Unauthorized(exchange) ==> token == old(token) && storage.items == old(storage.items)
      ensures Unauthorized(exchange) ==>
        token == None && storage.items == old(storage.items) - {AuthTokenKey, UserKey}
    {
      var response;
      response, sent := Request("/auth/local/register", RegisterOptions(userData), exchange);
      if response.Failure? {
        r := Failure(TranslateRegisterError(response.error));
        return;
      }
      if TruthyField(response.value.jwt) {
        SetToken(response.value.jwt);
      }
      r := response;
    }

    /** `logout()`: the token and the stored user are gone; nothing else changes. */
    method Logout()
      modifies this, storage
      ensures token == None && !IsAuthenticated()
      ensures storage.items == old(storage.items) - {AuthTokenKey, UserKey}
    {
      SetToken(None);
      storage.RemoveItem(UserKey);
    }

    /**
     * `getCurrentUser()`: without a truthy token it fails at once and sends
     * nothing; otherwise it is `request('/users/me?populate=role')`.
     */
    method GetCurrentUser(exchange: Exchange<Option<User>>)
      returns (r: Result<Option<User>, string>, sent: Option<OutgoingRequest>)
      modifies this, storage
      ensures !old(IsAuthenticated()) ==>
        r == Failure(NoTokenError) && sent.None? && token == old(token) && storage.items == old(storage.items)
      ensures old(IsAuthenticated()) ==>
        r == Outcome(exchange) && sent == Some(BuildRequest(baseUrl, CurrentUserPath, old(token), NoOptions))
      ensures old(IsAuthenticated()) && Unauthorized(exchange) ==>
        token == None && storage.items == old(storage.items) - {AuthTokenKey, UserKey}
      ensures !(old(IsAuthenticated()) && Unauthorized(exchange)) ==>
        token == old(token) && storage.items == old(storage.items)
    {
      if !TruthyField(token) {
        r, sent := Failure(NoTokenError), None;
        return;
      }
      var request;
      r, request := Request(CurrentUserPath, NoOptions, exchange);
      sent := Some(request);
    }

    /** One of the resource operations: `request` on the operation's route. */
    method Call<T>(e: Endpoint, exchange: Exchange<T>) returns (r: Result<T, string>, sent: OutgoingRequest)
      modifies this, storage
      ensures sent == BuildRequest(baseUrl, Route(e).0, old(token), Route(e).1)
      ensures r == Outcome(exchange)
      ensures Unauthorized(exchange) ==>
        token == None && storage.items == old(storage.items) - {AuthTokenKey, UserKey}
      ensures !Unauthorized(exchange) ==> token == old(token) && storage.items == old(storage.items)
    {
      var (path, options) := Route(e);
      r, sent := Request(path, options, exchange);
    }
  }
}
