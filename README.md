# Driving-school admin panel: verified model

This project models the client-side logic of a driving-school administration
panel. The panel is a single-page application over a REST backend (a Strapi
content API). An administrator signs in and then manages users, driving-lesson
bookings, exam bookings and timetable events.

The model covers:

- **The API client** (`Api.ApiService`). It holds one bearer token, mirrored
  under `authToken` in the browser's local storage (`Storage.LocalStorage`, a
  `map<string, string>`). It builds each request's headers from the token.
  For a 401 it clears the token and the stored `user` and then fails. For any
  other error response it picks one message by a fixed precedence. The login
  and registration calls translate a few backend error texts into Russian.
  The network is an input: each call receives the `Exchange` that `fetch`
  produced, which is either a network failure or a status with a parsed body.
- **The authentication context** (`AuthContext.AuthProvider`). It has the
  fields `user`, `isAuthenticated` and `loading`, and the operations
  `checkAuthStatus`, `login`, `logout` and `refreshUser`. The live
  `isAdminUser` admits every user that is present. The three-way decision of
  `ProtectedRoute` is `ProtectedRoute.Gate`.
- **The `useApiError` hook** (`UseApiError.ApiErrorState`). It classifies a
  failure as auth-like, which signs out silently, or as an error that is shown
  and rethrown.
- **The screens**: the timetable, driving and exam managers, the login form,
  user registration, the users table, the profile menu and the layout. Each
  screen is a class whose fields are its React state. Each handler is a
  method that receives the outcomes of its API calls as inputs and returns
  the calls it made (`calls`), so "no request is made" reads `calls == []`.
  Validation, draft population, payload normalisation and the lookup tables
  are functions, each with a partner lemma: a round trip, an if-and-only-if,
  or a comparison with another definition.
- **The type constants** of `src/types/index.js` (`Types`), **JSON text** for
  request bodies and the stored user (`Json`, `Records`), and the JavaScript
  string operations the code relies on (`Text`): truthiness, `trim`,
  `includes`, `indexOf`, `replace`, `String(n)` and `toUpperCase`. Where
  the code measures or indexes a text (`length`, `charAt`) the model counts
  UTF-16 code units, as JavaScript does (`Text.Utf16`).

React state updates are modelled as immediate assignments, in program order.
Some behaviour of the code becomes visible in the contracts:

- **Login after a 401 on `/users/me`.** `request` clears the token, and
  `login` then falls back to the login response's user. It ends
  authenticated with no token. `SignedInAs(p, true, ...)` in
  `AuthProvider.Login` states this case.
- **Timetable save.** After a successful save, `setError(null)` runs after
  the refetch, so a refetch error is never shown (`TimetableScreen.Save`).
- **Users table.** It stores the response as it came, with no `|| []`
  fallback (`UsersTableScreen.FetchUsers`).
- **A thrown string in `useApiError`.** Reading `.includes` from it throws a
  `TypeError`, so nothing is shown and something else is thrown
  (`UseApiError.Ending`).
- **Required fields.** The registration check does not trim its fields,
  while the login form does (`UserRegistration.SpacesPassRequiredCheck`,
  `LoginForm.BlankIdentifierRefused`).
- **The sidebar role caption.** It shows the raw role name, while the
  profile menu shows the translated label
  (`AdminLayout.CaptionIsUntranslated`).
- **Bookings with a query.** The driving and exam list URLs get two `?` when
  a query is given (`Api.PopulateAfterQuery`).
- **Backwards intervals.** `getDuration` shows a negative minute count for
  an event that ends before it starts, because JavaScript's `%` keeps the
  sign (`Timetable.BackwardsInterval`).

## Model

| member | source | states |
|---|---|---|
| Storage.LocalStorage.GetItem | src/services/api.js:6 | `getItem` yields a value exactly for a present key, and that key's value |
| Storage.LocalStorage.SetItem | src/services/api.js:15 | `setItem` changes only the given key, to the given value |
| Storage.LocalStorage.RemoveItem | src/services/api.js:17 | `removeItem` removes only the given key; a missing key changes nothing |
| Api.ApiService.constructor | src/services/api.js:4-10 | a new client starts with the token that storage holds under `authToken` |
| Api.ApiService.SetToken | src/services/api.js:12-19 | the field takes the token; a truthy token is stored under `authToken` and a falsy one removes that key; no other key changes; `IsAuthenticated` is the token's truthiness |
| Api.Headers | src/services/api.js:21-31 | JSON content type always; `Authorization: Bearer <token>` if and only if the token is truthy; no other header |
| Api.MergeHeaders | src/services/api.js:35-41 | the caller's headers win key by key, default headers they do not name are kept, no other key appears |
| Api.BuildRequest | src/services/api.js:33-41 | the URL is the base URL followed by the endpoint; the method is the caller's, GET when none is given; the body is the caller's; the JSON content-type header is always present; the headers are exactly the default ones and the caller's |
| Api.NoCredentialNoAuthorization | src/services/api.js:21-41 | with a falsy token, and no header of the caller's own, no Authorization header is sent |
| Api.CredentialAttached | src/services/api.js:21-41 | with a truthy token the request carries its bearer header unless the caller overrides it |
| Api.ErrorMessage | src/services/api.js:60-84 | message precedence: a truthy string `error`; else `error.message`, `error.details`; only when `error` is falsy, top-level `message` then `details`; else `HTTP <status>`; an unreadable body gives the fallback; never empty |
| Api.ErrorMessageIsFirstTruthy | src/services/api.js:60-84 | the chosen message equals an independent definition: the first truthy candidate in precedence order, else the fallback |
| Api.Outcome | src/services/api.js:43-95 | network failure rethrown; 401 fails with the session-expired text before `!ok` is looked at; other non-2xx fail with `ErrorMessage`; a 2xx yields its parsed body, or fails when the body is not JSON |
| Api.UnauthorizedIgnoresBody | src/services/api.js:47-58 | a 401 fails with exactly the session-expired text, whatever its body |
| Api.ApiService.Request | src/services/api.js:33-96 | sends `BuildRequest` with the token held at the call; result is `Outcome`; a 401 clears the token and removes `authToken` and `user`; anything else leaves token and storage unchanged |
| Api.TranslateLoginError | src/services/api.js:126-134 | the first of the three backend substrings that occurs decides its Russian message; any other message passes unchanged |
| Api.TranslateLoginErrorIdempotent | src/services/api.js:126-134 | translating a translated message changes nothing more |
| Api.OwnMessagesPassThrough | src/services/api.js:109-134 | the missing-jwt, missing-user and session-expired messages are never translated |
| Api.TranslateRegisterError | src/services/api.js:150-157 | the duplicate-account error becomes its Russian message; any other message passes unchanged |
| Api.LoginChecks | src/services/api.js:109-135 | a success is the request's own payload and carries a truthy `jwt` and a `user`; such a payload always succeeds; a failed request fails with its translated message |
| Api.LoginResult | src/services/api.js:99-136 | a success carries a truthy `jwt` and a `user`; a network failure never succeeds; `LoginSucceedsIff` gives both directions |
| Api.LoginSucceedsIff | src/services/api.js:99-136 | `login` succeeds if and only if the response is 2xx, JSON, with a truthy `jwt` and a `user`, and then returns that response |
| Api.WrongPasswordMessage | src/services/api.js:126-127 | the backend's wrong-password error body surfaces as 'Неверный логин или пароль' |
| Api.ApiService.CheckLogin | src/services/api.js:109-135 | after the request: a truthy `jwt` and a `user` install the token; otherwise the token is cleared and the failure translated |
| Api.ApiService.Login | src/services/api.js:99-136 | posts the trimmed identifier; success installs `jwt` as token and in storage; every failure leaves no token, and a 401 also removes the stored user |
| Api.ApiService.Register | src/services/api.js:138-158 | installs the token only when the response has a truthy `jwt`; failures are translated and leave the state as `request` left it |
| Api.RegisterResult | src/services/api.js:138-158 | succeeds exactly when the request does, with its payload unchanged and no `jwt` demanded; a failure carries the translated message |
| Api.ApiService.Logout | src/services/api.js:160-163 | token cleared; `authToken` and `user` removed; no other key changes |
| Api.ApiService.GetCurrentUser | src/services/api.js:165-171 | without a truthy token it fails with 'Нет токена аутентификации' and sends nothing; otherwise it is `request('/users/me?populate=role')` |
| Api.Route | src/services/api.js:173-300 | no resource call adds headers; the reads send no method (GET), the creates POST, the updates PUT and the deletes DELETE, each if and only if; `BodyShape` gives the bodies, `ResourcePaths` the paths and `PopulateAfterQuery` the double `?` |
| Api.BodyShape | src/services/api.js:173-300 | driving, exam and timetable writes send `{data: record}`; user and generic writes send the record; reads and deletes send no body, and only they |
| Api.ResourcePaths | src/services/api.js:173-272 | a list path gets `?query` only for a non-empty query, so without one the users and timetables paths have no `?`; creates post to the collection and users register at `/auth/local/register`; each update and delete addresses `/<collection>/<id>` |
| Api.RecordPathsDistinct | src/services/api.js:187-272 | two record paths under the same prefix are equal only for the same id |
| Api.PopulateAfterQuery | src/services/api.js:200-229 | with a non-empty query the driving and exam list paths carry two `?` |
| Api.ApiService.Call | src/services/api.js:173-300 | every resource operation is `request` on its route, with the 401 policy and nothing else changing |
| Api.HealthUrl | src/services/api.js:309 | the URL ends with `/`; a base URL without `/api` is kept whole; in one with it, the first `/api` is cut out, leaving what came before it and what came after it, then `/` is appended |
| Api.HealthCheck | src/services/api.js:307-315 | healthy exactly when a response arrived with a 2xx status; a network failure is unhealthy |
| Api.ApiService.IsAuthenticated | src/services/api.js:302-304 | `!!this.token`; `SetToken` states that it equals the new token's truthiness |
| AuthContext.IsAdminUser | src/contexts/AuthContext.jsx:66-78 | the live `isAdminUser`; `IsAdminUserIff` states it |
| AuthContext.IsAdminUserIff | src/contexts/AuthContext.jsx:66-78 | `isAdminUser` is false for no user and true for every user |
| AuthContext.AuthProvider.constructor | src/contexts/AuthContext.jsx:15-17 | no user, not authenticated, loading |
| AuthContext.AuthProvider.Logout | src/contexts/AuthContext.jsx:154-169 | from any state: no user, not authenticated, no token, `user` and `authToken` removed, every other key and `loading` kept |
| AuthContext.AuthProvider.CheckAuthStatus | src/contexts/AuthContext.jsx:23-64 | without both stored keys it signs out, sending nothing; with both it installs the token and asks `/users/me`; a user is installed and stored again, anything else signs out; `loading` ends false |
| AuthContext.CurrentUserOutcome | src/services/api.js:165-171 | what `getCurrentUser` yields with and without a truthy token |
| AuthContext.UserWithRole | src/contexts/AuthContext.jsx:122-129 | the `/users/me` user, or the login response's user when that request failed |
| AuthContext.AfterClientLogin | src/contexts/AuthContext.jsx:119-144 | what the context's `login` makes of the client's login and `/users/me`; `LoginOutcomeIff` states it |
| AuthContext.LoginOutcome | src/contexts/AuthContext.jsx:104-152 | what the context's `login` returns or throws for the two exchanges; `LoginOutcomeIff` and `FallbackToLoginUser` state it |
| AuthContext.LoginOutcomeIff | src/contexts/AuthContext.jsx:104-152 | the context's login succeeds if and only if the client's login does and `/users/me` fails or returns a user; the result is the login response with that user; a missing user fails with 'У вас нет прав администратора' |
| AuthContext.FallbackToLoginUser | src/contexts/AuthContext.jsx:122-129 | a failing `/users/me` after a good login still signs in with the login response's user |
| AuthContext.AuthProvider.Login | src/contexts/AuthContext.jsx:104-152 | result as `LoginOutcomeIff` describes; success sets `user` and `isAuthenticated` and stores the user beside the token; failure signs out and removes both keys; `loading` ends false |
| AuthContext.AuthProvider.DiscardSession | src/contexts/AuthContext.jsx:145-148 | the `logout` of a failed login: signed out and both keys gone, even when `request` had already removed some |
| AuthContext.AuthProvider.InstallLoggedInUser | src/contexts/AuthContext.jsx:119-144 | after the client's login: the role check decides between signing in as the chosen user and `apiService.logout` with the not-admin failure |
| AuthContext.AuthProvider.RefreshUser | src/contexts/AuthContext.jsx:171-191 | nothing happens when not authenticated; a returned user is installed, stored and returned; a missing user or a failure signs out, and the failure is rethrown |
| ProtectedRoute.Gate | src/components/auth/ProtectedRoute.jsx:7-31 | spinner while loading; the login form when not loading and not authenticated; the children otherwise |
| ProtectedRoute.GateCases | src/components/auth/ProtectedRoute.jsx:10-30 | each of the three screens is shown exactly in its own case |
| UseApiError.ShownMessage | src/hooks/useApiError.js:40-46 | the message when it is non-empty, else the generic text; never empty |
| UseApiError.AuthLike | src/hooks/useApiError.js:32-34 | the three markers of an authentication failure; `SessionExpiredIsAuthLike` and `ShownError` state what it decides |
| UseApiError.ShownError | src/hooks/useApiError.js:32-48 | an error is shown if and only if it is an `Error` whose message is not auth-like, and then as `ShownMessage` |
| UseApiError.SessionExpiredIsAuthLike | src/hooks/useApiError.js:32-34 | the client's own 401 message is auth-like |
| UseApiError.Ending | src/hooks/useApiError.js:21-54 | how `handleApiCall` exits, including the `TypeError` for a thrown string; `EndingCases` states it |
| UseApiError.EndingCases | src/hooks/useApiError.js:21-54 | returns the result if and only if the call succeeded; returns `undefined` if and only if the error is auth-like; every other `Error` is rethrown as it is |
| UseApiError.SessionExpiryIsSilent | src/hooks/useApiError.js:32-37 | an expired session ends with `undefined` and nothing shown |
| UseApiError.ApiErrorState.constructor | src/hooks/useApiError.js:5-6 | no error, not loading |
| UseApiError.ApiErrorState.HandleApiCall | src/hooks/useApiError.js:9-58 | result as `Ending`; `error` cleared at start when asked and set only for a shown error; `onSuccess`/`onError` receive the result or error; auth-like errors sign out, others leave the session alone; `loading` ends false when shown |
| UseApiError.ApiErrorState.ClearError | src/hooks/useApiError.js:60-62 | `error` becomes null and `loading` is kept |
| Timetable.NewDraft | src/components/timetable/TimetableManagement.jsx:77-83 | empty title and description, starting now and ending one hour later |
| Timetable.EditDraft | src/components/timetable/TimetableManagement.jsx:68-75 | the event's title, start and end; a missing description becomes empty |
| Timetable.Invalid | src/components/timetable/TimetableManagement.jsx:94-102 | a blank trimmed title is refused first, then an end not after the start; valid if and only if neither |
| Timetable.ToPayload | src/components/timetable/TimetableManagement.jsx:105-110 | title trimmed; description trimmed and null exactly when nothing is left |
| Timetable.ValidPayload | src/components/timetable/TimetableManagement.jsx:94-110 | a valid draft sends a non-empty title with no surrounding whitespace, and an interval that ends after it starts |
| Timetable.EditRoundTrip | src/components/timetable/TimetableManagement.jsx:67-110 | saving an edited event unchanged sends its own fields back, normalised |
| Timetable.SaveCall | src/components/timetable/TimetableManagement.jsx:112-116 | update of the edited event, else create |
| Timetable.JsRemainder | src/components/timetable/TimetableManagement.jsx:152 | JavaScript's `%`: the dividend is the divisor times the quotient truncated toward zero, plus the remainder; the remainder has the dividend's sign and is smaller than the divisor |
| Timetable.DurationParts | src/components/timetable/TimetableManagement.jsx:150-152 | for any interval: the hours are the floor of the interval in hours, and the minutes are the floor, in minutes, of the interval's JavaScript remainder by an hour, so they lie between -60 and 59 |
| Timetable.DurationPartsBounds | src/components/timetable/TimetableManagement.jsx:150-152 | for a forward interval: whole hours and minutes between 0 and 59 that account for the interval to within a minute |
| Timetable.Duration | src/components/timetable/TimetableManagement.jsx:147-158 | the text always ends with 'м' and contains 'ч' exactly when the interval is at least one hour |
| Timetable.DurationText | src/components/timetable/TimetableManagement.jsx:147-158 | 'Hч Mм' when there is a whole hour, 'Mм' otherwise |
| Timetable.BackwardsInterval | src/components/timetable/TimetableManagement.jsx:147-158 | an interval running backwards by less than an hour has hours -1 and minutes from -60 to -1 that bound it to within a minute, and shows '-' followed by the minute count and 'м' |
| Timetable.TimetableScreen.constructor | src/components/timetable/TimetableManagement.jsx:38-48 | no events, loading, no error, dialog closed, a new-event draft |
| Timetable.TimetableScreen.FetchTimetables | src/components/timetable/TimetableManagement.jsx:54-65 | one load; success sets `data` or [] and clears the error; failure keeps the list and sets the prefixed error; `loading` ends false |
| Timetable.TimetableScreen.OpenDialog | src/components/timetable/TimetableManagement.jsx:67-86 | opens on the event's draft or a new one; records what is edited |
| Timetable.TimetableScreen.CloseDialog | src/components/timetable/TimetableManagement.jsx:88-91 | closes and forgets the edited event; nothing else changes |
| Timetable.TimetableScreen.Submit | src/components/timetable/TimetableManagement.jsx:93-124 | an invalid draft sets its message and makes no call; otherwise `Save` |
| Timetable.TimetableScreen.Save | src/components/timetable/TimetableManagement.jsx:104-123 | save call; a failure sets the save error; a success refetches, closes the dialog and clears the error |
| Timetable.TimetableScreen.Delete | src/components/timetable/TimetableManagement.jsx:126-135 | no call unless confirmed; a confirmed delete refetches on success and sets the delete error on failure |
| Driving.AssigneeOf | src/components/driving/DrivingManagement.jsx:88 | the assigned user's id, or nobody for no user or the falsy id 0 |
| Driving.SubmittedUser | src/components/driving/DrivingManagement.jsx:114 | nobody is sent as null, a user as its id |
| Driving.NewDraft | src/components/driving/DrivingManagement.jsx:92-98 | no type, starting now, no end, in progress, nobody assigned |
| Driving.EditDraft | src/components/driving/DrivingManagement.jsx:83-89 | the booking's type, start, end (absent stays absent), status and user id |
| Driving.ToPayload | src/components/driving/DrivingManagement.jsx:110-115 | the draft's fields, with nobody sent as null |
| Driving.EditRoundTrip | src/components/driving/DrivingManagement.jsx:81-115 | saving an edited booking unchanged sends its own fields and its user's id |
| Driving.NewBookingPayload | src/components/driving/DrivingManagement.jsx:92-115 | a new booking saved as drafted is in progress with no end and no user |
| Driving.StatusColor | src/components/driving/DrivingManagement.jsx:141-150 | passed is 'success', failed is 'error', each if and only if; everything else 'info' |
| Driving.Loaded | src/components/driving/DrivingManagement.jsx:65-71 | both lists or nothing, with `data` or [] and the users or []; the driving failure is reported first |
| Driving.DrivingScreen.constructor | src/components/driving/DrivingManagement.jsx:44-56 | nothing loaded, loading, no error, dialog closed, a new-booking draft |
| Driving.DrivingScreen.FetchData | src/components/driving/DrivingManagement.jsx:62-78 | two loads; success sets both lists and clears the error; failure keeps them and sets the prefixed error; `loading` ends false |
| Driving.DrivingScreen.OpenDialog | src/components/driving/DrivingManagement.jsx:80-101 | opens on the booking's draft or a new one |
| Driving.DrivingScreen.CloseDialog | src/components/driving/DrivingManagement.jsx:103-106 | closes and forgets the edited booking; nothing else changes |
| Driving.DrivingScreen.Submit | src/components/driving/DrivingManagement.jsx:108-128 | update of the edited booking, else create; failure sets the save error; success refetches and closes the dialog |
| Driving.DrivingScreen.Delete | src/components/driving/DrivingManagement.jsx:130-139 | no call unless confirmed; on success a refetch, on failure the delete error |
| Exams.AssigneeOf | src/components/exams/ExamManagement.jsx:86 | the assigned user's id, or nobody for no user or the falsy id 0 |
| Exams.SubmittedUser | src/components/exams/ExamManagement.jsx:110 | nobody is sent as null, a user as its id |
| Exams.NewDraft | src/components/exams/ExamManagement.jsx:90-95 | no type, starting now, in progress, nobody assigned |
| Exams.EditDraft | src/components/exams/ExamManagement.jsx:80-87 | the exam's type, start, status and user id |
| Exams.ToPayload | src/components/exams/ExamManagement.jsx:107-111 | the draft's fields, with nobody sent as null |
| Exams.EditRoundTrip | src/components/exams/ExamManagement.jsx:79-111 | saving an edited exam unchanged sends its own fields and its user's id |
| Exams.NewBookingPayload | src/components/exams/ExamManagement.jsx:89-111 | a new exam saved as drafted is in progress with no user |
| Exams.StatusColor | src/components/exams/ExamManagement.jsx:137-146 | passed is 'success', failed is 'error', each if and only if; everything else 'info' |
| Exams.Loaded | src/components/exams/ExamManagement.jsx:64-70 | both lists or nothing; the exam failure is reported first |
| Exams.ExamScreen.constructor | src/components/exams/ExamManagement.jsx:44-55 | nothing loaded, loading, no error, dialog closed, a new-exam draft |
| Exams.ExamScreen.FetchData | src/components/exams/ExamManagement.jsx:61-77 | two loads; success sets both lists and clears the error; failure sets the prefixed error; `loading` ends false |
| Exams.ExamScreen.OpenDialog | src/components/exams/ExamManagement.jsx:79-98 | opens on the exam's draft or a new one |
| Exams.ExamScreen.CloseDialog | src/components/exams/ExamManagement.jsx:100-103 | closes and forgets the edited exam; nothing else changes |
| Exams.ExamScreen.Submit | src/components/exams/ExamManagement.jsx:105-124 | update of the edited exam, else create; failure sets the save error; success refetches and closes the dialog |
| Exams.ExamScreen.Delete | src/components/exams/ExamManagement.jsx:126-135 | no call unless confirmed; on success a refetch, on failure the delete error |
| Names.FullName | src/components/users/UsersTable.jsx:75-80 | 'name surname' when both are truthy, else the username |
| Names.FullNameParts | src/components/users/UsersTable.jsx:76-78 | a full name starts with the name, ends with the surname, with one space between |
| Names.AssigneeName | src/components/driving/DrivingManagement.jsx:152-155 | 'Не назначен' for no user, else `FullName` (the exam screen's `getUserName` is the same) |
| LoginForm.Validate | src/components/auth/LoginForm.jsx:55-72 | valid if and only if the trimmed identifier is non-empty and the password is at least 3 UTF-16 code units long; otherwise the first violated rule's message |
| LoginForm.BlankIdentifierRefused | src/components/auth/LoginForm.jsx:56-59 | an identifier of whitespace only is refused whatever the password |
| LoginForm.PasswordLengthInCodeUnits | src/components/auth/LoginForm.jsx:66-69 | two emoji make a long enough password (4 code units), two ordinary letters do not |
| LoginForm.SubmitErrorText | src/components/auth/LoginForm.jsx:91-103 | the error's message, else the thrown string, else 'Произошла ошибка при входе' |
| LoginForm.WrongPasswordShown | src/components/auth/LoginForm.jsx:87-103 | a wrong password at the backend shows 'Неверный логин или пароль' |
| LoginForm.StatusColor | src/components/auth/LoginForm.jsx:109-115 | online, offline and checking each have their own colour, if and only if |
| LoginForm.StatusText | src/components/auth/LoginForm.jsx:117-123 | the fixed text of each server status |
| LoginForm.StatusShownDistinctly | src/components/auth/LoginForm.jsx:109-123 | two different statuses differ in both text and colour |
| LoginForm.LoginFormState.constructor | src/components/auth/LoginForm.jsx:20-27 | empty fields, not submitting, no error, status being checked |
| LoginForm.LoginFormState.CheckServerHealth | src/components/auth/LoginForm.jsx:33-40 | online if and only if the health check saw a 2xx response; nothing else changes |
| LoginForm.LoginFormState.Enabled | src/components/auth/LoginForm.jsx:204-229 | the fields and the button accept input exactly when no sign-in runs and the server is not offline |
| LoginForm.LoginFormState.HandleChange | src/components/auth/LoginForm.jsx:42-53 | only the named field changes; a shown error is cleared; it requires `Enabled`, since a disabled field cannot be edited |
| LoginForm.LoginFormState.Submit | src/components/auth/LoginForm.jsx:74-107 | it requires `Enabled`, since a disabled button cannot submit; an invalid form sets its message and leaves the auth context, the token and the storage as they were; a valid one ends as `SignIn` does (`Settled`): on success signed in as the payload's user, with the token kept (or cleared after a 401 from `/users/me`) and the user stored |
| LoginForm.LoginFormState.Refuse | src/components/auth/LoginForm.jsx:55-72 | a failed check shows its message and changes nothing else |
| LoginForm.LoginFormState.SignIn | src/components/auth/LoginForm.jsx:81-106 | the context's `login` (ProtectedRoute passes it in) with the fields as typed (`Settled`): the result is the client's login outcome; its failure text is shown and the session is signed out with both keys removed; a success signs in as the payload's user, the token being the payload's JWT, or none after a 401 from `/users/me`, and the storage gains the token and the user; `loading` ends false |
| UserRegistration.NullIfEmpty | src/components/users/UserRegistration.jsx:64-68 | null exactly for the empty text, else the text |
| UserRegistration.MissingRequired | src/components/users/UserRegistration.jsx:50 | a required field is missing when it is empty, untrimmed; `SpacesPassRequiredCheck` states what that lets through |
| UserRegistration.SpacesPassRequiredCheck | src/components/users/UserRegistration.jsx:50-53 | every non-empty username, email and password pass the check, even a username of whitespace only, which a trimmed check would refuse |
| UserRegistration.ToRegistration | src/components/users/UserRegistration.jsx:60-71 | required fields as typed, optional ones null when empty, role 'student', `blocked` passed through |
| UserRegistration.RegistrationRoundTrip | src/components/users/UserRegistration.jsx:60-71 | the form can be read back from the record: normalisation loses nothing |
| UserRegistration.WithText | src/components/users/UserRegistration.jsx:39-45 | only the named text field takes the value |
| UserRegistration.WithTextIdempotent | src/components/users/UserRegistration.jsx:39-45 | typing the same value twice is typing it once |
| UserRegistration.RegistrationScreen.constructor | src/components/users/UserRegistration.jsx:23-37 | the empty form, nothing shown |
| UserRegistration.RegistrationScreen.ChangeText | src/components/users/UserRegistration.jsx:39-45 | the named text field changes, nothing else |
| UserRegistration.RegistrationScreen.ChangeBlocked | src/components/users/UserRegistration.jsx:39-45 | the checkbox stores its `checked` state |
| UserRegistration.RegistrationScreen.Submit | src/components/users/UserRegistration.jsx:47-96 | missing required fields: the error and no call; otherwise one create; success shows the notice and resets the form to empty; failure sets the prefixed error; `loading` ends false |
| UserRegistration.RegistrationScreen.HideSuccess | src/components/users/UserRegistration.jsx:89 | the timer hides the success notice and changes nothing else |
| UsersTable.StatusColor | src/components/users/UsersTable.jsx:62-73 | completed, in progress and suspended have their own colours, if and only if; everything else is muted |
| UsersTable.NotStartedIsMuted | src/components/users/UsersTable.jsx:62-73 | 'Не начато' gets the muted colour |
| UsersTable.StudyLabel | src/components/users/UsersTable.jsx:144 | the study status, or 'Не указан' when it is missing or empty |
| UsersTable.DrivingCount | src/components/users/UsersTable.jsx:82-84 | the number of populated bookings, 0 when absent |
| UsersTable.ExamCount | src/components/users/UsersTable.jsx:86-88 | the number of populated exams, 0 when absent |
| UsersTable.BlockedChip | src/components/users/UsersTable.jsx:164-169 | 'Заблокирован' in error colour for a blocked user, else 'Активен' in success colour |
| UsersTable.BlockButton | src/components/users/UsersTable.jsx:178-185 | a blocked user's button unblocks, an active user's blocks |
| UsersTable.ButtonTogglesBlocked | src/components/users/UsersTable.jsx:53-60 | the button names the action `handleBlockUser` takes, and the chip after it shows the opposite state |
| UsersTable.Shown | src/components/users/UsersTable.jsx:90-104 | the spinner if and only if loading; the alert if and only if not loading with a truthy error |
| UsersTable.UsersTableScreen.constructor | src/components/users/UsersTable.jsx:30-32 | no users, loading, no error |
| UsersTable.UsersTableScreen.FetchUsers | src/components/users/UsersTable.jsx:38-51 | one load with the populate query; success stores the response as is and clears the error; failure sets the prefixed error |
| UsersTable.UsersTableScreen.BlockUser | src/components/users/UsersTable.jsx:53-60 | sends `{blocked: !blocked}` for that id, then refetches; a failure sets the prefixed error |
| UserProfile.RoleName | src/components/auth/UserProfile.jsx:60-64 | the label of the three known role keys, nothing for any other key |
| UserProfile.RoleLabel | src/components/auth/UserProfile.jsx:56-67 | the default with no role; else by `type`, then `name`, then the raw name, then the default |
| UserProfile.RoleLabelNonEmpty | src/components/auth/UserProfile.jsx:56-67 | the role label is never empty |
| UserProfile.DisplayName | src/components/auth/UserProfile.jsx:50-54 | username, else e-mail, else 'Администратор'; never empty |
| UserProfile.Initials | src/components/auth/UserProfile.jsx:43-48 | 'A' with no user; else the first UTF-16 code unit of username, else e-mail, else 'Admin', upper-cased when it is a whole character; a leading character outside the Basic Multilingual Plane leaves only its high surrogate |
| UserProfile.InitialOfDisplayName | src/components/auth/UserProfile.jsx:43-54 | with a username or e-mail, the avatar shows the first code unit of the displayed name, upper-cased |
| UserProfile.AstralInitial | src/components/auth/UserProfile.jsx:45-47 | a username starting with an emoji gives the avatar the lone high surrogate U+D83D |
| UserProfile.FormatDate | src/components/auth/UserProfile.jsx:69-83 | 'Неизвестно' for a falsy date, else the formatted text |
| UserProfile.ProfileMenu.constructor | src/components/auth/UserProfile.jsx:27-28 | the menu starts closed |
| UserProfile.ProfileMenu.HandleClick | src/components/auth/UserProfile.jsx:30-32 | the menu opens |
| UserProfile.ProfileMenu.HandleClose | src/components/auth/UserProfile.jsx:34-36 | the menu closes |
| UserProfile.ProfileMenu.HandleLogout | src/components/auth/UserProfile.jsx:38-41 | the menu closes and the context signs out, removing both stored keys |
| AdminLayout.Find | src/components/layout/AdminLayout.jsx:64 | the first item with the path, or none if and only if no item has it |
| AdminLayout.PageTitle | src/components/layout/AdminLayout.jsx:63-66 | 'Административная панель' when no menu item has the path |
| AdminLayout.TitleOfMenuItem | src/components/layout/AdminLayout.jsx:35-66 | on a menu item's page the title is that item's text |
| AdminLayout.PathsDistinct | src/components/layout/AdminLayout.jsx:35-41 | no two menu items share a path |
| AdminLayout.OneSelected | src/components/layout/AdminLayout.jsx:90-93 | at most one item is drawn selected, and it is the one the title names |
| AdminLayout.SidebarName | src/components/layout/AdminLayout.jsx:137 | the sidebar name is the profile's display name |
| AdminLayout.RoleCaption | src/components/layout/AdminLayout.jsx:139-142 | shown only with a role: its name, else its type, else the default |
| AdminLayout.CaptionIsUntranslated | src/components/layout/AdminLayout.jsx:139-142 | the role 'admin' is captioned 'admin' while the profile menu says 'Администратор' |
| AdminLayout.Renders | src/components/layout/AdminLayout.jsx:148-151 | the frame draws nothing unless the user is authenticated; `GuardBehindGate` relates it to `ProtectedRoute` |
| AdminLayout.GuardBehindGate | src/components/layout/AdminLayout.jsx:148-151 | the frame sits inside `ProtectedRoute` (src/App.jsx, lines 106-117): its guard never hides a page the gate lets through, and when it hides the frame the gate shows the spinner or the sign-in form |
| AdminLayout.Layout.constructor | src/components/layout/AdminLayout.jsx:44-45 | drawer closed, no notification |
| AdminLayout.Layout.DrawerToggle | src/components/layout/AdminLayout.jsx:50-52 | the drawer flips; nothing else changes |
| AdminLayout.Layout.MenuClick | src/components/layout/AdminLayout.jsx:54-57 | navigation to the path and the drawer closed |
| AdminLayout.Layout.CloseNotification | src/components/layout/AdminLayout.jsx:59-61 | the notification is cleared; nothing else changes |
| Types.StatusesDistinct | src/types/index.js:22-39 | the three driving statuses are pairwise distinct, and so are the three exam statuses |
| Types.InProgressShared | src/types/index.js:8-36 | 'В процессе' is shared by the study, driving and exam statuses |
| Types.SharedVenues | src/types/index.js:16-33 | driving and exam types share 'Автодром' and 'Город'; their third types differ |
| Types.CreateApiResponse | src/types/index.js:42-45 | `data` unchanged, `meta` as given |
| Types.DefaultMetaIsNull | src/types/index.js:42-45 | without `meta` the response has `meta: null` |
| Types.CreateAuthResponse | src/types/index.js:47-50 | exactly the given `jwt` and `user` |
| Records.SerializeUser | src/contexts/AuthContext.jsx:142 | the text stored under `user` in place of `JSON.stringify(user)` is never empty, which is all the context reads of it (AuthContext.jsx, line 28) |
| Json.EscapeChar | src/services/api.js:103-106 | one character escapes to itself exactly when it is printable and is neither quote nor backslash |
| Json.Quote | src/services/api.js:103-106 | a JSON string literal is quoted at both ends |
| Json.UnescapeEscape | src/services/api.js:103-106 | the escaped text of a string reads back as that string |
| Json.Stringify | src/services/api.js:103-106 | the JSON text of a value is never empty |
| Text.OrElse | src/components/auth/UserProfile.jsx:53 | `a or b` on string fields: `a` when truthy, else `b` |
| Text.TrimStart | src/services/api.js:104 | the longest suffix not starting with whitespace |
| Text.TrimEnd | src/services/api.js:104 | the longest prefix not ending with whitespace |
| Text.Trim | src/services/api.js:104 | `s.trim()`; `TrimIsCore`, `TrimIdempotent` and `BlankIffAllWhitespace` state what it returns |
| Text.TrimIsCore | src/services/api.js:104 | `trim` leaves a slice bordered only by whitespace, and it starts and ends with non-whitespace |
| Text.TrimIdempotent | src/components/auth/LoginForm.jsx:56 | trimming twice is trimming once |
| Text.BlankIffAllWhitespace | src/components/auth/LoginForm.jsx:56 | a string trims to empty if and only if all its characters are whitespace |
| Text.IndexOf | src/services/api.js:309 | the first occurrence, or -1 if and only if there is none |
| Text.Includes | src/services/api.js:126-132 | `String.prototype.includes`; `IncludesIff` states it |
| Text.IncludesIff | src/services/api.js:126-132 | `includes` holds if and only if the pattern occurs somewhere |
| Text.IncludesTrivia | src/services/api.js:126 | a string includes itself and the empty string |
| Text.IncludesInContext | src/hooks/useApiError.js:32-34 | an occurrence stays one inside a longer text |
| Text.ReplaceFirst | src/services/api.js:309 | `replace` changes only the first occurrence, and nothing when there is none |
| Text.NatToString | src/services/api.js:61 | decimal digits with no leading zero |
| Text.IntToString | src/services/api.js:187 | `String(i)`: a minus sign exactly for a negative number, then digits only |
| Text.NatToStringRoundTrip | src/services/api.js:61 | the decimal text reads back as the number |
| Text.NatToStringInjective | src/services/api.js:61 | different numbers have different texts, so `HTTP <status>` tells statuses apart |
| Text.IntToStringInjective | src/services/api.js:187-213 | different ids give different texts, so `/users/${id}` and the other record paths name one record each |
| Text.UpperCase | src/components/auth/UserProfile.jsx:47 | Latin lower-case letters become capitals, capitals stay, and the result is one character or 'SS' |
| Text.FirstUpper | src/components/auth/UserProfile.jsx:47 | empty if and only if the string is empty; a first character inside the Basic Multilingual Plane is upper-cased whole; one outside leaves only its high surrogate, the first code unit, unchanged |
| Text.CharUnits | src/components/auth/LoginForm.jsx:66 | one code unit equal to the character inside the Basic Multilingual Plane; outside it a high and a low surrogate that give the character back |
| Text.Utf16 | src/components/auth/LoginForm.jsx:66 | between one and two code units per character, and the first code unit is the first character's |
| Text.Length | src/components/auth/LoginForm.jsx:66 | `s.length`: the number of UTF-16 code units; `LengthWithoutAstral` and `Utf16Append` state its properties |
| Text.LengthWithoutAstral | src/components/auth/LoginForm.jsx:66 | a text with no character outside the Basic Multilingual Plane has one code unit per character, each equal to it |
| Text.Utf16Append | src/components/auth/LoginForm.jsx:66 | the code units of a concatenation are those of its parts, so `length` adds up |

## Left out

- HTTP itself: `fetch`, response parsing and `healthCheck`'s request are inputs (`Exchange`). A body that is not JSON is one case, and the engine's `SyntaxError` text is the stand-in `Api.InvalidJsonBody`.
- `window.location.reload()` on a 401 is a browser effect. Only the state changes and the thrown error are modelled.
- `window.confirm` is the `confirmed` parameter of the delete handlers.
- The `setTimeout` in the registration screen is a timer. `RegistrationScreen.HideSuccess` is its callback, run whenever the caller chooses.
- `Promise.all` runs its fetches concurrently. The model runs them in order, all or nothing, and reports the first list's failure when both fail.
- Dates are integer milliseconds. `Date.now()` is the `now` parameter. `toISOString`, `toLocaleString` and `toLocaleDateString` are not modelled. So a date picker that was cleared or holds an invalid date, which makes `toISOString()` throw inside the save's `try` and shows the save error (TimetableManagement.jsx, lines 108-109; DrivingManagement.jsx, line 112; ExamManagement.jsx, line 109), has no counterpart: every draft instant is an integer. Also, `UserProfile.FormatDate` takes the formatted text as input, and the timetable's `formatDateTime` is left out.
- `getDuration` runs in floating point. The model uses integer milliseconds, which is where the dates come from.
- Error fields are strings. Strapi's `details` can be an object, and its string conversion is not modelled.
- Text.UpperCase: covers basic Latin, Latin-1 (with `µ`, `ß` and `ÿ`) and basic Cyrillic letters only. Every other character stays as it is, which is weaker than full Unicode case mapping.
- `URLSearchParams` encoding is not modelled: the query is an opaque string. The users table's `populate=drivings%2Cexams` is written out.
- `UserProfile.RoleName` does not model keys such as `constructor` that the object literal inherits from `Object.prototype`.
- `AuthContext.AuthProvider.Login`: the 'Неверный ответ сервера' branch cannot be reached, because the client's login has already demanded a `jwt` and a `user`. The model has no code for it.
- The commented-out role check in `isAdminUser` is dead code. The live predicate is modelled.
- Records.SerializeUser: it does not model the text the browser stores. The application stores the backend's user object with whatever fields it sent, and `JSON.stringify` leaves out undefined fields; the model writes the eleven fields of `Records.User` in a fixed order, with `null` for an absent one. The context only tests the stored entry for truthiness, so nothing in the model depends on that text.
- Json.Stringify: only its non-emptiness is proved, and not that different values give different texts.
- React rendering, mounting and effects are not modelled: JSX, MUI, theming and the `useEffect` calls that start each fetch. One consequence: while the context's `login` runs, `loading` is true, so `ProtectedRoute` shows its spinner in place of the login form, and the form's error is not on screen. `LoginFormState.SignIn` models the form's state as the code writes it. The fields and the submit button are disabled while `loading` or offline; the model states this as the precondition `LoginFormState.Enabled` of `HandleChange` and `Submit`.
- The browser's own constraint validation is not modelled. The inputs are marked `required`, and the e-mail input is `type="email"` (src/components/users/UserRegistration.jsx:126, 138-139 and 151; src/components/auth/LoginForm.jsx:197 and 211), so the browser blocks submission before any handler runs. From the page, the `RequiredFieldsMissing` branch of `UserRegistration.RegistrationScreen.Submit` and the empty-field messages of `LoginForm.Validate` therefore cannot be reached, and an e-mail the browser rejects never reaches the request. A whitespace-only identifier still passes the browser and reaches `Validate`.
- Console output is not modelled.
- UseApiError.ApiErrorState.HandleApiCall: the options `showLoading` and `clearErrorOnStart` are plain parameters. A call with no options, which the hook defaults to `true` for both, is the call with `(true, true)`.
- `src/App.jsx`, `src/components/common/ErrorBoundary.jsx`, `src/components/debug/UserDebugInfo.jsx`, `src/constants/styles.js` and `src/constants/api.js` are not part of this model. The base URL is a constructor parameter, and the colours the screens use are written out as constants.
- The users table's edit and delete buttons have no handlers in the code, so there is nothing to model.
