/**
 * The records the backend returns, reduced to the fields the administration
 * client reads. A field the backend may leave out or send as `null` is an
 * `Option`; instants are integer milliseconds since the epoch.
 */
module Records {
  import opened Wrappers
  import opened Json

  /** A role as `/users/me?populate=role` returns it (`type` is `roleType` here). */
  datatype Role = Role(name: Option<string>, roleType: Option<string>)

  /**
   * A user record. `drivings` and `exams` hold the ids of the populated
   * relations when the request asked for them; only their number is used.
   */
  datatype User = User(
    id: int,
    username: Option<string>,
    email: Option<string>,
    name: Option<string>,
    surname: Option<string>,
    role: Option<Role>,
    blocked: bool,
    studyStatus: Option<string>,
    createdAt: Option<string>,
    drivings: Option<seq<int>>,
    exams: Option<seq<int>>)

  /** A timetable event. */
  datatype Timetable = Timetable(id: int, title: string, description: Option<string>, start: int, end: int)

  /** A driving-lesson booking; `user` is the populated `users_permissions_user` relation. */
  datatype Driving = Driving(
    id: int, drivingType: string, start: int, end: Option<int>, status: string, user: Option<User>)

  /** An exam booking; `user` is the populated `users_permissions_user` relation. */
  datatype Exam = Exam(id: int, examType: string, start: int, status: string, user: Option<User>)

  /** The body of a successful `POST /auth/local` or `POST /auth/local/register`. */
  datatype AuthPayload = AuthPayload(jwt: Option<string>, user: Option<User>)

  /** The body of a collection `GET`: the records are under `data`. */
  datatype ListPayload<T> = ListPayload(data: Option<seq<T>>)

  function RoleJson(r: Role): Json {
    JObj([("name", StrOrNull(r.name)), ("type", StrOrNull(r.roleType))])
  }

  function IdsJson(ids: seq<int>): Json {
    JArr(seq(|ids|, i requires 0 <= i < |ids| => JNum(ids[i])))
  }

  /**
   * A JSON rendering of the modelled user fields, in a fixed order, with
   * `null` for an absent one. It stands in for the object the application
   * stores, which is the backend's record with whatever fields it sent.
   */
  function UserJson(u: User): Json {
    JObj([
      ("id", JNum(u.id)),
      ("username", StrOrNull(u.username)),
      ("email", StrOrNull(u.email)),
      ("name", StrOrNull(u.name)),
      ("surname", StrOrNull(u.surname)),
      ("role", if u.role.Some? then RoleJson(u.role.value) else JNull),
      ("blocked", JBool(u.blocked)),
      ("study_status", StrOrNull(u.studyStatus)),
      ("createdAt", StrOrNull(u.createdAt)),
      ("drivings", if u.drivings.Some? then IdsJson(u.drivings.value) else JNull),
      ("exams", if u.exams.Some? then IdsJson(u.exams.value) else JNull)
    ])
  }

  /**
   * The text the model stores under the `user` key in place of
   * `JSON.stringify(user)`. The application only tests that entry for
   * truthiness, and this text is never empty.
   */
  function SerializeUser(u: User): (r: string)
    ensures r != ""
  {
    Stringify(UserJson(u))
  }
}
