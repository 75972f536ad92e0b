/**
 * The shared enumerations of the application (the values the backend
 * stores for statuses and types) and the two response constructors.
 */
module Types {
  import opened Wrappers
  import opened Records

  const UserActive: string := "active"
  const UserBlocked: string := "blocked"
  const UserPending: string := "pending"

  const StudyNotStarted: string := "Не начато"
  const StudyInProgress: string := "В процессе"
  const StudyCompleted: string := "Завершено"
  const StudySuspended: string := "Приостановлено"

  const DrivingSimulator: string := "Симулятор"
  const DrivingAutodrome: string := "Автодром"
  const DrivingCity: string := "Город"

  const DrivingInProgress: string := "В процессе"
  const DrivingPassed: string := "Пройдено"
  const DrivingFailed: string := "Не пройдено"

  const ExamTesting: string := "Тестирование"
  const ExamAutodrome: string := "Автодром"
  const ExamCity: string := "Город"

  const ExamInProgress: string := "В процессе"
  const ExamPassed: string := "Сдан"
  const ExamFailed: string := "Не сдан"

  /** The three values of each status enumeration name three different states. */
  lemma StatusesDistinct()
    ensures DrivingInProgress != DrivingPassed && DrivingInProgress != DrivingFailed && DrivingPassed != DrivingFailed
    ensures ExamInProgress != ExamPassed && ExamInProgress != ExamFailed && ExamPassed != ExamFailed
  {
  }

  /** "In progress" is written the same way for study, driving and exam statuses. */
  lemma InProgressShared()
    ensures StudyInProgress == DrivingInProgress == ExamInProgress
  {
  }

  /** Driving lessons and exams share the autodrome and city types; only the third type differs. */
  lemma SharedVenues()
    ensures DrivingAutodrome == ExamAutodrome && DrivingCity == ExamCity
    ensures DrivingSimulator != ExamTesting
  {
  }

  /** `{ data, meta }`. */
  datatype ApiResponse<T, M> = ApiResponse(data: T, meta: Option<M>)

  /** `createApiResponse(data, meta = null)`. */
  function CreateApiResponse<T, M>(data: T, meta: Option<M> := None): (r: ApiResponse<T, M>)
    ensures r.data == data && r.meta == meta
  {
    ApiResponse(data, meta)
  }

  /** Without a second argument the response has `meta: null`. */
  lemma DefaultMetaIsNull<T, M>(data: T)
    ensures CreateApiResponse<T, M>(data).meta == None
    ensures CreateApiResponse<T, M>(data).data == data
  {
  }

  /** `createAuthResponse(jwt, user)`: exactly the two fields a login response carries. */
  function CreateAuthResponse(jwt: Option<string>, user: Option<User>): (r: AuthPayload)
    ensures r.jwt == jwt && r.user == user
  {
    AuthPayload(jwt, user)
  }
}
