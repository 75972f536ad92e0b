/**
 * The users table (`UsersTable`): loading the users with their driving and
 * exam bookings, blocking and unblocking a user, and what each row shows.
 */
module UsersTable {
  import opened Wrappers
  import opened Text
  import opened Records
  import opened Types
  import opened Names

  const LoadErrorPrefix: string := "Ошибка при загрузке пользователей: "
  const BlockErrorPrefix: string := "Ошибка при изменении статуса пользователя: "
  const NoStudyStatus: string := "Не указан"

  /** `new URLSearchParams({populate: 'drivings,exams'}).toString()`: the comma is percent-encoded. */
  const PopulateBookings: string := "populate=drivings%2Cexams"

  /** The colours of `COLORS` the study-status chip uses. */
  const SuccessColor: string := "#4caf50"
  const InfoColor: string := "#2196f3"
  const WarningColor: string := "#ff9800"
  const MutedColor: string := "#666666"

  /** The client calls the table makes. */
  datatype Call = LoadUsers(query: string) | SetBlocked(id: int, blocked: bool)

  /** What the table body shows: a spinner, the error alone, or the rows. */
  datatype View = Spinner | Alert(message: string) | Rows

  /** `getStatusColor(status)`: the study-status chip colour. */
  function StatusColor(status: Option<string>): (c: string)
    ensures c == SuccessColor <==> status == Some(StudyCompleted)
    ensures c == InfoColor <==> status == Some(StudyInProgress)
    ensures c == WarningColor <==> status == Some(StudySuspended)
    ensures c == MutedColor <==> status !in {Some(StudyCompleted), Some(StudyInProgress), Some(StudySuspended)}
  {
    if status == Some(StudyCompleted) then SuccessColor
    else if status == Some(StudyInProgress) then InfoColor
    else if status == Some(StudySuspended) then WarningColor
    else MutedColor
  }

  /** A user who has not started has no colour of their own. */
  lemma NotStartedIsMuted()
    ensures StatusColor(Some(StudyNotStarted)) == MutedColor
  {
  }

  /** The study-status chip's text: the status, or a placeholder when it is missing or empty. */
  function StudyLabel(u: User): (l: string)
    ensures TruthyField(u.studyStatus) ==> l == u.studyStatus.value
    ensures !TruthyField(u.studyStatus) ==> l == NoStudyStatus
  {
    OrElse(u.studyStatus, NoStudyStatus)
  }

  /** `getDrivingCount(user)`: the number of populated driving bookings, 0 when there are none. */
  function DrivingCount(u: User): (n: nat)
    ensures u.drivings.Some? ==> n == |u.drivings.value|
    ensures u.drivings.None? ==> n == 0
  {
    if u.drivings.Some? then |u.drivings.value| else 0
  }

  /** `getExamCount(user)`: the number of populated exam bookings, 0 when there are none. */
  function ExamCount(u: User): (n: nat)
    ensures u.exams.Some? ==> n == |u.exams.value|
    ensures u.exams.None? ==> n == 0
  {
    if u.exams.Some? then |u.exams.value| else 0
  }

  /** The blocked chip: its text and its colour. */
  function BlockedChip(u: User): (chip: (string, string))
    ensures u.blocked ==> chip == ("Заблокирован", "error")
    ensures !u.blocked ==> chip == ("Активен", "success")
  {
    if u.blocked then ("Заблокирован", "error") else ("Активен", "success")
  }

  /** The block button: its tooltip and its colour, which name the action it takes. */
  function BlockButton(u: User): (button: (string, string))
    ensures u.blocked ==> button == ("Разблокировать", "success")
    ensures !u.blocked ==> button == ("Заблокировать", "warning")
  {
    if u.blocked then ("Разблокировать", "success") else ("Заблокировать", "warning")
  }

  /** What the table shows for its state: loading wins, then a truthy error, then the rows. */
  function Shown(loading: bool, error: Option<string>): (v: View)
    ensures v == Spinner <==> loading
    ensures v.Alert? <==> !loading && TruthyField(error)
    ensures v.Alert? ==> v.message == error.value
  {
    if loading then Spinner else if TruthyField(error) then Alert(error.value) else Rows
  }

  class UsersTableScreen {
    /** The response as received: the table keeps it without a `|| []` fallback. */
    var users: Option<seq<User>>
    var loading: bool
    var error: Option<string>

    /** The first render: no users yet, loading. */
    constructor ()
      ensures users == Some([]) && loading && error == None
    {
      users := Some([]);
      loading := true;
      error := None;
    }

    /**
     * `fetchUsers()`: the users with their bookings populated replace the
     * shown ones (a `null` response included) and clear the error; a
     * failure sets the load error. `loading` ends false.
     */
    method FetchUsers(fetched: Result<Option<seq<User>>, string>) returns (calls: seq<Call>)
      modifies this
      ensures calls == [LoadUsers(PopulateBookings)] && !loading
      ensures fetched.Success? ==> users == fetched.value && error == None
      ensures fetched.Failure? ==> users == old(users) && error == Some(LoadErrorPrefix + fetched.error)
    {
      loading := true;
      calls := [LoadUsers(PopulateBookings)];
      if fetched.Success? {
        users := fetched.value;
        error := None;
      } else {
        error := Some(LoadErrorPrefix + fetched.error);
      }
      loading := false;
    }

    /**
     * `handleBlockUser(userId, blocked)`: the user is sent the opposite of
     * `blocked` and the table reloaded; a failed update sets the block error
     * and reloads nothing.
     */
    method BlockUser(userId: int, blocked: bool, updated: Result<(), string>, fetched: Result<Option<seq<User>>, string>)
      returns (calls: seq<Call>)
      modifies this
      ensures updated.Failure? ==>
        calls == [SetBlocked(userId, !blocked)] && users == old(users) && loading == old(loading)
        && error == Some(BlockErrorPrefix + updated.error)
      ensures updated.Success? ==>
        && calls == [SetBlocked(userId, !blocked), LoadUsers(PopulateBookings)] && !loading
        && (fetched.Success? ==> users == fetched.value && error == None)
        && (fetched.Failure? ==> users == old(users) && error == Some(LoadErrorPrefix + fetched.error))
    {
      calls := [SetBlocked(userId, !blocked)];
      if updated.Failure? {
        error := Some(BlockErrorPrefix + updated.error);
        return;
      }
      var reload := FetchUsers(fetched);
      calls := calls + reload;
    }
  }

  /** Pressing the button of a row asks for the state its tooltip names: blocking an active user, unblocking a blocked one. */
  lemma ButtonTogglesBlocked(u: User)
    ensures !u.blocked <==> BlockButton(u).0 == "Заблокировать"
    ensures BlockedChip(u.(blocked := !u.blocked)).0 == (if u.blocked then "Активен" else "Заблокирован")
  {
  }
}
