/**
 * The exam screen (`ExamManagement`): the exam bookings and the
 * users they can be assigned to, the create/edit dialog with its draft,
 * submission, deletion, and the status colour and user name shown per
 * booking. Instants are integer milliseconds; the current time is a
 * parameter. The outcome of each client call is an input, and each handler
 * returns the calls it issued.
 */
module Exams {
  import opened Wrappers
  import opened Text
  import opened Records
  import opened Types
  import opened Names

  const LoadErrorPrefix: string := "Ошибка при загрузке данных: "
  const SaveErrorPrefix: string := "Ошибка при сохранении: "
  const DeleteErrorPrefix: string := "Ошибка при удалении: "

  /** The user picked in the dialog: none (`''`) or a user id. */
  datatype Assignee = Nobody | UserId(id: int)

  /** The dialog's form: `exam_type`, `start`, `exam_status`, `users_permissions_user`. */
  datatype Draft = Draft(examType: string, start: int, status: string, assignee: Assignee)

  /** What is sent to create or update a booking. */
  datatype Payload = Payload(examType: string, start: int, status: string, user: Option<int>)

  /** The client calls the screen makes. */
  datatype Call = LoadExams | LoadUsers | Create(data: Payload) | Update(id: int, data: Payload) | Remove(id: int)

  /** `x?.id || ''`: the id of the assigned user, where a missing user and the falsy id 0 both give `''`. */
  function AssigneeOf(u: Option<User>): (a: Assignee)
    ensures a.UserId? <==> u.Some? && u.value.id != 0
    ensures a.UserId? ==> a.id == u.value.id
  {
    if u.Some? && u.value.id != 0 then UserId(u.value.id) else Nobody
  }

  /** `formData.users_permissions_user || null`. */
  function SubmittedUser(a: Assignee): (u: Option<int>)
    ensures u.Some? <==> a.UserId? && a.id != 0
    ensures u.Some? ==> u.value == a.id
  {
    if a.UserId? && a.id != 0 then Some(a.id) else None
  }

  /** The draft for a new booking: no type, starting now, in progress, nobody assigned. */
  function NewDraft(now: int): (d: Draft)
    ensures d == Draft("", now, ExamInProgress, Nobody)
  {
    Draft("", now, ExamInProgress, Nobody)
  }

  /** The draft for editing `b`: its type, start, status and user id. */
  function EditDraft(b: Records.Exam): (d: Draft)
    ensures d.examType == b.examType && d.start == b.start && d.status == b.status
    ensures d.assignee == AssigneeOf(b.user)
  {
    Draft(b.examType, b.start, b.status, AssigneeOf(b.user))
  }

  /** `submitData`: the draft with an empty user sent as `null`. */
  function ToPayload(d: Draft): (p: Payload)
    ensures p.examType == d.examType && p.start == d.start && p.status == d.status
    ensures p.user == SubmittedUser(d.assignee)
  {
    Payload(d.examType, d.start, d.status, SubmittedUser(d.assignee))
  }

  /** Saving an edited booking unchanged sends back its own fields and the id of its user. */
  lemma EditRoundTrip(b: Records.Exam)
    ensures var p := ToPayload(EditDraft(b));
      && p.examType == b.examType && p.start == b.start && p.status == b.status
      && (p.user.Some? <==> b.user.Some? && b.user.value.id != 0)
      && (p.user.Some? ==> p.user.value == b.user.value.id)
  {
  }

  /** A new booking saved as drafted is in progress and has no user. */
  lemma NewBookingPayload(now: int)
    ensures ToPayload(NewDraft(now)) == Payload("", now, ExamInProgress, None)
  {
  }

  /** `getStatusColor(status)`: the chip colour for a booking's status. */
  function StatusColor(status: string): (c: string)
    ensures c == "success" <==> status == ExamPassed
    ensures c == "error" <==> status == ExamFailed
    ensures c == "info" <==> status != ExamPassed && status != ExamFailed
  {
    if status == ExamPassed then "success" else if status == ExamFailed then "error" else "info"
  }

  /**
   * What `Promise.all` gives `fetchData`: both lists, or the message of a
   * failed request (the exams request's when both fail).
   */
  function Loaded(exams: Result<ListPayload<Records.Exam>, string>, users: Result<Option<seq<User>>, string>)
    : (r: Result<(seq<Records.Exam>, seq<User>), string>)
    ensures r.Success? <==> exams.Success? && users.Success?
    ensures r.Success? ==> r.value == (exams.value.data.GetOr([]), users.value.GetOr([]))
    ensures exams.Failure? ==> r == Failure(exams.error)
    ensures exams.Success? && users.Failure? ==> r == Failure(users.error)
  {
    if exams.Failure? then Failure(exams.error)
    else if users.Failure? then Failure(users.error)
    else Success((exams.value.data.GetOr([]), users.value.GetOr([])))
  }

  class ExamScreen {
    var exams: seq<Records.Exam>
    var users: seq<User>
    var loading: bool
    var error: Option<string>
    var dialogOpen: bool
    var editing: Option<Records.Exam>
    var form: Draft

    /** The first render: nothing loaded yet, loading, no dialog, and a new-booking draft. */
    constructor (now: int)
      ensures exams == [] && users == [] && loading && error == None
      ensures !dialogOpen && editing == None && form == NewDraft(now)
    {
      exams, users := [], [];
      loading := true;
      error := None;
      dialogOpen := false;
      editing := None;
      form := NewDraft(now);
    }

    /**
     * `fetchData()`: both lists are requested together; they replace the
     * shown ones and clear the error only when both arrive, otherwise the
     * error is set with the load prefix. `loading` ends false.
     */
    method FetchData(fetchedExams: Result<ListPayload<Records.Exam>, string>, fetchedUsers: Result<Option<seq<User>>, string>)
      returns (calls: seq<Call>)
      modifies this
      ensures calls == [LoadExams, LoadUsers] && !loading
      ensures var r := Loaded(fetchedExams, fetchedUsers);
        if r.Success? then exams == r.value.0 && users == r.value.1 && error == None
        else exams == old(exams) && users == old(users) && error == Some(LoadErrorPrefix + r.error)
      ensures dialogOpen == old(dialogOpen) && editing == old(editing) && form == old(form)
    {
      loading := true;
      calls := [LoadExams, LoadUsers];
      var loaded := Loaded(fetchedExams, fetchedUsers);
      if loaded.Success? {
        exams, users := loaded.value.0, loaded.value.1;
        error := None;
      } else {
        error := Some(LoadErrorPrefix + loaded.error);
      }
      loading := false;
    }

    /** `handleOpenDialog(exam)`: the dialog opens on the booking's draft, or on a new one. */
    method OpenDialog(b: Option<Records.Exam>, now: int)
      modifies this
      ensures dialogOpen && editing == b
      ensures form == if b.Some? then EditDraft(b.value) else NewDraft(now)
      ensures exams == old(exams) && users == old(users) && loading == old(loading) && error == old(error)
    {
      editing := b;
      form := if b.Some? then EditDraft(b.value) else NewDraft(now);
      dialogOpen := true;
    }

    /** `handleCloseDialog()`: the dialog closes and nothing is being edited; the draft stays. */
    method CloseDialog()
      modifies this
      ensures !dialogOpen && editing == None && form == old(form)
      ensures exams == old(exams) && users == old(users) && loading == old(loading) && error == old(error)
    {
      dialogOpen := false;
      editing := None;
    }

    /**
     * `handleSubmit()`: the payload is sent as an update of the edited
     * booking or as a new one; a failure sets the save error; a success
     * reloads both lists and closes the dialog.
     */
    method Submit(saved: Result<(), string>, fetchedExams: Result<ListPayload<Records.Exam>, string>,
                  fetchedUsers: Result<Option<seq<User>>, string>)
      returns (calls: seq<Call>)
      modifies this
      ensures form == old(form)
      ensures var save := if old(editing).Some? then Update(old(editing).value.id, ToPayload(old(form)))
                          else Create(ToPayload(old(form)));
        if saved.Failure? then
          && calls == [save] && error == Some(SaveErrorPrefix + saved.error)
          && exams == old(exams) && users == old(users) && loading == old(loading)
          && dialogOpen == old(dialogOpen) && editing == old(editing)
        else
          var r := Loaded(fetchedExams, fetchedUsers);
          && calls == [save, LoadExams, LoadUsers] && !loading && !dialogOpen && editing == None
          && (r.Success? ==> exams == r.value.0 && users == r.value.1 && error == None)
          && (r.Failure? ==> exams == old(exams) && users == old(users) && error == Some(LoadErrorPrefix + r.error))
    {
      var payload := ToPayload(form);
      var save := if editing.Some? then Update(editing.value.id, payload) else Create(payload);
      calls := [save];
      if saved.Failure? {
        error := Some(SaveErrorPrefix + saved.error);
        return;
      }
      var reload := FetchData(fetchedExams, fetchedUsers);
      calls := calls + reload;
      CloseDialog();
    }

    /**
     * `handleDelete(id)`: nothing without confirmation. Otherwise the booking
     * is deleted and both lists reloaded; a failed delete sets the delete
     * error and reloads nothing.
     */
    method Delete(id: int, confirmed: bool, deleted: Result<(), string>,
                  fetchedExams: Result<ListPayload<Records.Exam>, string>, fetchedUsers: Result<Option<seq<User>>, string>)
      returns (calls: seq<Call>)
      modifies this
      ensures dialogOpen == old(dialogOpen) && editing == old(editing) && form == old(form)
      ensures !confirmed ==>
        calls == [] && exams == old(exams) && users == old(users) && loading == old(loading) && error == old(error)
      ensures confirmed && deleted.Failure? ==>
        && calls == [Remove(id)] && error == Some(DeleteErrorPrefix + deleted.error)
        && exams == old(exams) && users == old(users) && loading == old(loading)
      ensures confirmed && deleted.Success? ==>
        var r := Loaded(fetchedExams, fetchedUsers);
        && calls == [Remove(id), LoadExams, LoadUsers] && !loading
        && (r.Success? ==> exams == r.value.0 && users == r.value.1 && error == None)
        && (r.Failure? ==> exams == old(exams) && users == old(users) && error == Some(LoadErrorPrefix + r.error))
    {
      if !confirmed {
        return [];
      }
      calls := [Remove(id)];
      if deleted.Failure? {
        error := Some(DeleteErrorPrefix + deleted.error);
        return;
      }
      var reload := FetchData(fetchedExams, fetchedUsers);
      calls := calls + reload;
    }
  }
}
