/**
 * The driving-lesson screen (`DrivingManagement`): the bookings and the
 * users they can be assigned to, the create/edit dialog with its draft,
 * submission, deletion, and the status colour and user name shown per
 * booking. Instants are integer milliseconds; the current time is a
 * parameter. The outcome of each client call is an input, and each handler
 * returns the calls it issued.
 */
module Driving {
  import opened Wrappers
  import opened Text
  import opened Records
  import opened Types
  import opened Names

  const LoadErrorPrefix: string := "Ошибка при загрузке данных: "
  const SaveErrorPrefix: string := "Ошибка при сохранении: "
  const DeleteErrorPrefix: string := "Ошибка при удалении: "

  /** The user picked in the dialog: none (`''`) or a user id. */
  datatype Assignee = Nobody | UserId(id: int)

  /** The dialog's form: `driving_type`, `start`, `end`, `driving_status`, `users_permissions_user`. */
  datatype Draft = Draft(drivingType: string, start: int, end: Option<int>, status: string, assignee: Assignee)

  /** What is sent to create or update a booking. */
  datatype Payload = Payload(drivingType: string, start: int, end: Option<int>, status: string, user: Option<int>)

  /** The client calls the screen makes. */
  datatype Call = LoadDrivings | LoadUsers | Create(data: Payload) | Update(id: int, data: Payload) | Remove(id: int)

  /** `x?.id || ''`: the id of the assigned user, where a missing user and the falsy id 0 both give `''`. */
  function AssigneeOf(u: Option<User>): (a: Assignee)
    ensures a.UserId? <==> u.Some? && u.value.id != 0
    ensures a.UserId? ==> a.id == u.value.id
  {
    if u.Some? && u.value.id != 0 then UserId(u.value.id) else Nobody
  }

  /** `formData.users_permissions_user || null`. */
  function SubmittedUser(a: Assignee): (u: Option<int>)
    ensures u.Some? <==> a.UserId? && a.id != 0
    ensures u.Some? ==> u.value == a.id
  {
    if a.UserId? && a.id != 0 then Some(a.id) else None
  }

  /** The draft for a new booking: no type, starting now, no end, in progress, nobody assigned. */
  function NewDraft(now: int): (d: Draft)
    ensures d == Draft("", now, None, DrivingInProgress, Nobody)
  {
    Draft("", now, None, DrivingInProgress, Nobody)
  }

  /** The draft for editing `b`: its type, start, end (kept absent when absent), status and user id. */
  function EditDraft(b: Records.Driving): (d: Draft)
    ensures d.drivingType == b.drivingType && d.start == b.start && d.end == b.end && d.status == b.status
    ensures d.assignee == AssigneeOf(b.user)
  {
    Draft(b.drivingType, b.start, b.end, b.status, AssigneeOf(b.user))
  }

  /** `submitData`: the draft with an empty user sent as `null` (and an absent end as `null`). */
  function ToPayload(d: Draft): (p: Payload)
    ensures p.drivingType == d.drivingType && p.start == d.start && p.end == d.end && p.status == d.status
    ensures p.user == SubmittedUser(d.assignee)
  {
    Payload(d.drivingType, d.start, d.end, d.status, SubmittedUser(d.assignee))
  }

  /** Saving an edited booking unchanged sends back its own fields and the id of its user. */
  lemma EditRoundTrip(b: Records.Driving)
    ensures var p := ToPayload(EditDraft(b));
      && p.drivingType == b.drivingType && p.start == b.start && p.end == b.end && p.status == b.status
      && (p.user.Some? <==> b.user.Some? && b.user.value.id != 0)
      && (p.user.Some? ==> p.user.value == b.user.value.id)
  {
  }

  /** A new booking saved as drafted is in progress, has no end and no user. */
  lemma NewBookingPayload(now: int)
    ensures ToPayload(NewDraft(now)) == Payload("", now, None, DrivingInProgress, None)
  {
  }

  /** `getStatusColor(status)`: the chip colour for a booking's status. */
  function StatusColor(status: string): (c: string)
    ensures c == "success" <==> status == DrivingPassed
    ensures c == "error" <==> status == DrivingFailed
    ensures c == "info" <==> status != DrivingPassed && status != DrivingFailed
  {
    if status == DrivingPassed then "success" else if status == DrivingFailed then "error" else "info"
  }

  /**
   * What `Promise.all` gives `fetchData`: both lists, or the message of a
   * failed request (the drivings request's when both fail).
   */
  function Loaded(drivings: Result<ListPayload<Records.Driving>, string>, users: Result<Option<seq<User>>, string>)
    : (r: Result<(seq<Records.Driving>, seq<User>), string>)
    ensures r.Success? <==> drivings.Success? && users.Success?
    ensures r.Success? ==> r.value == (drivings.value.data.GetOr([]), users.value.GetOr([]))
    ensures drivings.Failure? ==> r == Failure(drivings.error)
    ensures drivings.Success? && users.Failure? ==> r == Failure(users.error)
  {
    if drivings.Failure? then Failure(drivings.error)
    else if users.Failure? then Failure(users.error)
    else Success((drivings.value.data.GetOr([]), users.value.GetOr([])))
  }

  class DrivingScreen {
    var drivings: seq<Records.Driving>
    var users: seq<User>
    var loading: bool
    var error: Option<string>
    var dialogOpen: bool
    var editing: Option<Records.Driving>
    var form: Draft

    /** The first render: nothing loaded yet, loading, no dialog, and a new-booking draft. */
    constructor (now: int)
      ensures drivings == [] && users == [] && loading && error == None
      ensures !dialogOpen && editing == None && form == NewDraft(now)
    {
      drivings, users := [], [];
      loading := true;
      error := None;
      dialogOpen := false;
      editing := None;
      form := NewDraft(now);
    }

    /**
     * `fetchData()`: both lists are requested together; they replace the
     * shown ones and clear the error only when both arrive, otherwise the
     * error is set with the load prefix. `loading` ends false.
     */
    method FetchData(fetchedDrivings: Result<ListPayload<Records.Driving>, string>, fetchedUsers: Result<Option<seq<User>>, string>)
      returns (calls: seq<Call>)
      modifies this
      ensures calls == [LoadDrivings, LoadUsers] && !loading
      ensures var r := Loaded(fetchedDrivings, fetchedUsers);
        if r.Success? then drivings == r.value.0 && users == r.value.1 && error == None
        else drivings == old(drivings) && users == old(users) && error == Some(LoadErrorPrefix + r.error)
      ensures dialogOpen == old(dialogOpen) && editing == old(editing) && form == old(form)
    {
      loading := true;
      calls := [LoadDrivings, LoadUsers];
      var loaded := Loaded(fetchedDrivings, fetchedUsers);
      if loaded.Success? {
        drivings, users := loaded.value.0, loaded.value.1;
        error := None;
      } else {
        error := Some(LoadErrorPrefix + loaded.error);
      }
      loading := false;
    }

    /** `handleOpenDialog(driving)`: the dialog opens on the booking's draft, or on a new one. */
    method OpenDialog(b: Option<Records.Driving>, now: int)
      modifies this
      ensures dialogOpen && editing == b
      ensures form == if b.Some? then EditDraft(b.value) else NewDraft(now)
      ensures drivings == old(drivings) && users == old(users) && loading == old(loading) && error == old(error)
    {
      editing := b;
      form := if b.Some? then EditDraft(b.value) else NewDraft(now);
      dialogOpen := true;
    }

    /** `handleCloseDialog()`: the dialog closes and nothing is being edited; the draft stays. */
    method CloseDialog()
      modifies this
      ensures !dialogOpen && editing == None && form == old(form)
      ensures drivings == old(drivings) && users == old(users) && loading == old(loading) && error == old(error)
    {
      dialogOpen := false;
      editing := None;
    }

    /**
     * `handleSubmit()`: the payload is sent as an update of the edited
     * booking or as a new one; a failure sets the save error; a success
     * reloads both lists and closes the dialog.
     */
    method Submit(saved: Result<(), string>, fetchedDrivings: Result<ListPayload<Records.Driving>, string>,
                  fetchedUsers: Result<Option<seq<User>>, string>)
      returns (calls: seq<Call>)
      modifies this
      ensures form == old(form)
      ensures var save := if old(editing).Some? then Update(old(editing).value.id, ToPayload(old(form)))
                          else Create(ToPayload(old(form)));
        if saved.Failure? then
          && calls == [save] && error == Some(SaveErrorPrefix + saved.error)
          && drivings == old(drivings) && users == old(users) && loading == old(loading)
          && dialogOpen == old(dialogOpen) && editing == old(editing)
        else
          var r := Loaded(fetchedDrivings, fetchedUsers);
          && calls == [save, LoadDrivings, LoadUsers] && !loading && !dialogOpen && editing == None
          && (r.Success? ==> drivings == r.value.0 && users == r.value.1 && error == None)
          && (r.Failure? ==> drivings == old(drivings) && users == old(users) && error == Some(LoadErrorPrefix + r.error))
    {
      var payload := ToPayload(form);
      var save := if editing.Some? then Update(editing.value.id, payload) else Create(payload);
      calls := [save];
      if saved.Failure? {
        error := Some(SaveErrorPrefix + saved.error);
        return;
      }
      var reload := FetchData(fetchedDrivings, fetchedUsers);
      calls := calls + reload;
      CloseDialog();
    }

    /**
     * `handleDelete(id)`: nothing without confirmation. Otherwise the booking
     * is deleted and both lists reloaded; a failed delete sets the delete
     * error and reloads nothing.
     */
    method Delete(id: int, confirmed: bool, deleted: Result<(), string>,
                  fetchedDrivings: Result<ListPayload<Records.Driving>, string>, fetchedUsers: Result<Option<seq<User>>, string>)
      returns (calls: seq<Call>)
      modifies this
      ensures dialogOpen == old(dialogOpen) && editing == old(editing) && form == old(form)
      ensures !confirmed ==>
        calls == [] && drivings == old(drivings) && users == old(users) && loading == old(loading) && error == old(error)
      ensures confirmed && deleted.Failure? ==>
        && calls == [Remove(id)] && error == Some(DeleteErrorPrefix + deleted.error)
        && drivings == old(drivings) && users == old(users) && loading == old(loading)
      ensures confirmed && deleted.Success? ==>
        var r := Loaded(fetchedDrivings, fetchedUsers);
        && calls == [Remove(id), LoadDrivings, LoadUsers] && !loading
        && (r.Success? ==> drivings == r.value.0 && users == r.value.1 && error == None)
        && (r.Failure? ==> drivings == old(drivings) && users == old(users) && error == Some(LoadErrorPrefix + r.error))
    {
      if !confirmed {
        return [];
      }
      calls := [Remove(id)];
      if deleted.Failure? {
        error := Some(DeleteErrorPrefix + deleted.error);
        return;
      }
      var reload := FetchData(fetchedDrivings, fetchedUsers);
      calls := calls + reload;
    }
  }
}
