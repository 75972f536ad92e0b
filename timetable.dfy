/**
 * The timetable screen (`TimetableManagement`): the list of events, the
 * create/edit dialog with its draft, submission with validation, deletion,
 * and the duration shown for each event. Instants are integer milliseconds;
 * the current time is a parameter. The outcome of each client call is an
 * input, and each handler returns the calls it issued.
 */
module Timetable {
  import opened Wrappers
  import opened Text
  import opened Records

  const TitleRequired: string := "Заполните название события"
  const EndNotAfterStart: string := "Время окончания должно быть позже времени начала"
  const LoadErrorPrefix: string := "Ошибка при загрузке расписания: "
  const SaveErrorPrefix: string := "Ошибка при сохранении: "
  const DeleteErrorPrefix: string := "Ошибка при удалении: "

  const MinuteMs: int := 60 * 1000
  const HourMs: int := 60 * 60 * 1000

  /** The dialog's form: `title`, `description`, `start`, `end`. */
  datatype Draft = Draft(title: string, description: string, start: int, end: int)

  /** What is sent to create or update an event. */
  datatype Payload = Payload(title: string, description: Option<string>, start: int, end: int)

  /** The client calls the screen makes. */
  datatype Call = Load | Create(data: Payload) | Update(id: int, data: Payload) | Remove(id: int)

  // ---------------------------------------------------------------------
  // Drafts, validation and the payload
  // ---------------------------------------------------------------------

  /** The draft for a new event: empty texts, starting now and lasting one hour. */
  function NewDraft(now: int): (d: Draft)
    ensures d.title == "" && d.description == ""
    ensures d.start == now && d.end - d.start == HourMs
  {
    Draft("", "", now, now + HourMs)
  }

  /** The draft for editing `t`: its fields, with a missing description shown as empty. */
  function EditDraft(t: Timetable): (d: Draft)
    ensures d.title == t.title && d.start == t.start && d.end == t.end
    ensures d.description == (if TruthyField(t.description) then t.description.value else "")
  {
    Draft(t.title, OrElse(t.description, ""), t.start, t.end)
  }

  /** The message `handleSubmit` stops with, or `None` when the draft may be sent. */
  function Invalid(d: Draft): (e: Option<string>)
    ensures Trim(d.title) == "" ==> e == Some(TitleRequired)
    ensures Trim(d.title) != "" && d.start >= d.end ==> e == Some(EndNotAfterStart)
    ensures e == None <==> Trim(d.title) != "" && d.start < d.end
  {
    if Trim(d.title) == "" then Some(TitleRequired)
    else if d.start >= d.end then Some(EndNotAfterStart)
    else None
  }

  /** `submitData`: the title trimmed, the description trimmed and `null` when nothing is left. */
  function ToPayload(d: Draft): (p: Payload)
    ensures p.title == Trim(d.title) && p.start == d.start && p.end == d.end
    ensures p.description.None? <==> Trim(d.description) == ""
    ensures p.description.Some? ==> p.description.value == Trim(d.description)
  {
    var description := Trim(d.description);
    Payload(Trim(d.title), if description != "" then Some(description) else None, d.start, d.end)
  }

  /** The call `handleSubmit` makes: an update of the edited event, or a create. */
  function SaveCall(editing: Option<Timetable>, d: Draft): (c: Call)
    ensures editing.Some? ==> c == Update(editing.value.id, ToPayload(d))
    ensures editing.None? ==> c == Create(ToPayload(d))
  {
    if editing.Some? then Update(editing.value.id, ToPayload(d)) else Create(ToPayload(d))
  }

  /**
   * A draft that passes validation is sent with a non-empty title that has
   * no surrounding whitespace, an interval that ends after it starts, and a
   * description that is absent or non-empty and trimmed.
   */
  lemma ValidPayload(d: Draft)
    requires Invalid(d) == None
    ensures var p := ToPayload(d);
      && p.title != "" && Trim(p.title) == p.title
      && p.start < p.end
      && (p.description.Some? ==> p.description.value != "" && Trim(p.description.value) == p.description.value)
  {
    TrimIdempotent(d.title);
    TrimIdempotent(d.description);
  }

  /** Editing an event and saving it unchanged sends the event's own fields back, normalised. */
  lemma EditRoundTrip(t: Timetable)
    requires Trim(t.title) == t.title && (t.description.Some? ==> Trim(t.description.value) == t.description.value)
    ensures ToPayload(EditDraft(t)) == Payload(t.title, if TruthyField(t.description) then t.description else None, t.start, t.end)
  {
    assert Trim("") == "";
  }

  // ---------------------------------------------------------------------
  // Duration (getDuration)
  // ---------------------------------------------------------------------

  /**
   * JavaScript's `a % b`: what is left after the division truncated toward
   * zero, so the remainder takes the sign of `a`.
   */
  function JsRemainder(a: int, b: int): (r: int)
    requires b > 0
    ensures a == (if a >= 0 then a / b else -((-a) / b)) * b + r
    ensures a >= 0 ==> 0 <= r < b
    ensures a < 0 ==> -b < r <= 0
  {
    if a >= 0 then a % b else -((-a) % b)
  }

  /**
   * The whole hours and the whole minutes left over in `end - start`:
   * `Math.floor(diff / 3600000)` and `Math.floor((diff % 3600000) / 60000)`.
   * For a positive divisor Dafny's `/` is already the floor.
   */
  function DurationParts(start: int, end: int): (r: (int, int))
    ensures r.0 * HourMs <= end - start < (r.0 + 1) * HourMs
    ensures -60 <= r.1 <= 59
    ensures r.1 * MinuteMs <= JsRemainder(end - start, HourMs) < (r.1 + 1) * MinuteMs
  {
    var diff := end - start;
    var rest := JsRemainder(diff, HourMs);
    assert -60 * MinuteMs < rest < 60 * MinuteMs;
    (diff / HourMs, rest / MinuteMs)
  }

  /**
   * For an interval that does not run backwards the parts are the usual
   * hours and minutes: minutes lie in 0..59 and hours and minutes together
   * account for the interval to within a minute.
   */
  lemma DurationPartsBounds(start: int, end: int)
    requires start <= end
    ensures var (h, m) := DurationParts(start, end);
      && 0 <= h && 0 <= m <= 59
      && h * HourMs + m * MinuteMs <= end - start < h * HourMs + (m + 1) * MinuteMs
  {
    var diff := end - start;
    var h, rest := diff / HourMs, diff % HourMs;
    assert diff == h * HourMs + rest && 0 <= rest < HourMs;
    var m, sec := rest / MinuteMs, rest % MinuteMs;
    assert rest == m * MinuteMs + sec && 0 <= sec < MinuteMs;
    assert m * MinuteMs < 60 * MinuteMs;
    assert DurationParts(start, end) == (h, m);
  }

  /** `getDuration(start, end)`: `Hч Mм` when there is at least one whole hour, `Mм` otherwise. */
  function Duration(start: int, end: int): (t: string)
    ensures t != "" && t[|t| - 1] == 'м'
    ensures 'ч' in t <==> end - start >= HourMs
  {
    var (h, m) := DurationParts(start, end);
    if h > 0 then IntToString(h) + "ч " + IntToString(m) + "м" else IntToString(m) + "м"
  }

  /** The text shown for a forward interval, in terms of its whole hours and minutes. */
  lemma DurationText(start: int, end: int)
    requires start <= end
    ensures var (h, m) := DurationParts(start, end);
      && (end - start >= HourMs ==> Duration(start, end) == NatToString(h) + "ч " + NatToString(m) + "м")
      && (end - start < HourMs ==> Duration(start, end) == NatToString(m) + "м" && h == 0)
  {
    DurationPartsBounds(start, end);
  }

  /**
   * An event that ends less than an hour before it starts shows a negative
   * number of minutes: `Math.floor` makes the hours -1, which is not
   * positive, and the minutes are the floor of the negative remainder.
   */
  lemma BackwardsInterval(start: int, end: int)
    requires -HourMs < end - start < 0
    ensures var (h, m) := DurationParts(start, end);
      && h == -1 && -60 <= m <= -1
      && m * MinuteMs <= end - start < (m + 1) * MinuteMs
      && Duration(start, end) == "-" + NatToString(-m) + "м"
  {
    var diff := end - start;
    assert diff / HourMs == -1;
    assert JsRemainder(diff, HourMs) == diff;
    var m := diff / MinuteMs;
    assert m * MinuteMs <= diff < (m + 1) * MinuteMs;
    assert DurationParts(start, end) == (-1, m);
  }

  // ---------------------------------------------------------------------
  // The screen
  // ---------------------------------------------------------------------

  class TimetableScreen {
    var timetables: seq<Timetable>
    var loading: bool
    var error: Option<string>
    var dialogOpen: bool
    var editing: Option<Timetable>
    var form: Draft

    /** The first render: no events yet, loading, no dialog, and a new-event draft. */
    constructor (now: int)
      ensures timetables == [] && loading && error == None
      ensures !dialogOpen && editing == None && form == NewDraft(now)
    {
      timetables := [];
      loading := true;
      error := None;
      dialogOpen := false;
      editing := None;
      form := NewDraft(now);
    }

    /**
     * `fetchTimetables()`: the list becomes the response's `data` (or empty)
     * and the error is cleared, or the error is set with the load prefix and
     * the list is kept. `loading` ends false; the dialog is not touched.
     */
    method FetchTimetables(fetched: Result<ListPayload<Timetable>, string>) returns (calls: seq<Call>)
      modifies this
      ensures calls == [Load] && !loading
      ensures fetched.Success? ==> timetables == fetched.value.data.GetOr([]) && error == None
      ensures fetched.Failure? ==> timetables == old(timetables) && error == Some(LoadErrorPrefix + fetched.error)
      ensures dialogOpen == old(dialogOpen) && editing == old(editing) && form == old(form)
    {
      loading := true;
      calls := [Load];
      if fetched.Success? {
        timetables := fetched.value.data.GetOr([]);
        error := None;
      } else {
        error := Some(LoadErrorPrefix + fetched.error);
      }
      loading := false;
    }

    /** `handleOpenDialog(timetable)`: the dialog opens on the event's draft, or on a new one. */
    method OpenDialog(t: Option<Timetable>, now: int)
      modifies this
      ensures dialogOpen && editing == t
      ensures form == if t.Some? then EditDraft(t.value) else NewDraft(now)
      ensures timetables == old(timetables) && loading == old(loading) && error == old(error)
    {
      editing := t;
      form := if t.Some? then EditDraft(t.value) else NewDraft(now);
      dialogOpen := true;
    }

    /** `handleCloseDialog()`: the dialog closes and nothing is being edited; the draft stays. */
    method CloseDialog()
      modifies this
      ensures !dialogOpen && editing == None
      ensures form == old(form) && timetables == old(timetables) && loading == old(loading) && error == old(error)
    {
      dialogOpen := false;
      editing := None;
    }

    /**
     * `handleSubmit()`. An invalid draft only sets its message. Otherwise the
     * payload is sent, as an update of the edited event or as a new one; a
     * failure sets the save error; a success refetches, closes the dialog and
     * ends with no error, even when the refetch failed.
     */
    method Submit(saved: Result<(), string>, fetched: Result<ListPayload<Timetable>, string>) returns (calls: seq<Call>)
      modifies this
      ensures form == old(form)
      ensures Invalid(old(form)).Some? ==>
        && calls == [] && error == Invalid(old(form))
        && timetables == old(timetables) && loading == old(loading)
        && dialogOpen == old(dialogOpen) && editing == old(editing)
      ensures Invalid(old(form)).None? && saved.Failure? ==>
        && calls == [SaveCall(old(editing), old(form))] && error == Some(SaveErrorPrefix + saved.error)
        && timetables == old(timetables) && loading == old(loading)
        && dialogOpen == old(dialogOpen) && editing == old(editing)
      ensures Invalid(old(form)).None? && saved.Success? ==>
        && calls == [SaveCall(old(editing), old(form)), Load] && error == None && !loading
        && timetables == (if fetched.Success? then fetched.value.data.GetOr([]) else old(timetables))
        && !dialogOpen && editing == None
    {
      var invalid := Invalid(form);
      if invalid.Some? {
        error := invalid;
        return [];
      }
      calls := Save(saved, fetched);
    }

    /** The part of `handleSubmit` after validation: the save, then the refetch and the closing of the dialog. */
    method Save(saved: Result<(), string>, fetched: Result<ListPayload<Timetable>, string>) returns (calls: seq<Call>)
      modifies this
      ensures form == old(form)
      ensures saved.Failure? ==>
        && calls == [SaveCall(old(editing), old(form))] && error == Some(SaveErrorPrefix + saved.error)
        && timetables == old(timetables) && loading == old(loading)
        && dialogOpen == old(dialogOpen) && editing == old(editing)
      ensures saved.Success? ==>
        && calls == [SaveCall(old(editing), old(form)), Load] && error == None && !loading
        && timetables == (if fetched.Success? then fetched.value.data.GetOr([]) else old(timetables))
        && !dialogOpen && editing == None
    {
      calls := [SaveCall(editing, form)];
      if saved.Failure? {
        error := Some(SaveErrorPrefix + saved.error);
        return;
      }
      var refetch := FetchTimetables(fetched);
      calls := calls + refetch;
      CloseDialog();
      error := None;
    }

    /**
     * `handleDelete(id)`: nothing without confirmation. Otherwise the event
     * is deleted and the list refetched; a failed delete sets the delete
     * error and refetches nothing.
     */
    method Delete(id: int, confirmed: bool, deleted: Result<(), string>, fetched: Result<ListPayload<Timetable>, string>)
      returns (calls: seq<Call>)
      modifies this
      ensures dialogOpen == old(dialogOpen) && editing == old(editing) && form == old(form)
      ensures !confirmed ==>
        calls == [] && timetables == old(timetables) && loading == old(loading) && error == old(error)
      ensures confirmed && deleted.Failure? ==>
        && calls == [Remove(id)] && error == Some(DeleteErrorPrefix + deleted.error)
        && timetables == old(timetables) && loading == old(loading)
      ensures confirmed && deleted.Success? ==>
        && calls == [Remove(id), Load] && !loading
        && timetables == (if fetched.Success? then fetched.value.data.GetOr([]) else old(timetables))
        && error == (if fetched.Success? then None else Some(LoadErrorPrefix + fetched.error))
    {
      if !confirmed {
        return [];
      }
      calls := [Remove(id)];
      if deleted.Failure? {
        error := Some(DeleteErrorPrefix + deleted.error);
        return;
      }
      var refetch := FetchTimetables(fetched);
      calls := calls + refetch;
    }
  }
}
