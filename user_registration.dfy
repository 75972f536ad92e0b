/**
 * The registration form (`UserRegistration`): the fields of a new
 * student account, the check of the required fields, the record sent to
 * `createUser` and what the form shows afterwards.
 */
module UserRegistration {
  import opened Wrappers
  import opened Text

  const RequiredFieldsMissing: string := "Заполните обязательные поля: имя пользователя, email и пароль"
  const RegisterErrorPrefix: string := "Ошибка при регистрации пользователя: "
  const StudentRole: string := "student"

  /** `formData`; `adress` keeps the backend's spelling. */
  datatype Form = Form(
    username: string, email: string, password: string, name: string, surname: string,
    phone: string, adress: string, studyStatus: string, blocked: bool)

  /** The text inputs of the form; `blocked` is its only checkbox. */
  datatype TextField = Username | Email | Password | Name | Surname | Phone | Adress | StudyStatus

  /** `registrationData`: the record given to `createUser`. */
  datatype Registration = Registration(
    username: string, email: string, password: string, name: Option<string>, surname: Option<string>,
    phone: Option<string>, adress: Option<string>, studyStatus: Option<string>, role: string, blocked: bool)

  /** The client call the form makes. */
  datatype Call = CreateUser(data: Registration)

  /** The empty form: every text field empty, not blocked. */
  const EmptyForm: Form := Form("", "", "", "", "", "", "", "", false)

  /** `x || null` for a text field. */
  function NullIfEmpty(s: string): (r: Option<string>)
    ensures r.None? <==> s == ""
    ensures r.Some? ==> r.value == s
  {
    if s == "" then None else Some(s)
  }

  /** The check at the top of `handleSubmit`: username, email and password must be non-empty (not trimmed). */
  predicate MissingRequired(f: Form) {
    f.username == "" || f.email == "" || f.password == ""
  }

  /**
   * The check does not trim: any non-empty username, email and password
   * pass it, even a username made only of whitespace, which a trimmed
   * check would refuse.
   */
  lemma SpacesPassRequiredCheck(f: Form)
    requires f.username != "" && f.email != "" && f.password != ""
    ensures !MissingRequired(f)
    ensures (forall k :: 0 <= k < |f.username| ==> IsWhitespace(f.username[k])) ==>
      MissingRequired(f.(username := Trim(f.username)))
  {
    BlankIffAllWhitespace(f.username);
  }

  /**
   * The record sent for a form: the required fields as typed, every empty
   * optional field as `null`, the role `student`, and the checkbox.
   */
  function ToRegistration(f: Form): (r: Registration)
    ensures r.username == f.username && r.email == f.email && r.password == f.password
    ensures r.name == NullIfEmpty(f.name) && r.surname == NullIfEmpty(f.surname) && r.phone == NullIfEmpty(f.phone)
    ensures r.adress == NullIfEmpty(f.adress) && r.studyStatus == NullIfEmpty(f.studyStatus)
    ensures r.role == StudentRole && r.blocked == f.blocked
  {
    Registration(f.username, f.email, f.password, NullIfEmpty(f.name), NullIfEmpty(f.surname),
      NullIfEmpty(f.phone), NullIfEmpty(f.adress), NullIfEmpty(f.studyStatus), StudentRole, f.blocked)
  }

  /** The form the record came from, with `null` read back as an empty field. */
  function FormOf(r: Registration): Form {
    Form(r.username, r.email, r.password, r.name.GetOr(""), r.surname.GetOr(""), r.phone.GetOr(""),
      r.adress.GetOr(""), r.studyStatus.GetOr(""), r.blocked)
  }

  /** Turning empty fields into `null` loses nothing: the form can be read back from the record. */
  lemma RegistrationRoundTrip(f: Form)
    ensures FormOf(ToRegistration(f)) == f
  {
  }

  /** `form` with one text field replaced. */
  function WithText(f: Form, field: TextField, value: string): (g: Form)
    ensures g.blocked == f.blocked
    ensures g.username == (if field == Username then value else f.username)
    ensures g.email == (if field == Email then value else f.email)
    ensures g.password == (if field == Password then value else f.password)
    ensures g.name == (if field == Name then value else f.name)
    ensures g.surname == (if field == Surname then value else f.surname)
    ensures g.phone == (if field == Phone then value else f.phone)
    ensures g.adress == (if field == Adress then value else f.adress)
    ensures g.studyStatus == (if field == StudyStatus then value else f.studyStatus)
  {
    match field
    case Username => f.(username := value)
    case Email => f.(email := value)
    case Password => f.(password := value)
    case Name => f.(name := value)
    case Surname => f.(surname := value)
    case Phone => f.(phone := value)
    case Adress => f.(adress := value)
    case StudyStatus => f.(studyStatus := value)
  }

  /** Typing the same value into a field twice is typing it once. */
  lemma WithTextIdempotent(f: Form, field: TextField, value: string)
    ensures WithText(WithText(f, field, value), field, value) == WithText(f, field, value)
  {
  }

  class RegistrationScreen {
    var form: Form
    var loading: bool
    var success: bool
    var error: Option<string>

    /** The first render: an empty form, nothing shown. */
    constructor ()
      ensures form == EmptyForm && !loading && !success && error == None
    {
      form := EmptyForm;
      loading, success := false, false;
      error := None;
    }

    /** `handleChange(e)` for a text input: the named field takes the value. */
    method ChangeText(field: TextField, value: string)
      modifies this
      ensures form == WithText(old(form), field, value)
      ensures loading == old(loading) && success == old(success) && error == old(error)
    {
      form := WithText(form, field, value);
    }

    /** `handleChange(e)` for the `blocked` checkbox: it takes the box's `checked`. */
    method ChangeBlocked(checked: bool)
      modifies this
      ensures form == old(form).(blocked := checked)
      ensures loading == old(loading) && success == old(success) && error == old(error)
    {
      form := form.(blocked := checked);
    }

    /**
     * `handleSubmit(e)`: a form missing a required field shows the message
     * and sends nothing. Otherwise the record is sent; on success the
     * success notice is raised and the form emptied, on failure the error is
     * shown with the form kept. `loading` ends false.
     */
    method Submit(created: Result<(), string>) returns (calls: seq<Call>)
      modifies this
      ensures MissingRequired(old(form)) ==>
        && calls == [] && error == Some(RequiredFieldsMissing)
        && form == old(form) && loading == old(loading) && success == old(success)
      ensures !MissingRequired(old(form)) ==>
        && calls == [CreateUser(ToRegistration(old(form)))] && !loading
        && (created.Success? ==> success && form == EmptyForm && error == None)
        && (created.Failure? ==>
              success == old(success) && form == old(form) && error == Some(RegisterErrorPrefix + created.error))
    {
      if MissingRequired(form) {
        error := Some(RequiredFieldsMissing);
        return [];
      }
      loading := true;
      error := None;
      calls := [CreateUser(ToRegistration(form))];
      if created.Success? {
        success := true;
        form := EmptyForm;
      } else {
        error := Some(RegisterErrorPrefix + created.error);
      }
      loading := false;
    }

    /** The timer set after a successful registration: the success notice is hidden. */
    method HideSuccess()
      modifies this
      ensures !success && form == old(form) && loading == old(loading) && error == old(error)
    {
      success := false;
    }
  }
}
