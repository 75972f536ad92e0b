/**
 * The profile menu in the top bar (`UserProfile`): the avatar's initial,
 * the name and role shown for the signed-in user, the account's creation
 * date, and opening, closing and signing out from the menu.
 */
module UserProfile {
  import opened Wrappers
  import opened Text
  import opened Records
  import opened Api
  import opened AuthContext

  const Administrator: string := "Администратор"
  const SuperAdministrator: string := "Супер Администратор"
  const UnknownDate: string := "Неизвестно"

  /** `roleNames[key]`: the label of the three known role keys, nothing for any other key. */
  function RoleName(key: Option<string>): (r: Option<string>)
    ensures r.Some? <==> key in {Some("admin"), Some("administrator"), Some("super-admin")}
    ensures r.Some? ==> r.value == (if key == Some("super-admin") then SuperAdministrator else Administrator)
  {
    if key == Some("admin") || key == Some("administrator") then Some(Administrator)
    else if key == Some("super-admin") then Some(SuperAdministrator)
    else None
  }

  /**
   * `getUserRole()`: the label of the role's type, else of its name, else
   * the name itself, else the administrator label; the administrator label
   * also when there is no user or no role.
   */
  function RoleLabel(u: Option<User>): (l: string)
    ensures u.None? || u.value.role.None? ==> l == Administrator
    ensures u.Some? && u.value.role.Some? ==>
      var role := u.value.role.value;
      l == if RoleName(role.roleType).Some? then RoleName(role.roleType).value
           else if RoleName(role.name).Some? then RoleName(role.name).value
           else OrElse(role.name, Administrator)
  {
    if u.None? || u.value.role.None? then Administrator
    else
      var role := u.value.role.value;
      var byType := RoleName(role.roleType);
      var byName := RoleName(role.name);
      if byType.Some? then byType.value else if byName.Some? then byName.value else OrElse(role.name, Administrator)
  }

  /** A role's label is never empty: every branch ends in a non-empty text. */
  lemma RoleLabelNonEmpty(u: Option<User>)
    ensures RoleLabel(u) != ""
  {
  }

  /** `getUserDisplayName()`: the username, else the e-mail, else the administrator label. */
  function DisplayName(u: Option<User>): (n: string)
    ensures n != ""
    ensures u.Some? && TruthyField(u.value.username) ==> n == u.value.username.value
    ensures u.Some? && !TruthyField(u.value.username) && TruthyField(u.value.email) ==> n == u.value.email.value
    ensures u.None? || (!TruthyField(u.value.username) && !TruthyField(u.value.email)) ==> n == Administrator
  {
    if u.None? then Administrator else OrElse(u.value.username, OrElse(u.value.email, Administrator))
  }

  /**
   * `getUserInitials()`: `A` without a user; otherwise the first code unit,
   * upper-cased, of the username, else the e-mail, else `Admin`. The result
   * is in UTF-16 code units because `charAt(0)` splits a character outside
   * the Basic Multilingual Plane.
   */
  function Initials(u: Option<User>): (i: seq<CodeUnit>)
    ensures u.None? ==> i == Utf16("A")
    ensures u.Some? ==>
      var name := OrElse(u.value.username, OrElse(u.value.email, "Admin"));
      && name != ""
      && (!Astral(name[0]) ==> i == Utf16(UpperCase(name[0])))
      && (Astral(name[0]) ==> i == Utf16(name)[..1])
  {
    if u.None? then Utf16("A") else FirstUpper(OrElse(u.value.username, OrElse(u.value.email, "Admin")))
  }

  /** The avatar shows the first letter of the name shown beside it, whenever there is a username or an e-mail. */
  lemma InitialOfDisplayName(u: User)
    requires TruthyField(u.username) || TruthyField(u.email)
    ensures Initials(Some(u)) == FirstUpper(DisplayName(Some(u)))
  {
  }

  /** A username that starts with an emoji gives the avatar only the emoji's high surrogate. */
  lemma AstralInitial(u: User)
    requires u.username == Some("\U{1F600}x")
    ensures Initials(Some(u)) == [0xD83D]
  {
    assert Utf16("\U{1F600}x") == CharUnits('\U{1F600}') + Utf16("x");
  }

  /**
   * `formatDate(dateString)`: `formatted` stands for the browser's
   * `ru-RU` rendering of the date, shown for any truthy string; a missing
   * or empty one shows the placeholder.
   */
  function FormatDate(dateString: Option<string>, formatted: string): (t: string)
    ensures TruthyField(dateString) ==> t == formatted
    ensures !TruthyField(dateString) ==> t == UnknownDate
  {
    if TruthyField(dateString) then formatted else UnknownDate
  }

  class ProfileMenu {
    const auth: AuthProvider
    /** `Boolean(anchorEl)`: whether the menu is open. */
    var open: bool

    constructor (auth: AuthProvider)
      ensures this.auth == auth && !open
    {
      this.auth := auth;
      open := false;
    }

    /** `handleClick(event)`: the menu opens on the avatar. */
    method HandleClick()
      modifies this
      ensures open
    {
      open := true;
    }

    /** `handleClose()`: the menu closes. */
    method HandleClose()
      modifies this
      ensures !open
    {
      open := false;
    }

    /** `handleLogout()`: the menu closes and the context signs out. */
    method HandleLogout()
      modifies this, auth, auth.api, auth.api.storage
      ensures !open && auth.SignedOut()
      ensures auth.api.storage.items == old(auth.api.storage.items) - {AuthTokenKey, UserKey}
      ensures auth.loading == old(auth.loading)
    {
      HandleClose();
      auth.Logout();
    }
  }
}
