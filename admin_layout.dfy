/**
 * The page frame around every screen (`AdminLayout`): the menu, the title
 * of the current page, the drawer on small screens, and the signed-in
 * user's name and role in the sidebar.
 */
module AdminLayout {
  import opened Wrappers
  import opened Text
  import opened Records
  import UserProfile
  import ProtectedRoute

  const DefaultTitle: string := "Административная панель"

  datatype MenuItem = MenuItem(text: string, path: string)

  /** `menuItems`, in the order the sidebar lists them. */
  const MenuItems: seq<MenuItem> := [
    MenuItem("Пользователи", "/"),
    MenuItem("Регистрация", "/register"),
    MenuItem("Запись на вождение", "/driving"),
    MenuItem("Запись на экзамены", "/exams"),
    MenuItem("Расписание", "/timetable")
  ]

  /** `items.find(item => item.path === path)`: the first item with that path. */
  function Find(items: seq<MenuItem>, path: string): (r: Option<nat>)
    ensures r.Some? ==> r.value < |items| && items[r.value].path == path
    ensures r.Some? ==> forall k :: 0 <= k < r.value ==> items[k].path != path
    ensures r.None? <==> forall k :: 0 <= k < |items| ==> items[k].path != path
  {
    if items == [] then None
    else if items[0].path == path then Some(0)
    else
      match Find(items[1..], path)
      case None => None
      case Some(k) => Some(k + 1)
  }

  /** `getCurrentPageTitle()`: the text of the menu item for the current path, or the panel's own title. */
  function PageTitle(pathname: string): (t: string)
    ensures (forall k :: 0 <= k < |MenuItems| ==> MenuItems[k].path != pathname) ==> t == DefaultTitle
  {
    match Find(MenuItems, pathname)
    case Some(k) => MenuItems[k].text
    case None => DefaultTitle
  }

  /** No two menu items share a path. */
  lemma PathsDistinct(i: nat, j: nat)
    requires i < |MenuItems| && j < |MenuItems| && i != j
    ensures MenuItems[i].path != MenuItems[j].path
  {
  }

  /** On the page of a menu item the title is that item's text. */
  lemma TitleOfMenuItem(k: nat)
    requires k < |MenuItems|
    ensures PageTitle(MenuItems[k].path) == MenuItems[k].text
  {
    var found := Find(MenuItems, MenuItems[k].path);
    if found.value != k {
      PathsDistinct(found.value, k);
    }
  }

  /** The menu item drawn as selected is the one whose path is the current one. */
  predicate Selected(pathname: string, item: MenuItem) {
    pathname == item.path
  }

  /** At most one menu item is selected, and it is the one the title names. */
  lemma OneSelected(pathname: string, i: nat, j: nat)
    requires i < |MenuItems| && j < |MenuItems|
    requires Selected(pathname, MenuItems[i]) && Selected(pathname, MenuItems[j])
    ensures i == j && PageTitle(pathname) == MenuItems[i].text
  {
    if i != j {
      PathsDistinct(i, j);
    }
    TitleOfMenuItem(i);
  }

  /** The sidebar's "signed in as" line: the username, else the e-mail, else the administrator label. */
  function SidebarName(u: Option<User>): (n: string)
    ensures n == UserProfile.DisplayName(u)
  {
    if u.Some? then OrElse(u.value.username, OrElse(u.value.email, UserProfile.Administrator)) else UserProfile.Administrator
  }

  /** The sidebar's role caption: shown only for a user with a role, as its name, else its type, else the administrator label. */
  function RoleCaption(u: Option<User>): (c: Option<string>)
    ensures c.None? <==> u.None? || u.value.role.None?
    ensures c.Some? ==> c.value == OrElse(u.value.role.value.name, OrElse(u.value.role.value.roleType, UserProfile.Administrator))
  {
    if u.None? || u.value.role.None? then None
    else Some(OrElse(u.value.role.value.name, OrElse(u.value.role.value.roleType, UserProfile.Administrator)))
  }

  /**
   * The sidebar and the profile menu name the same role differently: the
   * caption shows the role's raw name, the menu translates it.
   */
  lemma CaptionIsUntranslated(u: User)
    requires u.role == Some(Role(Some("admin"), Some("admin")))
    ensures RoleCaption(Some(u)) == Some("admin")
    ensures UserProfile.RoleLabel(Some(u)) == UserProfile.Administrator
  {
  }

  /** The frame's own guard: it draws nothing unless the user is authenticated. */
  predicate Renders(isAuthenticated: bool) {
    isAuthenticated
  }

  /**
   * The frame sits inside `ProtectedRoute`, so its guard never hides a page
   * the gate lets through, and whenever the guard hides the frame the gate
   * shows the spinner or the sign-in form instead.
   */
  lemma GuardBehindGate(loading: bool, isAuthenticated: bool)
    ensures ProtectedRoute.Gate(loading, isAuthenticated) == ProtectedRoute.Children ==> Renders(isAuthenticated)
    ensures !Renders(isAuthenticated) ==> ProtectedRoute.Gate(loading, isAuthenticated) in {ProtectedRoute.Spinner, ProtectedRoute.SignIn}
  {
  }

  class Layout {
    var pathname: string
    var mobileOpen: bool
    var notification: Option<string>

    constructor (pathname: string)
      ensures this.pathname == pathname && !mobileOpen && notification == None
    {
      this.pathname := pathname;
      mobileOpen := false;
      notification := None;
    }

    /** `handleDrawerToggle()`: the drawer flips between open and closed. */
    method DrawerToggle()
      modifies this
      ensures mobileOpen == !old(mobileOpen) && pathname == old(pathname) && notification == old(notification)
    {
      mobileOpen := !mobileOpen;
    }

    /** `handleMenuClick(path)`: navigation to the path, and the drawer closes. */
    method MenuClick(path: string)
      modifies this
      ensures pathname == path && !mobileOpen && notification == old(notification)
    {
      pathname := path;
      mobileOpen := false;
    }

    /** `handleCloseNotification()`. */
    method CloseNotification()
      modifies this
      ensures notification == None && pathname == old(pathname) && mobileOpen == old(mobileOpen)
    {
      notification := None;
    }
  }
}
