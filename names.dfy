/**
 * How the screens name a user: the users table, and the driving and exam
 * screens for the user a booking is assigned to.
 */
module Names {
  import opened Wrappers
  import opened Text
  import opened Records

  const Unassigned: string := "Не назначен"

  /**
   * `user.name && user.surname ? `${name} ${surname}` : user.username`: the
   * full name when both parts are truthy, otherwise the username (which may
   * itself be missing).
   */
  function FullName(u: User): (r: Option<string>)
    ensures TruthyField(u.name) && TruthyField(u.surname) ==> r == Some(u.name.value + " " + u.surname.value)
    ensures !(TruthyField(u.name) && TruthyField(u.surname)) ==> r == u.username
  {
    if TruthyField(u.name) && TruthyField(u.surname) then Some(u.name.value + " " + u.surname.value)
    else u.username
  }

  /** A full name starts with the name, ends with the surname, and has a space between them. */
  lemma FullNameParts(u: User)
    requires TruthyField(u.name) && TruthyField(u.surname)
    ensures var r := FullName(u).value;
      && |r| == |u.name.value| + 1 + |u.surname.value|
      && r[..|u.name.value|] == u.name.value
      && r[|u.name.value|] == ' '
      && r[|u.name.value| + 1..] == u.surname.value
  {
  }

  /** `getUserName(user)` of the booking screens: a placeholder for no user, otherwise `FullName`. */
  function AssigneeName(u: Option<User>): (r: Option<string>)
    ensures u.None? ==> r == Some(Unassigned)
    ensures u.Some? ==> r == FullName(u.value)
  {
    if u.None? then Some(Unassigned) else FullName(u.value)
  }
}
