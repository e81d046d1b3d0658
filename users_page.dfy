/**
 * app/super-admin/users/page.tsx: the user list with derived display names,
 * its search and role filter, the role counters, the role badge and the
 * avatar of a row.
 */
module UsersPage {
  import opened Wrappers
  import opened Strings
  import opened Seqs

  /** A user of `/api/users`; `name` is only set by the page itself. */
  datatype User = User(
    id: string, firstName: string, lastName: string, name: Option<string>, email: string,
    role: string, avatarColor: Option<string>, status: Option<string>)

  /** The display name the page gives a user. */
  function FullName(u: User): string {
    u.firstName + " " + u.lastName
  }

  /** `users`: the fetched list, each user with its display name and otherwise unchanged; empty until a list arrives. */
  function WithNames(usersData: Option<seq<User>>): (r: seq<User>)
    ensures usersData.None? ==> r == []
    ensures usersData.Some? ==> |r| == |usersData.value|
    ensures usersData.Some? ==> forall i :: 0 <= i < |r| ==>
      r[i] == usersData.value[i].(name := Some(usersData.value[i].firstName + " " + usersData.value[i].lastName))
  {
    match usersData
    case None => []
    case Some(us) => seq(|us|, i requires 0 <= i < |us| => us[i].(name := Some(FullName(us[i]))))
  }

  /** Every listed user's name has the first name, a space and the last name. */
  lemma NamesJoinFirstAndLast(usersData: Option<seq<User>>, i: nat)
    requires usersData.Some? && i < |usersData.value|
    ensures WithNames(usersData)[i].name.Some?
    ensures var n := WithNames(usersData)[i].name.value;
            var u := usersData.value[i];
            |n| == |u.firstName| + 1 + |u.lastName| && n[..|u.firstName|] == u.firstName
            && n[|u.firstName|] == ' ' && n[|u.firstName| + 1..] == u.lastName
  {
  }

  // ---- The filter ----

  /** Empty, or found case-insensitively in the display name (when set) or the email. */
  predicate MatchesSearch(u: User, query: string) {
    || query == ""
    || (u.name.Some? && Contains(Lower(u.name.value), Lower(query)))
    || Contains(Lower(u.email), Lower(query))
  }

  predicate MatchesRole(u: User, selectedRole: string) {
    selectedRole == "all" || u.role == selectedRole
  }

  /** `filteredUsers`: the users passing both filters, in list order. */
  function Filtered(us: seq<User>, query: string, selectedRole: string): (r: seq<User>)
    ensures forall u :: u in r <==> u in us && MatchesSearch(u, query) && MatchesRole(u, selectedRole)
    ensures IsSubsequence(r, us)
  {
    var keep := (u: User) => MatchesSearch(u, query) && MatchesRole(u, selectedRole);
    FilterIsSubsequence(us, keep);
    Filter(us, keep)
  }

  /** A search for part of a user's full name finds that user, whatever the case of either. */
  lemma SearchFindsFullName(usersData: Option<seq<User>>, i: nat, query: string)
    requires usersData.Some? && i < |usersData.value|
    requires Contains(Lower(FullName(usersData.value[i])), Lower(query))
    ensures WithNames(usersData)[i] in Filtered(WithNames(usersData), query, "all")
  {
  }

  // ---- The counters ----

  /** `users.filter(u => u.role === role).length`. */
  function CountWithRole(us: seq<User>, role: string): (c: nat)
    ensures c <= |us|
  {
    |Filter(us, (u: User) => u.role == role)|
  }

  predicate KnownRole(role: string) {
    role == "super_admin" || role == "admin" || role == "user"
  }

  /** When every role is one of the three, the super admin, admin and client counters add up to the total. */
  lemma {:induction false} RoleCountsSum(us: seq<User>)
    requires forall i :: 0 <= i < |us| ==> KnownRole(us[i].role)
    ensures CountWithRole(us, "super_admin") + CountWithRole(us, "admin") + CountWithRole(us, "user") == |us|
  {
    if us != [] {
      RoleCountsSum(us[1..]);
    }
  }

  // ---- One row ----

  datatype Badge = Badge(caption: string, color: string)

  const SuperAdminBadge := Badge("Super Admin", "bg-purple-100 text-purple-700")
  const AdminBadge := Badge("Admin", "bg-indigo-100 text-indigo-700")
  const ClientBadge := Badge("Client", "bg-blue-100 text-blue-700")

  /** `getRoleBadge(role)`: the badge of a known role, and the client badge for any other role. */
  function RoleBadge(role: string): (b: Badge)
    ensures role == "super_admin" ==> b == SuperAdminBadge
    ensures role == "admin" ==> b == AdminBadge
    ensures role != "super_admin" && role != "admin" ==> b == ClientBadge
  {
    if role == "super_admin" then SuperAdminBadge
    else if role == "admin" then AdminBadge
    else ClientBadge
  }

  const AvatarColors := ["bg-blue-500", "bg-purple-500", "bg-indigo-500", "bg-emerald-500", "bg-amber-500"]

  /** The avatar color of the row at `index`: the user's own when set and non-empty, else the palette entry `index mod 5`. */
  function AvatarColorAt(avatarColor: Option<string>, index: nat): (c: string)
    ensures avatarColor.Some? && avatarColor.value != "" ==> c == avatarColor.value
    ensures !(avatarColor.Some? && avatarColor.value != "") ==> c == AvatarColors[index % 5] && c in AvatarColors
  {
    if avatarColor.Some? && avatarColor.value != "" then avatarColor.value else AvatarColors[index % |AvatarColors|]
  }

  /** Rows five apart get the same fallback color. */
  lemma FallbackColorRepeats(index: nat)
    ensures AvatarColorAt(None, index + 5) == AvatarColorAt(None, index)
  {
  }

  /** The first character of a name, or nothing when the name is empty. */
  function Initial(s: string): (r: string)
    ensures s == "" ==> r == ""
    ensures s != "" ==> r == [s[0]]
  {
    if s == "" then "" else [s[0]]
  }

  /** The avatar text: the initial of the first name then that of the last name. */
  function Initials(u: User): (r: string)
    ensures |r| <= 2
    ensures |r| == (if u.firstName == "" then 0 else 1) + (if u.lastName == "" then 0 else 1)
    ensures u.firstName != "" ==> r[0] == u.firstName[0]
    ensures u.lastName != "" ==> r[|r| - 1] == u.lastName[0]
  {
    Initial(u.firstName) + Initial(u.lastName)
  }

  /** The status line under the name: 'Inactif' only for an inactive user, 'Actif' otherwise, including no status. */
  function StatusLabel(status: Option<string>): (text: string)
    ensures text == "Inactif" <==> status == Some("inactive")
    ensures text != "Inactif" ==> text == "Actif"
  {
    if status == Some("inactive") then "Inactif" else "Actif"
  }
}
