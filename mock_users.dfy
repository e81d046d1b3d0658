/**
 * app/super-admin/users/users.tsx: the older user page over a fixed list of
 * sample users, with its search and role filter and the status column.
 */
module MockUsers {
  import opened Strings
  import opened Seqs

  /** A sample user; the role is already the display string. */
  datatype MockUser = MockUser(id: string, name: string, email: string, role: string, status: string, projects: nat)

  const SampleUsers := [
    MockUser("1", "Alice Dupont", "alice@entreprise.com", "Super Admin", "active", 12),
    MockUser("2", "Bob Martin", "bob@entreprise.com", "Admin", "active", 8),
    MockUser("3", "Client A Corp", "contact@client-a.com", "User", "active", 2),
    MockUser("4", "Client B Ltd", "info@client-b.com", "User", "inactive", 1)
  ]

  /** The values of the role selector: 'all', then the three display strings. */
  const RoleChoices := ["all", "Super Admin", "Admin", "User"]

  /** The search: found case-insensitively in the name or the email; there is no special case for ''. */
  predicate MatchesSearch(u: MockUser, search: string) {
    Contains(Lower(u.name), Lower(search)) || Contains(Lower(u.email), Lower(search))
  }

  /** The role filter compares the display string exactly; 'all' turns it off. */
  predicate MatchesRole(u: MockUser, filterRole: string) {
    filterRole == "all" || u.role == filterRole
  }

  /** `filteredUsers`. */
  function Filtered(users: seq<MockUser>, search: string, filterRole: string): (r: seq<MockUser>)
    ensures forall u :: u in r <==> u in users && MatchesSearch(u, search) && MatchesRole(u, filterRole)
    ensures IsSubsequence(r, users)
  {
    var keep := (u: MockUser) => MatchesSearch(u, search) && MatchesRole(u, filterRole);
    FilterIsSubsequence(users, keep);
    Filter(users, keep)
  }

  /** An empty search keeps every user: the empty string is found in any name. */
  lemma EmptySearchKeepsAll(users: seq<MockUser>)
    ensures Filtered(users, "", "all") == users
  {
    forall i | 0 <= i < |users| ensures MatchesSearch(users[i], "") {
      ContainsEmpty(Lower(users[i].name));
    }
    FilterKeepsAll(users, (u: MockUser) => MatchesSearch(u, "") && MatchesRole(u, "all"));
  }

  /** Picking 'User' keeps only users whose role string is exactly "User". */
  lemma RoleFilterIsExact(users: seq<MockUser>, search: string)
    ensures forall u :: u in Filtered(users, search, "User") ==> u.role == "User"
  {
  }

  /** The status column: 'Actif' exactly for the status 'active', 'Inactif' for anything else. */
  function StatusLabel(status: string): (text: string)
    ensures text == "Actif" <==> status == "active"
    ensures text != "Actif" ==> text == "Inactif"
  {
    if status == "active" then "Actif" else "Inactif"
  }

  /** Every role in the sample list is one the selector offers. */
  lemma SampleRolesSelectable()
    ensures forall i :: 0 <= i < |SampleUsers| ==> SampleUsers[i].role in RoleChoices
  {
  }
}
