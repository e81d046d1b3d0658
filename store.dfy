/**
 * The MySQL tables behind the route handlers, held in memory. Every statement
 * the handlers issue is numbered; a failure can be injected for any statement
 * number, which stands for every driver-level error (lost connection, bad
 * table, rejected parameter). The unique index on `users.email` is the one
 * constraint the store checks itself.
 */
module Store {
  import opened Wrappers

  /** A driver error: `error.code` and `error.message`. */
  datatype DbError = DbError(code: string, message: string)

  const DupEntry := "ER_DUP_ENTRY"

  /** A `users` row. `status` and `createdAt` are filled by column defaults, which are not part of this model. */
  datatype UserRow = UserRow(
    id: string, firstName: string, lastName: string, email: string, role: string,
    password: string, avatarColor: string, status: Option<string>, createdAt: Option<string>)

  /** A `projects` row; `None` is SQL NULL. */
  datatype ProjectRow = ProjectRow(
    id: string, name: Option<string>, description: Option<string>, sector: Option<string>,
    deliveryDate: Option<string>, status: Option<string>, createdAt: Option<string>)

  /** A `project_admins` row linking an admin to a project. */
  datatype AdminLink = AdminLink(projectId: string, userId: string)

  /** A `deliverables` row; `status` is filled by a column default on insert. */
  datatype DeliverableRow = DeliverableRow(
    id: string, name: Option<string>, projectId: Option<string>, format: Option<string>,
    deadline: Option<string>, assignedTo: Option<string>, status: Option<string>)

  /** True when some row of `users` already has this email. */
  predicate EmailTaken(users: seq<UserRow>, email: string) {
    exists i :: 0 <= i < |users| && users[i].email == email
  }

  /**
   * The outcome of `INSERT INTO users`: the injected fault if there is one,
   * otherwise a duplicate-key error when the email is taken.
   */
  function UserInsertError(users: seq<UserRow>, fault: Option<DbError>, row: UserRow): (r: Option<DbError>)
    ensures fault.Some? ==> r == fault
    ensures fault.None? ==> (r.Some? <==> EmailTaken(users, row.email))
    ensures fault.None? && r.Some? ==> r.value.code == DupEntry
  {
    if fault.Some? then fault
    else if EmailTaken(users, row.email) then Some(DbError(DupEntry, "Duplicate entry '" + row.email + "' for key 'email'"))
    else None
  }

  class Database {
    var users: seq<UserRow>
    var projects: seq<ProjectRow>
    var projectAdmins: seq<AdminLink>
    var deliverables: seq<DeliverableRow>
    /** The number of statements issued so far. */
    var issued: nat
    /** Statement number `n` fails with `faults[n]`. */
    var faults: map<nat, DbError>

    constructor (faults: map<nat, DbError>)
      ensures this.faults == faults && issued == 0
      ensures users == [] && projects == [] && projectAdmins == [] && deliverables == []
    {
      this.faults := faults;
      issued := 0;
      users, projects, projectAdmins, deliverables := [], [], [], [];
    }

    /** The failure injected for the next statement, if any. */
    function NextFault(): (r: Option<DbError>)
      reads this
      ensures r.Some? <==> issued in faults
    {
      if issued in faults then Some(faults[issued]) else None
    }

    /** `SELECT ... FROM users`. */
    method SelectUsers() returns (rows: seq<UserRow>, err: Option<DbError>)
      modifies this`issued
      ensures issued == old(issued) + 1
      ensures err == old(NextFault())
      ensures err.None? ==> rows == users
    {
      err := NextFault();
      rows := if err.None? then users else [];
      issued := issued + 1;
    }

    /** `INSERT INTO users`: fails on an injected fault or a duplicate email. */
    method InsertUser(row: UserRow) returns (err: Option<DbError>)
      modifies this`users, this`issued
      ensures issued == old(issued) + 1
      ensures err == UserInsertError(old(users), old(NextFault()), row)
      ensures users == if err.None? then old(users) + [row] else old(users)
    {
      err := UserInsertError(users, NextFault(), row);
      if err.None? {
        users := users + [row];
      }
      issued := issued + 1;
    }

    /** `INSERT INTO projects`. */
    method InsertProject(row: ProjectRow) returns (err: Option<DbError>)
      modifies this`projects, this`issued
      ensures issued == old(issued) + 1
      ensures err == old(NextFault())
      ensures projects == if err.None? then old(projects) + [row] else old(projects)
    {
      err := NextFault();
      if err.None? {
        projects := projects + [row];
      }
      issued := issued + 1;
    }

    /** `INSERT INTO project_admins`. */
    method InsertAdminLink(link: AdminLink) returns (err: Option<DbError>)
      modifies this`projectAdmins, this`issued
      ensures issued == old(issued) + 1
      ensures err == old(NextFault())
      ensures projectAdmins == if err.None? then old(projectAdmins) + [link] else old(projectAdmins)
    {
      err := NextFault();
      if err.None? {
        projectAdmins := projectAdmins + [link];
      }
      issued := issued + 1;
    }

    /** `INSERT INTO deliverables`. */
    method InsertDeliverable(row: DeliverableRow) returns (err: Option<DbError>)
      modifies this`deliverables, this`issued
      ensures issued == old(issued) + 1
      ensures err == old(NextFault())
      ensures deliverables == if err.None? then old(deliverables) + [row] else old(deliverables)
    {
      err := NextFault();
      if err.None? {
        deliverables := deliverables + [row];
      }
      issued := issued + 1;
    }

    /** A `SELECT` that reads the tables without changing them: only its failure matters here. */
    method Select() returns (err: Option<DbError>)
      modifies this`issued
      ensures issued == old(issued) + 1
      ensures err == old(NextFault())
    {
      err := NextFault();
      issued := issued + 1;
    }
  }
}
