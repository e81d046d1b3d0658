/** `GET` and `POST` of `/api/users` (app/api/users/route.ts). */
module UsersRoute {
  import opened Wrappers
  import opened Js
  import opened Http
  import opened Store
  import opened Strings

  /** The JSON body of `POST /api/users`. */
  datatype NewUserBody = NewUserBody(
    firstName: Option<string>, lastName: Option<string>, email: Option<string>,
    role: Option<string>, password: Option<string>, avatarColor: Option<string>)

  /** The 201 body: the new user without its password, with `role` echoed exactly as it was sent. */
  datatype CreatedUser = CreatedUser(
    id: string, firstName: string, lastName: string, email: string,
    role: Option<string>, avatarColor: string)

  /** One element of `GET /api/users`: the eight selected columns, never the password. */
  datatype UserListing = UserListing(
    id: string, firstName: string, lastName: string, email: string, role: string,
    status: Option<string>, avatarColor: string, createdAt: Option<string>)

  const DefaultRole := "user"
  const DefaultAvatarColor := "bg-indigo-600"
  const MissingFields := "Missing required fields"
  const EmailExists := "Email already exists"
  const CreateFailed := "Failed to create user"

  /** The four fields `POST` refuses to go without: each must be present and non-empty. */
  predicate HasRequiredFields(body: NewUserBody) {
    Truthy(body.firstName) && Truthy(body.lastName) && Truthy(body.email) && Truthy(body.password)
  }

  /** The row `POST` inserts, given the password hash function and the generated id. */
  function NewUserRow(body: NewUserBody, hash: string -> string, id: string): (row: UserRow)
    requires HasRequiredFields(body)
    ensures row.id == id
    ensures row.firstName == body.firstName.value && row.lastName == body.lastName.value
    ensures row.email == body.email.value
    ensures row.password == hash(body.password.value)
    ensures row.role != "" && (Truthy(body.role) ==> row.role == body.role.value)
    ensures !Truthy(body.role) ==> row.role == DefaultRole
    ensures row.avatarColor != "" && (Truthy(body.avatarColor) ==> row.avatarColor == body.avatarColor.value)
    ensures !Truthy(body.avatarColor) ==> row.avatarColor == DefaultAvatarColor
  {
    UserRow(id, body.firstName.value, body.lastName.value, body.email.value,
            Or(body.role, DefaultRole), hash(body.password.value),
            Or(body.avatarColor, DefaultAvatarColor), None, None)
  }

  /** The response to a failed `INSERT`: a duplicate email is the caller's fault (400), anything else is 500. */
  function InsertFailure(e: DbError): (r: Response<CreatedUser>)
    ensures r.status == 400 <==> e.code == DupEntry
    ensures r.status == 400 || r.status == 500
    ensures r.body == Error(if e.code == DupEntry then EmailExists else CreateFailed)
  {
    if e.code == DupEntry then Response(400, Error(EmailExists)) else Response(500, Error(CreateFailed))
  }

  /**
   * What `POST /api/users` answers and what the `users` table holds afterwards,
   * given the failure injected for its `INSERT`.
   */
  function PostOutcome(users: seq<UserRow>, fault: Option<DbError>, body: NewUserBody,
                       hash: string -> string, id: string): (r: (Response<CreatedUser>, seq<UserRow>))
    ensures !HasRequiredFields(body) ==> r == (Response(400, Error(MissingFields)), users)
    ensures r.0.status == 201 <==>
      HasRequiredFields(body) && fault.None? && !EmailTaken(users, body.email.value)
    ensures r.0.status == 201 ==>
      r.1 == users + [NewUserRow(body, hash, id)] &&
      r.0.body == Data(CreatedUser(id, body.firstName.value, body.lastName.value, body.email.value,
                                   body.role, Or(body.avatarColor, DefaultAvatarColor)))
    ensures r.0.status != 201 ==> r.1 == users && r.0.body.Error?
    ensures HasRequiredFields(body) && fault.None? && EmailTaken(users, body.email.value) ==>
      r.0 == Response(400, Error(EmailExists))
    ensures HasRequiredFields(body) && fault.Some? ==> r.0 == InsertFailure(fault.value)
  {
    if !HasRequiredFields(body) then
      (Response(400, Error(MissingFields)), users)
    else
      var row := NewUserRow(body, hash, id);
      match UserInsertError(users, fault, row)
      case Some(e) => (InsertFailure(e), users)
      case None =>
        var created := CreatedUser(id, row.firstName, row.lastName, row.email, body.role, row.avatarColor);
        (Response(201, Data(created)), users + [row])
  }

  /** No two users share an email. */
  ghost predicate UniqueEmails(users: seq<UserRow>) {
    forall i, j :: 0 <= i < j < |users| ==> users[i].email != users[j].email
  }

  /** The unique index keeps emails unique whatever `POST` is asked to insert. */
  lemma PostKeepsEmailsUnique(users: seq<UserRow>, fault: Option<DbError>, body: NewUserBody,
                              hash: string -> string, id: string)
    requires UniqueEmails(users)
    ensures UniqueEmails(PostOutcome(users, fault, body, hash, id).1)
  {
    var r := PostOutcome(users, fault, body, hash, id);
    if r.0.status == 201 {
      var row := NewUserRow(body, hash, id);
      assert !EmailTaken(users, row.email);
      assert r.1 == users + [row];
    }
  }

  /**
   * `POST /api/users`: validate, hash, insert, and map a driver error to a
   * response. `request` is `None` when `request.json()` throws; the error
   * then has no `ER_DUP_ENTRY` code and the `catch` answers 500.
   */
  method Post(db: Database, request: Option<NewUserBody>, hash: string -> string, id: string)
    returns (resp: Response<CreatedUser>)
    modifies db`users, db`issued
    ensures request.None? ==>
      resp == Response(500, Error(CreateFailed)) && db.users == old(db.users) && db.issued == old(db.issued)
    ensures request.Some? && HasRequiredFields(request.value) ==>
      (resp, db.users) == PostOutcome(old(db.users), old(db.NextFault()), request.value, hash, id) &&
      db.issued == old(db.issued) + 1
    ensures request.Some? && !HasRequiredFields(request.value) ==>
      resp == Response(400, Error(MissingFields)) && db.users == old(db.users) && db.issued == old(db.issued)
  {
    if request.None? {
      return Response(500, Error(CreateFailed));
    }
    var body := request.value;
    if !HasRequiredFields(body) {
      return Response(400, Error(MissingFields));
    }
    var row := NewUserRow(body, hash, id);
    var err := db.InsertUser(row);
    if err.Some? {
      return InsertFailure(err.value);
    }
    resp := Response(201, Data(CreatedUser(id, row.firstName, row.lastName, row.email, body.role, row.avatarColor)));
  }

  /** The columns `GET` selects from one row. */
  function ListingOf(row: UserRow): UserListing {
    UserListing(row.id, row.firstName, row.lastName, row.email, row.role, row.status, row.avatarColor, row.createdAt)
  }

  /** The body of a successful `GET`: every user, in table order, without passwords. */
  function Listing(rows: seq<UserRow>): (r: seq<UserListing>)
    ensures |r| == |rows|
    ensures forall i :: 0 <= i < |rows| ==>
      r[i].id == rows[i].id && r[i].email == rows[i].email && r[i].role == rows[i].role &&
      r[i].firstName == rows[i].firstName && r[i].lastName == rows[i].lastName &&
      r[i].status == rows[i].status && r[i].avatarColor == rows[i].avatarColor &&
      r[i].createdAt == rows[i].createdAt
  {
    if rows == [] then [] else [ListingOf(rows[0])] + Listing(rows[1..])
  }

  /** The 500 body of `GET`, which echoes the driver's message and code. */
  function ListingFailure(e: DbError): (r: Response<seq<UserListing>>)
    ensures r.status == 500
    ensures r.body.Error? && StartsWithDatabaseError(r.body.error)
    ensures Contains(r.body.error, e.message) && Contains(r.body.error, e.code)
  {
    var text := "Database Error: " + e.message + " (Code: " + e.code + ")";
    ContainsAt(text, 16, e.message);
    ContainsAt(text, 16 + |e.message| + 8, e.code);
    Response(500, Error(text))
  }

  predicate StartsWithDatabaseError(s: string) {
    |s| >= 16 && s[..16] == "Database Error: "
  }

  /** `GET /api/users`. */
  method Get(db: Database) returns (resp: Response<seq<UserListing>>)
    modifies db`issued
    ensures db.issued == old(db.issued) + 1
    ensures old(db.NextFault()).None? ==> resp == Response(200, Data(Listing(db.users)))
    ensures old(db.NextFault()).Some? ==> resp == ListingFailure(old(db.NextFault()).value)
  {
    var rows, err := db.SelectUsers();
    if err.Some? {
      return ListingFailure(err.value);
    }
    resp := Response(200, Data(Listing(rows)));
  }
}
