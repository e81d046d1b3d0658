/** `GET` and `POST` of `/api/deliverables` (app/api/deliverables/route.ts). */
module DeliverablesRoute {
  import opened Wrappers
  import opened Js
  import opened Http
  import opened Store

  /**
   * One row of the `GET` query: a deliverable left-joined with its project's
   * name and its assignee's names (NULL when the join finds nothing).
   */
  datatype JoinedRow = JoinedRow(
    row: DeliverableRow, project: Option<string>,
    assignedToFirstName: Option<string>, assignedToLastName: Option<string>)

  /**
   * An element of the `GET` body: the joined row's columns, where the spread
   * `{...d, assignedTo: …}` replaces the assignee's id by a display name.
   */
  datatype Listed = Listed(
    id: string, name: Option<string>, projectId: Option<string>, format: Option<string>,
    deadline: Option<string>, status: Option<string>, project: Option<string>,
    assignedToFirstName: Option<string>, assignedToLastName: Option<string>, assignedTo: string)

  /** The JSON body of `POST /api/deliverables`. */
  datatype NewDeliverableBody = NewDeliverableBody(
    name: JsonField, projectId: JsonField, format: JsonField,
    deadline: JsonField, assignedTo: JsonField)

  /** The 201 body echoes the fields exactly as they were sent (a missing one is left out of the JSON). */
  datatype CreatedDeliverable = CreatedDeliverable(
    id: string, name: JsonField, projectId: JsonField, format: JsonField,
    deadline: JsonField, assignedTo: JsonField)

  const Unassigned := "Unassigned"
  const CreateFailed := "Failed to create deliverable"
  const FetchFailed := "Failed to fetch deliverables"

  /** The display name of the assignee: "first last" when the first name is truthy, else "Unassigned". */
  function AssigneeName(first: Option<string>, last: Option<string>): (r: string)
    ensures Truthy(first) ==> r == first.value + " " + Text(last)
    ensures !Truthy(first) ==> r == Unassigned
  {
    if Truthy(first) then first.value + " " + Text(last) else Unassigned
  }

  /** One formatted row: every column kept except `assignedTo`, which becomes the display name. */
  function ListedOf(d: JoinedRow): Listed {
    Listed(d.row.id, d.row.name, d.row.projectId, d.row.format, d.row.deadline, d.row.status,
           d.project, d.assignedToFirstName, d.assignedToLastName,
           AssigneeName(d.assignedToFirstName, d.assignedToLastName))
  }

  /** The `map` that formats the query rows for the front end. */
  function Format(rows: seq<JoinedRow>): (r: seq<Listed>)
    ensures |r| == |rows|
    ensures forall i :: 0 <= i < |rows| ==>
      && r[i].id == rows[i].row.id && r[i].name == rows[i].row.name
      && r[i].projectId == rows[i].row.projectId && r[i].format == rows[i].row.format
      && r[i].deadline == rows[i].row.deadline && r[i].status == rows[i].row.status
      && r[i].project == rows[i].project
      && r[i].assignedToFirstName == rows[i].assignedToFirstName
      && r[i].assignedToLastName == rows[i].assignedToLastName
      && r[i].assignedTo == AssigneeName(rows[i].assignedToFirstName, rows[i].assignedToLastName)
  {
    if rows == [] then [] else [ListedOf(rows[0])] + Format(rows[1..])
  }

  /** Formatting distributes over concatenation, so it keeps the rows' order. */
  lemma {:induction false} FormatAppend(a: seq<JoinedRow>, b: seq<JoinedRow>)
    ensures Format(a + b) == Format(a) + Format(b)
  {
    if a != [] {
      assert (a + b)[1..] == a[1..] + b;
      FormatAppend(a[1..], b);
    } else {
      assert a + b == b;
    }
  }

  /**
   * The insert binds `name`, `projectId` and `format` as they are;
   * `deadline || null` and `assignedTo || null` are never `undefined`.
   */
  predicate BindsInsert(body: NewDeliverableBody) {
    Bindable(body.name) && Bindable(body.projectId) && Bindable(body.format)
  }

  /** The row `POST` inserts: `null` is stored as NULL, and so are a falsy `deadline` and `assignedTo`. */
  function NewDeliverableRow(body: NewDeliverableBody, id: string): (row: DeliverableRow)
    ensures row.id == id && row.status.None?
    ensures row.name.Some? <==> body.name.Str?
    ensures row.name.Some? ==> row.name.value == body.name.s
    ensures row.projectId.Some? <==> body.projectId.Str?
    ensures row.projectId.Some? ==> row.projectId.value == body.projectId.s
    ensures row.format.Some? <==> body.format.Str?
    ensures row.format.Some? ==> row.format.value == body.format.s
    ensures row.deadline.Some? <==> body.deadline.Str? && body.deadline.s != ""
    ensures row.deadline.Some? ==> row.deadline.value == body.deadline.s
    ensures row.assignedTo.Some? <==> body.assignedTo.Str? && body.assignedTo.s != ""
    ensures row.assignedTo.Some? ==> row.assignedTo.value == body.assignedTo.s
  {
    DeliverableRow(id, ValueOf(body.name), ValueOf(body.projectId), ValueOf(body.format),
                   OrNull(ValueOf(body.deadline)), OrNull(ValueOf(body.assignedTo)), None)
  }

  /** The 201 response echoes the raw `deadline` and `assignedTo`, even when NULL was stored. */
  lemma EchoDiffersFromStored(id: string)
    ensures var body := NewDeliverableBody(Str("n"), Str("p"), Str(".pdf"), Str(""), Str(""));
      && NewDeliverableRow(body, id).deadline == None
      && NewDeliverableRow(body, id).assignedTo == None
      && CreatedDeliverable(id, body.name, body.projectId, body.format, body.deadline, body.assignedTo).deadline == Str("")
  {
  }

  /**
   * `POST /api/deliverables`: a single insert; any failure is a 500.
   * `request` is `None` when `request.json()` throws; a parameter that is
   * `undefined` makes `execute` throw before the statement reaches the server.
   */
  method Post(db: Database, request: Option<NewDeliverableBody>, id: string) returns (resp: Response<CreatedDeliverable>)
    modifies db`deliverables, db`issued
    ensures request.None? || !BindsInsert(request.value) ==>
      resp == Response(500, Error(CreateFailed)) && db.deliverables == old(db.deliverables) && db.issued == old(db.issued)
    ensures request.Some? && BindsInsert(request.value) ==> db.issued == old(db.issued) + 1
    ensures request.Some? && BindsInsert(request.value) && old(db.NextFault()).None? ==>
      var body := request.value;
      && db.deliverables == old(db.deliverables) + [NewDeliverableRow(body, id)]
      && resp == Response(201, Data(CreatedDeliverable(
           id, body.name, body.projectId, body.format, body.deadline, body.assignedTo)))
    ensures request.Some? && BindsInsert(request.value) && old(db.NextFault()).Some? ==>
      db.deliverables == old(db.deliverables) && resp == Response(500, Error(CreateFailed))
  {
    if request.None? || !BindsInsert(request.value) {
      return Response(500, Error(CreateFailed));
    }
    var body := request.value;
    var err := db.InsertDeliverable(NewDeliverableRow(body, id));
    if err.Some? {
      return Response(500, Error(CreateFailed));
    }
    resp := Response(201, Data(CreatedDeliverable(
      id, body.name, body.projectId, body.format, body.deadline, body.assignedTo)));
  }

  /** The first project whose id is `pid` (ids are primary keys), if any. */
  function FindProject(projects: seq<ProjectRow>, pid: Option<string>): (r: Option<ProjectRow>)
    ensures r.Some? ==> r.value in projects && Some(r.value.id) == pid
    ensures r.None? ==> forall i :: 0 <= i < |projects| ==> Some(projects[i].id) != pid
  {
    if projects == [] then None
    else if Some(projects[0].id) == pid then Some(projects[0])
    else FindProject(projects[1..], pid)
  }

  /** The first user whose id is `uid`, if any. */
  function FindUser(users: seq<UserRow>, uid: Option<string>): (r: Option<UserRow>)
    ensures r.Some? ==> r.value in users && Some(r.value.id) == uid
    ensures r.None? ==> forall i :: 0 <= i < |users| ==> Some(users[i].id) != uid
  {
    if users == [] then None
    else if Some(users[0].id) == uid then Some(users[0])
    else FindUser(users[1..], uid)
  }

  /** The two `LEFT JOIN`s of the `GET` query: one joined row per deliverable, in table order. */
  function Join(ds: seq<DeliverableRow>, projects: seq<ProjectRow>, users: seq<UserRow>): (r: seq<JoinedRow>)
    ensures |r| == |ds|
    ensures forall i :: 0 <= i < |ds| ==> r[i].row == ds[i]
    ensures forall i :: 0 <= i < |ds| ==>
      var p := FindProject(projects, ds[i].projectId);
      r[i].project == (if p.Some? then p.value.name else None)
    ensures forall i :: 0 <= i < |ds| ==>
      var u := FindUser(users, ds[i].assignedTo);
      && r[i].assignedToFirstName == (if u.Some? then Some(u.value.firstName) else None)
      && r[i].assignedToLastName == (if u.Some? then Some(u.value.lastName) else None)
  {
    if ds == [] then []
    else
      var p := FindProject(projects, ds[0].projectId);
      var u := FindUser(users, ds[0].assignedTo);
      [JoinedRow(ds[0],
                 if p.Some? then p.value.name else None,
                 if u.Some? then Some(u.value.firstName) else None,
                 if u.Some? then Some(u.value.lastName) else None)]
        + Join(ds[1..], projects, users)
  }

  /** A deliverable without an existing assignee is listed as "Unassigned". */
  lemma UnassignedWithoutUser(ds: seq<DeliverableRow>, projects: seq<ProjectRow>, users: seq<UserRow>, i: nat)
    requires i < |ds| && FindUser(users, ds[i].assignedTo).None?
    ensures Format(Join(ds, projects, users))[i].assignedTo == Unassigned
  {
  }

  /** Ids are primary keys: no two rows share one. */
  ghost predicate DistinctUserIds(users: seq<UserRow>) {
    forall a, b :: 0 <= a < b < |users| ==> users[a].id != users[b].id
  }

  ghost predicate DistinctProjectIds(projects: seq<ProjectRow>) {
    forall a, b :: 0 <= a < b < |projects| ==> projects[a].id != projects[b].id
  }

  /** With unique ids, the user the join finds is the one whose id is the assignee's. */
  lemma FindUserUnique(users: seq<UserRow>, u: UserRow)
    requires DistinctUserIds(users) && u in users
    ensures FindUser(users, Some(u.id)) == Some(u)
  {
    var r := FindUser(users, Some(u.id));
    var b :| 0 <= b < |users| && users[b] == u;
    assert r.Some?;
    var a :| 0 <= a < |users| && users[a] == r.value;
    assert a == b;
  }

  /** With unique ids, the project the join finds is the one whose id is the deliverable's. */
  lemma FindProjectUnique(projects: seq<ProjectRow>, p: ProjectRow)
    requires DistinctProjectIds(projects) && p in projects
    ensures FindProject(projects, Some(p.id)) == Some(p)
  {
    var r := FindProject(projects, Some(p.id));
    var b :| 0 <= b < |projects| && projects[b] == p;
    assert r.Some?;
    var a :| 0 <= a < |projects| && projects[a] == r.value;
    assert a == b;
  }

  /** A deliverable assigned to an existing user with a first name is listed under "first last". */
  lemma AssignedUserNamed(ds: seq<DeliverableRow>, projects: seq<ProjectRow>, users: seq<UserRow>, i: nat, u: UserRow)
    requires DistinctUserIds(users) && u in users
    requires i < |ds| && ds[i].assignedTo == Some(u.id) && u.firstName != ""
    ensures Format(Join(ds, projects, users))[i].assignedTo == u.firstName + " " + u.lastName
  {
    FindUserUnique(users, u);
  }

  /** A deliverable of an existing project is listed with that project's name. */
  lemma ProjectNamed(ds: seq<DeliverableRow>, projects: seq<ProjectRow>, users: seq<UserRow>, i: nat, p: ProjectRow)
    requires DistinctProjectIds(projects) && p in projects
    requires i < |ds| && ds[i].projectId == Some(p.id)
    ensures Format(Join(ds, projects, users))[i].project == p.name
  {
    FindProjectUnique(projects, p);
  }

  /** `GET /api/deliverables`. */
  method Get(db: Database) returns (resp: Response<seq<Listed>>)
    modifies db`issued
    ensures db.issued == old(db.issued) + 1
    ensures old(db.NextFault()).None? ==>
      resp == Response(200, Data(Format(Join(db.deliverables, db.projects, db.users))))
    ensures old(db.NextFault()).Some? ==> resp == Response(500, Error(FetchFailed))
  {
    var err := db.Select();
    if err.Some? {
      return Response(500, Error(FetchFailed));
    }
    resp := Response(200, Data(Format(Join(db.deliverables, db.projects, db.users))));
  }
}
