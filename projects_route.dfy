/** `GET` and `POST` of `/api/projects` (app/api/projects/route.ts). */
module ProjectsRoute {
  import opened Wrappers
  import opened Js
  import opened Http
  import opened Seqs
  import opened Store

  /** The `admins` field of the body: only an array is linked. */
  datatype AdminsField = Absent | NotAnArray | Ids(ids: seq<string>)

  /** The JSON body of `POST /api/projects`. */
  datatype NewProjectBody = NewProjectBody(
    name: JsonField, description: JsonField, sector: JsonField,
    deliveryDate: JsonField, admins: AdminsField)

  /** The 201 body echoes the body's fields as they were sent (a missing one is left out of the JSON). */
  datatype CreatedProject = CreatedProject(
    id: string, name: JsonField, description: JsonField, sector: JsonField,
    deliveryDate: JsonField)

  /** One element of `GET /api/projects`: the row and its three correlated counts. */
  datatype ProjectSummary = ProjectSummary(
    project: ProjectRow, adminCount: nat, deliverablesCount: nat, pendingDeliverables: nat)

  const CreateFailed := "Failed to create project"
  const FetchFailed := "Failed to fetch projects"

  /** The admin ids the loop links: none unless `admins` is an array. */
  function AdminIds(admins: AdminsField): seq<string> {
    if admins.Ids? then admins.ids else []
  }

  /**
   * The project insert binds `name`, `description` and `sector` as they are;
   * `deliveryDate || null` is never `undefined`.
   */
  predicate BindsInsert(body: NewProjectBody) {
    Bindable(body.name) && Bindable(body.description) && Bindable(body.sector)
  }

  /** The row `POST` inserts; `null` is stored as NULL, and so is a falsy delivery date. */
  function NewProjectRow(body: NewProjectBody, id: string): (row: ProjectRow)
    ensures row.id == id
    ensures row.name.Some? <==> body.name.Str?
    ensures row.name.Some? ==> row.name.value == body.name.s
    ensures row.description.Some? <==> body.description.Str?
    ensures row.description.Some? ==> row.description.value == body.description.s
    ensures row.sector.Some? <==> body.sector.Str?
    ensures row.sector.Some? ==> row.sector.value == body.sector.s
    ensures row.deliveryDate.Some? <==> body.deliveryDate.Str? && body.deliveryDate.s != ""
    ensures row.deliveryDate.Some? ==> row.deliveryDate.value == body.deliveryDate.s
  {
    ProjectRow(id, ValueOf(body.name), ValueOf(body.description), ValueOf(body.sector),
               OrNull(ValueOf(body.deliveryDate)), None, None)
  }

  /** The `project_admins` rows linking each id, in order, to project `pid`. */
  function Links(pid: string, ids: seq<string>): (r: seq<AdminLink>)
    ensures |r| == |ids|
    ensures forall i :: 0 <= i < |ids| ==> r[i] == AdminLink(pid, ids[i])
  {
    if ids == [] then [] else [AdminLink(pid, ids[0])] + Links(pid, ids[1..])
  }

  /**
   * How many of the `n` statements numbered from `start` run before the first
   * injected failure (`n` when none of them fails).
   */
  function FirstFault(faults: map<nat, DbError>, start: nat, n: nat): (k: nat)
    ensures k <= n
    ensures forall j :: start <= j < start + k ==> j !in faults
    ensures k < n ==> start + k in faults
    decreases n
  {
    if n == 0 || start in faults then 0 else 1 + FirstFault(faults, start + 1, n - 1)
  }

  /**
   * `POST /api/projects`: one project insert, then one link insert per admin
   * id, without a transaction. `request` is `None` when `request.json()`
   * throws; a parameter that is `undefined` makes `execute` throw before any
   * statement reaches the server. Both end in the `catch`.
   */
  method Post(db: Database, request: Option<NewProjectBody>, id: string) returns (resp: Response<CreatedProject>)
    modifies db`projects, db`projectAdmins, db`issued
    ensures request.None? || !BindsInsert(request.value) ==>
      && resp == Response(500, Error(CreateFailed))
      && db.projects == old(db.projects) && db.projectAdmins == old(db.projectAdmins)
      && db.issued == old(db.issued)
    ensures request.Some? && BindsInsert(request.value) ==>
      var body := request.value;
      var ids := AdminIds(body.admins);
      var k := FirstFault(old(db.faults), old(db.issued), 1 + |ids|);
      && (k == 0 ==> db.projects == old(db.projects) && db.projectAdmins == old(db.projectAdmins))
      && (k > 0 ==> db.projects == old(db.projects) + [NewProjectRow(body, id)] &&
                    db.projectAdmins == old(db.projectAdmins) + Links(id, ids[..k - 1]))
      && db.issued == old(db.issued) + (if k == 1 + |ids| then k else k + 1)
      && (k == 1 + |ids| ==> resp == Response(201, Data(CreatedProject(
            id, body.name, body.description, body.sector, body.deliveryDate))))
      && (k < 1 + |ids| ==> resp == Response(500, Error(CreateFailed)))
  {
    if request.None? || !BindsInsert(request.value) {
      return Response(500, Error(CreateFailed));
    }
    var body := request.value;
    var ids := AdminIds(body.admins);
    var err := db.InsertProject(NewProjectRow(body, id));
    if err.Some? {
      return Response(500, Error(CreateFailed));
    }
    var failed := InsertLinks(db, id, ids);
    if failed {
      return Response(500, Error(CreateFailed));
    }
    resp := Response(201, Data(CreatedProject(id, body.name, body.description, body.sector, body.deliveryDate)));
  }

  /**
   * The loop over the admin ids: one link insert per id, in order, stopping
   * at the first failure, which it reports.
   */
  method InsertLinks(db: Database, pid: string, ids: seq<string>) returns (failed: bool)
    modifies db`projectAdmins, db`issued
    ensures failed <==> FirstFault(db.faults, old(db.issued), |ids|) < |ids|
    ensures db.projectAdmins ==
      old(db.projectAdmins) + Links(pid, ids[..FirstFault(db.faults, old(db.issued), |ids|)])
    ensures db.issued == old(db.issued) + FirstFault(db.faults, old(db.issued), |ids|) + (if failed then 1 else 0)
  {
    ghost var start := db.issued;
    ghost var k := FirstFault(db.faults, start, |ids|);
    var i := 0;
    while i < |ids|
      invariant i <= k
      invariant db.issued == start + i
      invariant db.projectAdmins == old(db.projectAdmins) + Links(pid, ids[..i])
    {
      var err := db.InsertAdminLink(AdminLink(pid, ids[i]));
      if err.Some? {
        return true;
      }
      LinksPrefixStep(pid, ids, i);
      i := i + 1;
    }
    assert ids[..|ids|] == ids;
    failed := false;
  }

  /** The links of one more id extend the links of the shorter prefix by that id's link. */
  lemma LinksPrefixStep(pid: string, ids: seq<string>, i: nat)
    requires i < |ids|
    ensures Links(pid, ids[..i + 1]) == Links(pid, ids[..i]) + [AdminLink(pid, ids[i])]
  {
  }

  /** Number of `project_admins` rows of project `pid`. */
  function AdminCount(links: seq<AdminLink>, pid: string): nat {
    |Filter(links, (l: AdminLink) => l.projectId == pid)|
  }

  /** Number of `deliverables` rows of project `pid` (a NULL project id matches none). */
  function DeliverablesCount(ds: seq<DeliverableRow>, pid: string): nat {
    |Filter(ds, (d: DeliverableRow) => d.projectId == Some(pid))|
  }

  /** Number of `deliverables` rows of project `pid` whose status is 'pending'. */
  function PendingCount(ds: seq<DeliverableRow>, pid: string): nat {
    |Filter(ds, (d: DeliverableRow) => d.projectId == Some(pid) && d.status == Some("pending"))|
  }

  /** The body of a successful `GET`: every project in table order with its counts. */
  function Summaries(projects: seq<ProjectRow>, links: seq<AdminLink>, ds: seq<DeliverableRow>)
    : (r: seq<ProjectSummary>)
    ensures |r| == |projects|
    ensures forall i :: 0 <= i < |r| ==>
      && r[i].project == projects[i]
      && r[i].adminCount == AdminCount(links, projects[i].id)
      && r[i].deliverablesCount == DeliverablesCount(ds, projects[i].id)
      && r[i].pendingDeliverables == PendingCount(ds, projects[i].id)
      && r[i].pendingDeliverables <= r[i].deliverablesCount
  {
    if projects == [] then []
    else
      var p := projects[0];
      PendingAtMostDeliverables(ds, p.id);
      [ProjectSummary(p, AdminCount(links, p.id), DeliverablesCount(ds, p.id), PendingCount(ds, p.id))]
        + Summaries(projects[1..], links, ds)
  }

  /** The pending deliverables of a project are among its deliverables. */
  lemma PendingAtMostDeliverables(ds: seq<DeliverableRow>, pid: string)
    ensures PendingCount(ds, pid) <= DeliverablesCount(ds, pid)
  {
    FilterMonotone(ds, (d: DeliverableRow) => d.projectId == Some(pid) && d.status == Some("pending"),
                       (d: DeliverableRow) => d.projectId == Some(pid));
  }

  /** Linking `ids` to project `pid` raises its admin count by exactly `|ids|` and leaves other projects' counts alone. */
  lemma {:induction false} AdminCountAfterLinks(links: seq<AdminLink>, pid: string, ids: seq<string>, other: string)
    requires other != pid
    ensures AdminCount(links + Links(pid, ids), pid) == AdminCount(links, pid) + |ids|
    ensures AdminCount(links + Links(pid, ids), other) == AdminCount(links, other)
  {
    var own := (l: AdminLink) => l.projectId == pid;
    var theirs := (l: AdminLink) => l.projectId == other;
    FilterAppend(links, Links(pid, ids), own);
    FilterAppend(links, Links(pid, ids), theirs);
    FilterKeepsAll(Links(pid, ids), own);
    FilterNone(Links(pid, ids), theirs);
  }

  /**
   * A project created with a fresh id and admins `ids`, all links inserted,
   * reports `adminCount == |ids|` in the next `GET`.
   */
  lemma FreshProjectAdminCount(links: seq<AdminLink>, pid: string, ids: seq<string>)
    requires forall i :: 0 <= i < |links| ==> links[i].projectId != pid
    ensures AdminCount(links + Links(pid, ids), pid) == |ids|
  {
    AdminCountAfterLinks(links, pid, ids, pid + "'");
    FilterNone(links, (l: AdminLink) => l.projectId == pid);
  }

  /** `GET /api/projects`. */
  method Get(db: Database) returns (resp: Response<seq<ProjectSummary>>)
    modifies db`issued
    ensures db.issued == old(db.issued) + 1
    ensures old(db.NextFault()).None? ==>
      resp == Response(200, Data(Summaries(db.projects, db.projectAdmins, db.deliverables)))
    ensures old(db.NextFault()).Some? ==> resp == Response(500, Error(FetchFailed))
  {
    var err := db.Select();
    if err.Some? {
      return Response(500, Error(FetchFailed));
    }
    resp := Response(200, Data(Summaries(db.projects, db.projectAdmins, db.deliverables)));
  }
}
