/**
 * app/deliverables/page.tsx: the deliverable list filter, the status
 * counters, the project filter options and the actions offered per row.
 */
module DeliverablesPage {
  import opened Wrappers
  import opened Strings
  import opened Seqs

  /** The four statuses the page's `Deliverable` interface declares. */
  datatype Status = Pending | ReceivedOnTime | Late | Upcoming

  /** The status as the API spells it, which is what the status filter compares with. */
  function StatusValue(s: Status): (v: string)
    ensures v != "all"
  {
    match s
    case Pending => "pending"
    case ReceivedOnTime => "received_ontime"
    case Late => "late"
    case Upcoming => "upcoming"
  }

  /** A stored status that is one of the four declared ones. */
  predicate KnownStatus(status: Option<string>) {
    || status == Some("pending") || status == Some("received_ontime")
    || status == Some("late") || status == Some("upcoming")
  }

  /**
   * A row of `/api/deliverables`; `project` is the joined project name and may
   * be null. `status` is the column as stored: NULL, or any string.
   */
  datatype Deliverable = Deliverable(
    id: string, name: string, project: Option<string>, projectId: string, status: Option<string>)

  // ---- The filter ----

  /** Empty, or found case-insensitively in the name or in the project name when there is one. */
  predicate MatchesSearch(d: Deliverable, query: string) {
    || query == ""
    || Contains(Lower(d.name), Lower(query))
    || (d.project.Some? && Contains(Lower(d.project.value), Lower(query)))
  }

  predicate MatchesProject(d: Deliverable, selectedProject: string) {
    selectedProject == "all" || d.projectId == selectedProject
  }

  predicate MatchesStatus(d: Deliverable, selectedStatus: string) {
    selectedStatus == "all" || d.status == Some(selectedStatus)
  }

  /** `Array.isArray(deliverables) ? deliverables : []`, with `None` for data that is not a list yet. */
  function DeliverablesList(data: Option<seq<Deliverable>>): (r: seq<Deliverable>)
    ensures data.None? ==> r == []
    ensures data.Some? ==> r == data.value
  {
    data.GetOr([])
  }

  /** `filteredDeliverables`: the rows passing all three filters, in list order. */
  function Filtered(ds: seq<Deliverable>, query: string, selectedProject: string, selectedStatus: string)
    : (r: seq<Deliverable>)
    ensures forall d :: d in r <==>
      d in ds && MatchesSearch(d, query) && MatchesProject(d, selectedProject) && MatchesStatus(d, selectedStatus)
    ensures IsSubsequence(r, ds)
  {
    var keep := (d: Deliverable) =>
      MatchesSearch(d, query) && MatchesProject(d, selectedProject) && MatchesStatus(d, selectedStatus);
    FilterIsSubsequence(ds, keep);
    Filter(ds, keep)
  }

  /** With an empty search and both selectors on `'all'` the whole list is shown, in order. */
  lemma DefaultFiltersKeepAll(ds: seq<Deliverable>)
    ensures Filtered(ds, "", "all", "all") == ds
  {
    FilterKeepsAll(ds, (d: Deliverable) =>
      MatchesSearch(d, "") && MatchesProject(d, "all") && MatchesStatus(d, "all"));
  }

  /** Selecting a status keeps only rows with that status. */
  lemma StatusFilterSelects(ds: seq<Deliverable>, query: string, selectedProject: string, s: Status)
    ensures forall d :: d in Filtered(ds, query, selectedProject, StatusValue(s)) ==> d.status == Some(StatusValue(s))
  {
  }

  // ---- The counters ----

  /** `deliverablesList.filter(d => d.status === s).length`. */
  function CountWithStatus(ds: seq<Deliverable>, s: Status): (c: nat)
    ensures c <= |ds|
  {
    |Filter(ds, (d: Deliverable) => d.status == Some(StatusValue(s)))|
  }

  /**
   * The four counters together count exactly the rows whose status is one of
   * the four; so they add up to the total when every status is known, and a
   * NULL or other status is missed by all of them.
   */
  lemma {:induction false} StatusCountsSum(ds: seq<Deliverable>)
    ensures CountWithStatus(ds, Pending) + CountWithStatus(ds, ReceivedOnTime)
          + CountWithStatus(ds, Late) + CountWithStatus(ds, Upcoming)
         == |Filter(ds, (d: Deliverable) => KnownStatus(d.status))|
    ensures (forall i :: 0 <= i < |ds| ==> KnownStatus(ds[i].status)) ==>
      CountWithStatus(ds, Pending) + CountWithStatus(ds, ReceivedOnTime)
      + CountWithStatus(ds, Late) + CountWithStatus(ds, Upcoming) == |ds|
  {
    if ds != [] {
      StatusCountsSum(ds[1..]);
      CountWithStatusStep(ds, Pending);
      CountWithStatusStep(ds, ReceivedOnTime);
      CountWithStatusStep(ds, Late);
      CountWithStatusStep(ds, Upcoming);
      var known := (d: Deliverable) => KnownStatus(d.status);
      assert Filter(ds, known) == (if known(ds[0]) then [ds[0]] else []) + Filter(ds[1..], known);
    }
    if forall i :: 0 <= i < |ds| ==> KnownStatus(ds[i].status) {
      FilterKeepsAll(ds, (d: Deliverable) => KnownStatus(d.status));
    }
  }

  /** A counter over a non-empty list: the first row, then the rest. */
  lemma CountWithStatusStep(ds: seq<Deliverable>, s: Status)
    requires ds != []
    ensures CountWithStatus(ds, s) == (if ds[0].status == Some(StatusValue(s)) then 1 else 0) + CountWithStatus(ds[1..], s)
  {
  }

  // ---- Row actions ----

  /** The button of a row: upload, download, or none (the `: null` branch). */
  datatype RowAction = UploadButton | DownloadButton | NoButton

  /** The action button `DeliverablesTable` shows for a row with that stored status. */
  function RowActionFor(status: Option<string>): (a: RowAction)
    ensures a == UploadButton <==> status == Some("pending") || status == Some("upcoming")
    ensures a == DownloadButton <==> status == Some("received_ontime") || status == Some("late")
    ensures a == NoButton <==> !KnownStatus(status)
  {
    if status == Some("pending") || status == Some("upcoming") then UploadButton
    else if status == Some("received_ontime") || status == Some("late") then DownloadButton
    else NoButton
  }

  /**
   * A JSX child as React renders it: a boolean renders nothing, an element
   * renders itself.
   */
  datatype Child = Flag(b: bool) | Element

  predicate Renders(c: Child) { c.Element? }

  /**
   * The "Uploader fichier" entry of the row menu as written:
   * `status === 'pending' || status === 'upcoming' && <button/>`, where `&&`
   * binds tighter than `||`.
   */
  function UploadMenuEntryAsWritten(status: Option<string>): (c: Child)
    ensures Renders(c) <==> status == Some("upcoming")
  {
    if status == Some("pending") then Flag(true)
    else if status == Some("upcoming") then Element
    else Flag(false)
  }

  /** A pending row offers an upload button but no upload entry in its menu. */
  lemma PendingRowMenuLacksUpload()
    ensures RowActionFor(Some("pending")) == UploadButton
    ensures !Renders(UploadMenuEntryAsWritten(Some("pending")))
  {
  }

  /** The entry as the row button suggests it was meant: `(pending || upcoming) && <button/>`. */
  function UploadMenuEntry(status: Option<string>): (c: Child)
    ensures Renders(c) <==> RowActionFor(status) == UploadButton
  {
    if status == Some("pending") || status == Some("upcoming") then Element else Flag(false)
  }

  // ---- The project filter options ----

  datatype FilterOption = FilterOption(value: string, caption: string)

  datatype ProjectRow = ProjectRow(id: string, name: string)

  /** `projectOptions`: 'all' first, then one option per project when the data is a list. */
  function ProjectOptions(projectsData: Option<seq<ProjectRow>>): (r: seq<FilterOption>)
    ensures |r| >= 1 && r[0] == FilterOption("all", "Tous les projets")
    ensures projectsData.None? ==> |r| == 1
    ensures projectsData.Some? ==> |r| == |projectsData.value| + 1
    ensures projectsData.Some? ==> forall i :: 0 <= i < |projectsData.value| ==>
      r[i + 1] == FilterOption(projectsData.value[i].id, projectsData.value[i].name)
  {
    var all := [FilterOption("all", "Tous les projets")];
    match projectsData
    case None => all
    case Some(ps) => all + seq(|ps|, i requires 0 <= i < |ps| => FilterOption(ps[i].id, ps[i].name))
  }
}
