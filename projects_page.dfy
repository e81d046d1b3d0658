/**
 * app/projects/page.tsx: the project list filter, the status counters, the
 * pending badge of a card and the empty state.
 */
module ProjectsPage {
  import opened Wrappers
  import opened Strings
  import opened Seqs

  /** The three statuses the page's `Project` interface declares. */
  datatype Status = Active | Completed | Paused

  /** The status as the API spells it, which is what the status filter compares with. */
  function StatusValue(s: Status): (v: string)
    ensures v != "all"
  {
    match s
    case Active => "active"
    case Completed => "completed"
    case Paused => "paused"
  }

  /** A stored status that is one of the three declared ones. */
  predicate KnownStatus(status: Option<string>) {
    status == Some("active") || status == Some("completed") || status == Some("paused")
  }

  /**
   * A project summary of `/api/projects`, with the fields the page reads;
   * `status` is the column as stored: NULL, or any string.
   */
  datatype Project = Project(
    id: string, name: string, description: string, sector: string, status: Option<string>,
    deliverablesCount: int, pendingDeliverables: int)

  // ---- The filter ----

  /** Empty, or found case-insensitively in the name or the description. */
  predicate MatchesSearch(p: Project, query: string) {
    query == "" || Contains(Lower(p.name), Lower(query)) || Contains(Lower(p.description), Lower(query))
  }

  predicate MatchesSector(p: Project, selectedSector: string) {
    selectedSector == "all" || p.sector == selectedSector
  }

  predicate MatchesStatus(p: Project, selectedStatus: string) {
    selectedStatus == "all" || p.status == Some(selectedStatus)
  }

  /** `filteredProjects`: the projects passing all three filters, in list order. */
  function Filtered(ps: seq<Project>, query: string, selectedSector: string, selectedStatus: string)
    : (r: seq<Project>)
    ensures forall p :: p in r <==>
      p in ps && MatchesSearch(p, query) && MatchesSector(p, selectedSector) && MatchesStatus(p, selectedStatus)
    ensures IsSubsequence(r, ps)
  {
    var keep := (p: Project) =>
      MatchesSearch(p, query) && MatchesSector(p, selectedSector) && MatchesStatus(p, selectedStatus);
    FilterIsSubsequence(ps, keep);
    Filter(ps, keep)
  }

  /** With an empty search and both selectors on `'all'` every project is shown, in order. */
  lemma DefaultFiltersKeepAll(ps: seq<Project>)
    ensures Filtered(ps, "", "all", "all") == ps
  {
    FilterKeepsAll(ps, (p: Project) =>
      MatchesSearch(p, "") && MatchesSector(p, "all") && MatchesStatus(p, "all"));
  }

  // ---- The counters ----

  /** `projectsList.filter(p => p.status === s).length`. */
  function CountWithStatus(ps: seq<Project>, s: Status): (c: nat)
    ensures c <= |ps|
  {
    |Filter(ps, (p: Project) => p.status == Some(StatusValue(s)))|
  }

  /**
   * The three counters together count exactly the projects whose status is
   * one of the three; so they add up to the total when every status is known,
   * and a NULL or other status is missed by all of them.
   */
  lemma {:induction false} StatusCountsSum(ps: seq<Project>)
    ensures CountWithStatus(ps, Active) + CountWithStatus(ps, Completed) + CountWithStatus(ps, Paused)
         == |Filter(ps, (p: Project) => KnownStatus(p.status))|
    ensures (forall i :: 0 <= i < |ps| ==> KnownStatus(ps[i].status)) ==>
      CountWithStatus(ps, Active) + CountWithStatus(ps, Completed) + CountWithStatus(ps, Paused) == |ps|
  {
    if ps != [] {
      StatusCountsSum(ps[1..]);
      CountWithStatusStep(ps, Active);
      CountWithStatusStep(ps, Completed);
      CountWithStatusStep(ps, Paused);
      var known := (p: Project) => KnownStatus(p.status);
      assert Filter(ps, known) == (if known(ps[0]) then [ps[0]] else []) + Filter(ps[1..], known);
    }
    if forall i :: 0 <= i < |ps| ==> KnownStatus(ps[i].status) {
      FilterKeepsAll(ps, (p: Project) => KnownStatus(p.status));
    }
  }

  /** A counter over a non-empty list: the first project, then the rest. */
  lemma CountWithStatusStep(ps: seq<Project>, s: Status)
    requires ps != []
    ensures CountWithStatus(ps, s) == (if ps[0].status == Some(StatusValue(s)) then 1 else 0) + CountWithStatus(ps[1..], s)
  {
  }

  // ---- What a card and the page show ----

  /** The "n en attente" badge of a project card. */
  function PendingBadge(p: Project): (badge: Option<int>)
    ensures badge.Some? <==> p.pendingDeliverables > 0
    ensures badge.Some? ==> badge.value == p.pendingDeliverables
  {
    if p.pendingDeliverables > 0 then Some(p.pendingDeliverables) else None
  }

  /** The texts of the empty state. */
  datatype EmptyState = EmptyState(title: string, description: string, actionLabel: Option<string>)

  /** The body of the page: the cards of the filtered projects, or the empty state. */
  datatype Body = Cards(projects: seq<Project>) | Empty(state: EmptyState)

  const NoProjects := EmptyState(
    "Aucun projet trouvé",
    "Commencez par créer votre premier projet pour organiser vos livrables et collaborateurs.",
    Some("Créer mon premier projet"))

  const NoResults := EmptyState(
    "Aucun résultat pour votre recherche",
    "Essayez de modifier vos critères de recherche ou réinitialisez les filtres.",
    None)

  /**
   * The page body: cards while the filter keeps something; otherwise an empty
   * state chosen only by whether there are projects at all.
   */
  function PageBody(ps: seq<Project>, query: string, selectedSector: string, selectedStatus: string)
    : (b: Body)
    ensures b.Cards? <==> Filtered(ps, query, selectedSector, selectedStatus) != []
    ensures b.Cards? ==> b.projects == Filtered(ps, query, selectedSector, selectedStatus)
    ensures b.Empty? && ps == [] ==> b.state == NoProjects
    ensures b.Empty? && ps != [] ==> b.state == NoResults
  {
    var shown := Filtered(ps, query, selectedSector, selectedStatus);
    if shown != [] then Cards(shown)
    else if ps == [] then Empty(NoProjects)
    else Empty(NoResults)
  }

  /** Without projects the page always offers to create the first one, whatever the filters. */
  lemma NoProjectsOffersCreation(query: string, selectedSector: string, selectedStatus: string)
    ensures PageBody([], query, selectedSector, selectedStatus) == Empty(NoProjects)
    ensures PageBody([], query, selectedSector, selectedStatus).state.actionLabel.Some?
  {
    assert Filtered([], query, selectedSector, selectedStatus) == [];
  }

  /** With projects and the default filters, the cards show all of them. */
  lemma DefaultFiltersShowAllCards(ps: seq<Project>)
    requires ps != []
    ensures PageBody(ps, "", "all", "all") == Cards(ps)
  {
    DefaultFiltersKeepAll(ps);
  }
}
