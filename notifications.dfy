/**
 * app/notifications/page.tsx: the notification list, the handlers that
 * rewrite it, the search and type filter and the counters.
 */
module Notifications {
  import opened Strings
  import opened Seqs

  datatype Notification = Notification(
    id: string, title: string, description: string, kind: string, priority: string,
    date: string, read: bool)

  predicate IsRead(n: Notification) { n.read }

  predicate IsUnread(n: Notification) { !n.read }

  // ---- Rewriting the list ----

  /** `handleMarkAsRead(id)`: `read` is flipped on every item with that id and nowhere else. */
  function ToggleRead(ns: seq<Notification>, id: string): (r: seq<Notification>)
    ensures |r| == |ns|
    ensures forall i :: 0 <= i < |ns| && ns[i].id == id ==> r[i] == ns[i].(read := !ns[i].read)
    ensures forall i :: 0 <= i < |ns| && ns[i].id != id ==> r[i] == ns[i]
  {
    if ns == [] then []
    else [if ns[0].id == id then ns[0].(read := !ns[0].read) else ns[0]] + ToggleRead(ns[1..], id)
  }

  /** Marking the same id twice gives the list back. */
  lemma ToggleReadTwice(ns: seq<Notification>, id: string)
    ensures ToggleRead(ToggleRead(ns, id), id) == ns
  {
    var once := ToggleRead(ns, id);
    var twice := ToggleRead(once, id);
    forall i | 0 <= i < |ns| ensures twice[i] == ns[i] {
      assert once[i].id == ns[i].id;
    }
  }

  /** `handleMarkAllAsRead()`: every item read, nothing else changed. */
  function MarkedAllRead(ns: seq<Notification>): (r: seq<Notification>)
    ensures |r| == |ns|
    ensures forall i :: 0 <= i < |ns| ==> r[i] == ns[i].(read := true)
  {
    if ns == [] then [] else [ns[0].(read := true)] + MarkedAllRead(ns[1..])
  }

  /** Marking all as read a second time changes nothing. */
  lemma MarkAllReadIdempotent(ns: seq<Notification>)
    ensures MarkedAllRead(MarkedAllRead(ns)) == MarkedAllRead(ns)
  {
    var once := MarkedAllRead(ns);
    assert forall i :: 0 <= i < |once| ==> once[i].(read := true) == once[i];
  }

  /** `handleDeleteNotification(id)`: the items with that id go, the rest stay in order. */
  function Deleted(ns: seq<Notification>, id: string): (r: seq<Notification>)
    ensures forall n :: n in r <==> n in ns && n.id != id
    ensures IsSubsequence(r, ns)
  {
    FilterIsSubsequence(ns, (n: Notification) => n.id != id);
    Filter(ns, (n: Notification) => n.id != id)
  }

  /** Deleting an id that no item has leaves the list as it was. */
  lemma DeleteAbsentKeepsAll(ns: seq<Notification>, id: string)
    requires forall i :: 0 <= i < |ns| ==> ns[i].id != id
    ensures Deleted(ns, id) == ns
  {
    FilterKeepsAll(ns, (n: Notification) => n.id != id);
  }

  /** The list the "Supprimer les lues" button leaves, as the page computes it: the read items. */
  function KeptByDeleteReadAsWritten(ns: seq<Notification>): (r: seq<Notification>)
    ensures forall n :: n in r <==> n in ns && n.read
  {
    Filter(ns, IsRead)
  }

  /** The button labelled "delete the read ones" deletes an unread notification and keeps a read one. */
  lemma DeleteReadAsWrittenDropsUnread()
    ensures var unread := Notification("1", "Échéance", "", "deadline", "high", "", false);
            var seen := Notification("2", "Upload", "", "upload", "low", "", true);
            KeptByDeleteReadAsWritten([unread, seen]) == [seen]
  {
    var unread := Notification("1", "Échéance", "", "deadline", "high", "", false);
    var seen := Notification("2", "Upload", "", "upload", "low", "", true);
    assert [unread, seen][1..] == [seen];
  }

  /** What the button is labelled to do: the read items go, the unread ones stay in order. */
  function WithoutRead(ns: seq<Notification>): (r: seq<Notification>)
    ensures forall n :: n in r <==> n in ns && !n.read
    ensures IsSubsequence(r, ns)
    ensures |r| == UnreadCount(ns)
  {
    FilterIsSubsequence(ns, IsUnread);
    Filter(ns, IsUnread)
  }

  /** After marking everything read, deleting the read items empties the list. */
  lemma MarkAllThenDeleteReadEmpties(ns: seq<Notification>)
    ensures WithoutRead(MarkedAllRead(ns)) == []
  {
    MarkAllReadLeavesNoUnread(ns);
  }

  // ---- Filtering and counting ----

  /** The search matches when it is empty or found, case-insensitively, in the title or the description. */
  predicate MatchesSearch(n: Notification, query: string) {
    query == "" || Contains(Lower(n.title), Lower(query)) || Contains(Lower(n.description), Lower(query))
  }

  /** The type filter: `'all'`, or exactly the item's type. */
  predicate MatchesType(n: Notification, selectedType: string) {
    selectedType == "all" || n.kind == selectedType
  }

  /** `filteredNotifications`: the items matching both filters, in list order. */
  function Filtered(ns: seq<Notification>, query: string, selectedType: string): (r: seq<Notification>)
    ensures forall n :: n in r <==> n in ns && MatchesSearch(n, query) && MatchesType(n, selectedType)
    ensures IsSubsequence(r, ns)
  {
    var keep := (n: Notification) => MatchesSearch(n, query) && MatchesType(n, selectedType);
    FilterIsSubsequence(ns, keep);
    Filter(ns, keep)
  }

  /** With an empty search and type `'all'` every notification is shown, in order. */
  lemma DefaultFiltersKeepAll(ns: seq<Notification>)
    ensures Filtered(ns, "", "all") == ns
  {
    FilterKeepsAll(ns, (n: Notification) => MatchesSearch(n, "") && MatchesType(n, "all"));
  }

  /** `notifications.filter(n => !n.read).length`. */
  function UnreadCount(ns: seq<Notification>): (c: nat)
    ensures c <= |ns|
  {
    |Filter(ns, IsUnread)|
  }

  /** `notifications.filter(n => n.read).length`. */
  function ReadCount(ns: seq<Notification>): (c: nat)
    ensures c <= |ns|
  {
    |Filter(ns, IsRead)|
  }

  /** The unread and read sections split the list: their sizes add up to the total. */
  lemma UnreadReadPartition(ns: seq<Notification>)
    ensures UnreadCount(ns) + ReadCount(ns) == |ns|
  {
    FilterComplement(ns, IsUnread, IsRead);
  }

  /** No notification is unread after marking all as read. */
  lemma MarkAllReadLeavesNoUnread(ns: seq<Notification>)
    ensures UnreadCount(MarkedAllRead(ns)) == 0
  {
    var all := MarkedAllRead(ns);
    FilterKeepsAll(all, IsRead);
    UnreadReadPartition(all);
  }

  /** `highPriorityNotifications`. */
  function HighPriorityCount(ns: seq<Notification>): (c: nat)
    ensures c <= |ns|
  {
    |Filter(ns, (n: Notification) => n.priority == "high")|
  }

  /** `todayNotifications`: the items dated "Aujourd'hui". */
  function TodayCount(ns: seq<Notification>): (c: nat)
    ensures c <= |ns|
  {
    |Filter(ns, (n: Notification) => n.date == "Aujourd'hui")|
  }

  /** Marking items read, one id or all of them, changes neither the high-priority nor the "today" counter. */
  lemma {:induction false} ReadStateKeepsCounters(ns: seq<Notification>, id: string)
    ensures HighPriorityCount(MarkedAllRead(ns)) == HighPriorityCount(ns)
    ensures TodayCount(MarkedAllRead(ns)) == TodayCount(ns)
    ensures HighPriorityCount(ToggleRead(ns, id)) == HighPriorityCount(ns)
    ensures TodayCount(ToggleRead(ns, id)) == TodayCount(ns)
  {
    if ns != [] {
      ReadStateKeepsCounters(ns[1..], id);
      assert MarkedAllRead(ns)[1..] == MarkedAllRead(ns[1..]);
      assert ToggleRead(ns, id)[1..] == ToggleRead(ns[1..], id);
    }
  }

  /** The page state: the notification list and the two filters. */
  class NotificationCenter {
    var notifications: seq<Notification>
    var searchQuery: string
    var selectedType: string

    constructor (initial: seq<Notification>)
      ensures notifications == initial && searchQuery == "" && selectedType == "all"
      ensures Visible() == initial
    {
      notifications := initial;
      searchQuery := "";
      selectedType := "all";
      DefaultFiltersKeepAll(initial);
    }

    /** The list the page shows. */
    function Visible(): seq<Notification>
      reads this
    {
      Filtered(notifications, searchQuery, selectedType)
    }

    method MarkAsRead(id: string)
      modifies this`notifications
      ensures notifications == ToggleRead(old(notifications), id)
    {
      notifications := ToggleRead(notifications, id);
    }

    method MarkAllAsRead()
      modifies this`notifications
      ensures notifications == MarkedAllRead(old(notifications))
      ensures UnreadCount(notifications) == 0
    {
      notifications := MarkedAllRead(notifications);
      MarkAllReadLeavesNoUnread(old(notifications));
    }

    method DeleteNotification(id: string)
      modifies this`notifications
      ensures notifications == Deleted(old(notifications), id)
    {
      notifications := Deleted(notifications, id);
    }

    /** "Supprimer les lues", as its label says. */
    method DeleteRead()
      modifies this`notifications
      ensures notifications == WithoutRead(old(notifications))
      ensures |notifications| == UnreadCount(old(notifications))
    {
      notifications := WithoutRead(notifications);
    }

    /** "Réinitialiser les filtres": the whole list is visible again. */
    method ResetFilters()
      modifies this`searchQuery, this`selectedType
      ensures searchQuery == "" && selectedType == "all"
      ensures Visible() == notifications
    {
      searchQuery := "";
      selectedType := "all";
      DefaultFiltersKeepAll(notifications);
    }
  }
}
