/**
 * The assignments page (src/pages/Assignments.tsx): the search and status filter over the
 * shift list, the two summary counts, the status badge and the release action.
 */
module Assignments {
  import opened Wrappers
  import opened JsText
  import opened Seqs

  datatype Assignment = Assignment(id: int, facility: string, department: string, date: string,
                                   time: string, status: string, kind: string, unit: string)

  /** The status-filter value that keeps every status. */
  const AllStatuses: string := "all"

  /** An empty search keeps everything; otherwise facility, department or unit must contain it, ignoring case. */
  predicate MatchesSearch(a: Assignment, search: string) {
    || search == []
    || Contains(ToLower(a.facility), ToLower(search))
    || Contains(ToLower(a.department), ToLower(search))
    || Contains(ToLower(a.unit), ToLower(search))
  }

  predicate MatchesStatus(a: Assignment, statusFilter: string) {
    statusFilter == AllStatuses || a.status == statusFilter
  }

  /** `filtered`: the assignments passing both the search and the status filter. */
  function Filtered(all: seq<Assignment>, search: string, statusFilter: string): seq<Assignment> {
    Filter(all, (a: Assignment) => MatchesSearch(a, search) && MatchesStatus(a, statusFilter))
  }

  /** The filtered list is an order-preserving subsequence holding exactly the matching assignments. */
  lemma FilteredSpec(all: seq<Assignment>, search: string, statusFilter: string)
    ensures IsSubsequence(Filtered(all, search, statusFilter), all)
    ensures forall a :: a in Filtered(all, search, statusFilter) <==>
              a in all && MatchesSearch(a, search) && MatchesStatus(a, statusFilter)
  {
    var keep := (a: Assignment) => MatchesSearch(a, search) && MatchesStatus(a, statusFilter);
    FilterIsSubsequence(all, keep);
    forall a ensures a in Filtered(all, search, statusFilter) <==> a in all && keep(a) {
      FilterMembership(all, keep, a);
    }
  }

  /** With no search and the "all" tab, every assignment is listed, in order. */
  lemma NoFilterKeepsAll(all: seq<Assignment>)
    ensures Filtered(all, "", AllStatuses) == all
  {
    FilterKeepsAll(all, (a: Assignment) => MatchesSearch(a, "") && MatchesStatus(a, AllStatuses));
  }

  /** A status tab other than "all" lists only assignments with exactly that status. */
  lemma StatusTabExact(all: seq<Assignment>, search: string, statusFilter: string)
    requires statusFilter != AllStatuses
    ensures forall a :: a in Filtered(all, search, statusFilter) ==> a.status == statusFilter
  {
    FilteredSpec(all, search, statusFilter);
  }

  /** The search is not trimmed: a single space still filters out an assignment whose three fields hold no space. */
  lemma SpaceSearchStillFilters(a: Assignment)
    requires ' ' !in a.facility && ' ' !in a.department && ' ' !in a.unit
    ensures !MatchesSearch(a, " ")
  {
    NoSpaceNotMatched(a.facility);
    NoSpaceNotMatched(a.department);
    NoSpaceNotMatched(a.unit);
  }

  lemma NoSpaceNotMatched(s: string)
    requires ' ' !in s
    ensures !Contains(ToLower(s), ToLower(" "))
  {
    assert ToLower(" ") == " ";
    var t := ToLower(s);
    forall k | 0 <= k < |t| ensures !OccursAt(t, " ", k) {
      assert s[k] in s;
      assert t[k..k + 1][0] == t[k];
    }
    ContainsIffOccurs(ToLower(s), " ");
  }

  /** The "Upcoming" card: upcoming or active assignments in the whole list, whatever the filters. */
  function UpcomingCount(all: seq<Assignment>): nat {
    |Filter(all, (a: Assignment) => a.status == "upcoming" || a.status == "active")|
  }

  /** The "Completed" card, over the whole list as well. */
  function CompletedCount(all: seq<Assignment>): nat {
    |Filter(all, (a: Assignment) => a.status == "completed")|
  }

  /** The two cards never count one assignment twice, and together stay within the list. */
  lemma CountsWithinTotal(all: seq<Assignment>)
    ensures UpcomingCount(all) + CompletedCount(all)
         == |Filter(all, (a: Assignment) => a.status == "upcoming" || a.status == "active" || a.status == "completed")|
    ensures UpcomingCount(all) + CompletedCount(all) <= |all|
  {
    FilterCountDisjoint(all, (a: Assignment) => a.status == "upcoming" || a.status == "active",
                        (a: Assignment) => a.status == "completed",
                        (a: Assignment) => a.status == "upcoming" || a.status == "active" || a.status == "completed");
  }

  /** The counts ignore the filters: a status tab never lists more than its card counts. */
  lemma TabsWithinCounts(all: seq<Assignment>, search: string)
    ensures |Filtered(all, search, "completed")| <= CompletedCount(all)
    ensures |Filtered(all, search, "upcoming")| <= UpcomingCount(all)
    ensures |Filtered(all, search, "active")| <= UpcomingCount(all)
  {
    FilterCountMonotone(all, (a: Assignment) => MatchesSearch(a, search) && MatchesStatus(a, "completed"),
                        (a: Assignment) => a.status == "completed");
    FilterCountMonotone(all, (a: Assignment) => MatchesSearch(a, search) && MatchesStatus(a, "upcoming"),
                        (a: Assignment) => a.status == "upcoming" || a.status == "active");
    FilterCountMonotone(all, (a: Assignment) => MatchesSearch(a, search) && MatchesStatus(a, "active"),
                        (a: Assignment) => a.status == "upcoming" || a.status == "active");
  }

  datatype StatusStyle = StatusStyle(caption: string, className: string)

  /** statusConfig: four known statuses. */
  function StatusConfig(status: string): (c: Option<StatusStyle>)
    ensures c.Some? <==> status in {"active", "upcoming", "pending", "completed"}
  {
    if status == "active" then Some(StatusStyle("In progress", "bg-success/10 text-success border-success/20"))
    else if status == "upcoming" then Some(StatusStyle("Upcoming", "bg-info/10 text-info border-info/20"))
    else if status == "pending" then Some(StatusStyle("Pending", "bg-warning/10 text-warning border-warning/20"))
    else if status == "completed" then Some(StatusStyle("Completed", "bg-muted text-muted-foreground border-border"))
    else None
  }

  /** The badge text: the configured caption, or the raw status for an unknown one. */
  function StatusLabel(status: string): (s: string)
    ensures StatusConfig(status).None? ==> s == status
    ensures StatusConfig(status).Some? ==> s == StatusConfig(status).value.caption && s != status
  {
    match StatusConfig(status)
    case Some(c) => c.caption
    case None => status
  }

  /** The badge class: the configured one, or none. */
  function StatusClass(status: string): (s: string)
    ensures s == [] <==> StatusConfig(status).None?
  {
    match StatusConfig(status)
    case Some(c) => c.className
    case None => ""
  }

  /** "Request release" is offered for upcoming and pending shifts only; an active one, though counted as upcoming, is not. */
  predicate CanRequestRelease(status: string) {
    status == "upcoming" || status == "pending"
  }

  lemma ReleaseOnlyForConfiguredStatuses(status: string)
    ensures CanRequestRelease(status) ==> StatusConfig(status).Some? && status != "active" && status != "completed"
  {
  }

  /** The empty-list hint: a filter is active iff the search is non-empty or the tab is not "all". */
  function EmptyListHint(search: string, statusFilter: string): (hint: string)
    ensures hint == "Try adjusting your search or filter." <==> search != [] || statusFilter != AllStatuses
  {
    if search != [] || statusFilter != AllStatuses then "Try adjusting your search or filter."
    else "You don't have any assignments yet."
  }
}
