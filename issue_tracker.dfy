/**
  The citizen's own issue list of components/citizen/issue-tracker.tsx: the
  progress bar value of a status, the search and status filter, and the list
  state that the live subscription and the loader replace. The database is
  not modelled: what a fetch returns is a parameter, and so is the fallback
  list used when it fails.
 */
module IssueTracker {

  import opened JsValues
  import opened Types
  import opened Text
  import opened Seqs

  /** `getProgressPercentage(status)`. */
  function ProgressPercentage(status: string): (r: nat)
    ensures r in {0, 25, 50, 75, 100}
  {
    if status == "submitted" then 25
    else if status == "acknowledged" then 50
    else if status == "in_progress" then 75
    else if status == "resolved" then 100
    else 0
  }

  /** The forward path an issue takes through the statuses. */
  const ForwardPath: seq<Status> := [Submitted, Acknowledged, InProgress, Resolved]

  /**
    Progress strictly increases along submitted, acknowledged, in progress, resolved; it is full
    exactly for a resolved issue and empty exactly off that path, which includes a rejected issue
    and any string that is not a status.
   */
  lemma ProgressSpec(st: Status, s: string)
    ensures forall i, j :: 0 <= i < j < |ForwardPath| ==>
      ProgressPercentage(ForwardPath[i].Id()) < ProgressPercentage(ForwardPath[j].Id())
    ensures ProgressPercentage(st.Id()) == 100 <==> st == Resolved
    ensures ProgressPercentage(st.Id()) == 0 <==> st == Rejected
    ensures ParseStatus(s).None? ==> ProgressPercentage(s) == 0
  {
  }

  /** The term occurs, ignoring case, in the title or the description; the address is not searched here. */
  predicate MatchesSearch(issue: Issue, term: string) {
    IncludesIgnoreCase(issue.title, term) || IncludesIgnoreCase(issue.description, term)
  }

  predicate Tracked(issue: Issue, searchTerm: string, statusFilter: string) {
    MatchesSearch(issue, searchTerm) && (statusFilter == "all" || issue.status.Id() == statusFilter)
  }

  function TrackedBy(searchTerm: string, statusFilter: string): Issue -> bool {
    (issue: Issue) => Tracked(issue, searchTerm, statusFilter)
  }

  /** `filteredIssues`. */
  function TrackedIssues(issues: seq<Issue>, searchTerm: string, statusFilter: string): (r: seq<Issue>)
    ensures forall i :: 0 <= i < |r| ==> Tracked(r[i], searchTerm, statusFilter)
  {
    Filter(issues, TrackedBy(searchTerm, statusFilter))
  }

  /**
    The list holds exactly the matching issues, as often as the input does and in input order; a
    status filter other than "all" forces equality; moving an issue to another address never
    changes whether it is listed.
   */
  lemma TrackedIssuesSpec(issues: seq<Issue>, searchTerm: string, statusFilter: string, x: Issue, address: string)
    ensures multiset(TrackedIssues(issues, searchTerm, statusFilter))[x] ==
      if Tracked(x, searchTerm, statusFilter) then multiset(issues)[x] else 0
    ensures IsSubsequence(TrackedIssues(issues, searchTerm, statusFilter), issues)
    ensures statusFilter != "all" ==>
      forall i :: 0 <= i < |TrackedIssues(issues, searchTerm, statusFilter)| ==>
        TrackedIssues(issues, searchTerm, statusFilter)[i].status.Id() == statusFilter
    ensures Tracked(x.(location := x.location.(address := address)), searchTerm, statusFilter) ==
      Tracked(x, searchTerm, statusFilter)
  {
    FilterCount(issues, TrackedBy(searchTerm, statusFilter), x);
    FilterIsSubsequence(issues, TrackedBy(searchTerm, statusFilter));
  }

  /** With an empty search and the status filter on "all", every issue is listed. */
  lemma {:induction false} UnfilteredIsEverything(issues: seq<Issue>)
    ensures TrackedIssues(issues, "", "all") == issues
  {
    forall i | 0 <= i < |issues| ensures Tracked(issues[i], "", "all") {
      EmptySearchMatches(issues[i].title);
    }
    FilterKeepsAll(issues, TrackedBy("", "all"));
  }

  function ReportedBy(userId: string): Issue -> bool {
    (issue: Issue) => issue.reportedBy == userId
  }

  /** `allIssues.filter(issue => issue.reportedBy === user.id)`. */
  function UserIssues(all: seq<Issue>, userId: string): (r: seq<Issue>)
    ensures forall i :: 0 <= i < |r| ==> r[i].reportedBy == userId
  {
    Filter(all, ReportedBy(userId))
  }

  /** The user's issues are all of them that the user reported, in order, none dropped. */
  lemma UserIssuesSpec(all: seq<Issue>, userId: string, x: Issue)
    ensures multiset(UserIssues(all, userId))[x] == if x.reportedBy == userId then multiset(all)[x] else 0
    ensures IsSubsequence(UserIssues(all, userId), all)
  {
    FilterCount(all, ReportedBy(userId), x);
    FilterIsSubsequence(all, ReportedBy(userId));
  }

  class Tracker {
    /** The signed-in citizen's id, fixed for the component's life. */
    const userId: string
    var issues: seq<Issue>
    var isLoading: bool
    var searchTerm: string
    var statusFilter: string

    constructor (userId: string)
      ensures this.userId == userId
      ensures issues == [] && isLoading && searchTerm == "" && statusFilter == "all"
    {
      this.userId := userId;
      issues := [];
      isLoading := true;
      searchTerm := "";
      statusFilter := "all";
    }

    /** What the list shows. */
    function FilteredIssues(): seq<Issue>
      reads this
    {
      TrackedIssues(issues, searchTerm, statusFilter)
    }

    /** A snapshot of every issue arrives from the live subscription; only the user's own are kept. */
    method OnSnapshot(allIssues: seq<Issue>)
      modifies this
      ensures issues == UserIssues(allIssues, userId)
      ensures forall i :: 0 <= i < |issues| ==> issues[i].reportedBy == userId
      ensures !isLoading
      ensures searchTerm == old(searchTerm) && statusFilter == old(statusFilter)
    {
      issues := UserIssues(allIssues, userId);
      isLoading := false;
    }

    /** `loadUserIssues()` (and `refreshIssues()`): the fetched list, or the fallback when the fetch throws. */
    method LoadUserIssues(fetched: Result<seq<Issue>>, fallback: seq<Issue>)
      modifies this
      ensures fetched.Ok? ==> issues == fetched.value
      ensures fetched.Err? ==> issues == fallback
      ensures !isLoading
      ensures searchTerm == old(searchTerm) && statusFilter == old(statusFilter)
    {
      isLoading := true;
      if fetched.Ok? {
        issues := fetched.value;
      } else {
        issues := fallback;
      }
      isLoading := false;
    }

    method SetSearchTerm(term: string)
      modifies this
      ensures searchTerm == term
      ensures issues == old(issues) && isLoading == old(isLoading) && statusFilter == old(statusFilter)
    {
      searchTerm := term;
    }

    method SetStatusFilter(filter: string)
      modifies this
      ensures statusFilter == filter
      ensures issues == old(issues) && isLoading == old(isLoading) && searchTerm == old(searchTerm)
    {
      statusFilter := filter;
    }
  }
}
