/**
  The zonal admin's issue list of components/admin/issue-management.tsx: the
  filter over the zone's issues, and the detail dialog from which a status
  update is requested. The update is only validated and acknowledged; the
  component never writes the new status into the issue.
 */
module IssueManagement {

  import opened JsValues
  import opened Types
  import opened Text
  import opened Seqs

  /** The search box and the three drop-down filters; "all" switches a drop-down off. */
  datatype IssueFilters = IssueFilters(
    searchTerm: string,
    statusFilter: string,
    priorityFilter: string,
    categoryFilter: string)

  const NoFilters: IssueFilters := IssueFilters("", "all", "all", "all")

  /** The term occurs, ignoring case, in the title, the description or the address. */
  predicate MatchesSearch(issue: Issue, term: string) {
    || IncludesIgnoreCase(issue.title, term)
    || IncludesIgnoreCase(issue.description, term)
    || IncludesIgnoreCase(issue.location.address, term)
  }

  /** `filter === "all" || value === filter`. */
  predicate MatchesChoice(value: string, filter: string) {
    filter == "all" || value == filter
  }

  /** `issue.location.zone === user.zone`, never true for a user without a zone. */
  predicate InUserZone(issue: Issue, user: User) {
    user.zone == Some(issue.location.zone)
  }

  predicate Listed(issue: Issue, f: IssueFilters, user: User) {
    && MatchesSearch(issue, f.searchTerm)
    && MatchesChoice(issue.status.Id(), f.statusFilter)
    && MatchesChoice(issue.priority.Id(), f.priorityFilter)
    && MatchesChoice(issue.category.Id(), f.categoryFilter)
    && InUserZone(issue, user)
  }

  function ListedBy(f: IssueFilters, user: User): Issue -> bool {
    (issue: Issue) => Listed(issue, f, user)
  }

  /** `filteredIssues`. */
  function FilteredIssues(issues: seq<Issue>, f: IssueFilters, user: User): (r: seq<Issue>)
    ensures forall i :: 0 <= i < |r| ==> Listed(r[i], f, user)
  {
    Filter(issues, ListedBy(f, user))
  }

  /**
    The list holds exactly the issues of the admin's zone that match the search and every active
    filter, each as often as the input does, in input order; an active drop-down forces equality.
   */
  lemma FilteredIssuesSpec(issues: seq<Issue>, f: IssueFilters, user: User, x: Issue)
    ensures multiset(FilteredIssues(issues, f, user))[x] == if Listed(x, f, user) then multiset(issues)[x] else 0
    ensures IsSubsequence(FilteredIssues(issues, f, user), issues)
    ensures forall i :: 0 <= i < |FilteredIssues(issues, f, user)| ==>
      var issue := FilteredIssues(issues, f, user)[i];
      && user.zone == Some(issue.location.zone)
      && (f.statusFilter != "all" ==> issue.status.Id() == f.statusFilter)
      && (f.priorityFilter != "all" ==> issue.priority.Id() == f.priorityFilter)
      && (f.categoryFilter != "all" ==> issue.category.Id() == f.categoryFilter)
  {
    FilterCount(issues, ListedBy(f, user), x);
    FilterIsSubsequence(issues, ListedBy(f, user));
  }

  /** With an empty search and every drop-down on "all", the list is the zone's issues; an admin without a zone sees none. */
  lemma {:induction false} UnfilteredIsZone(issues: seq<Issue>, user: User)
    ensures FilteredIssues(issues, NoFilters, user) == Filter(issues, (issue: Issue) => InUserZone(issue, user))
    ensures user.zone.None? ==> FilteredIssues(issues, NoFilters, user) == []
  {
    if issues != [] {
      EmptySearchMatches(issues[0].title);
      UnfilteredIsZone(issues[1..], user);
    }
  }

  /** The target statuses the dialog offers. */
  const OfferedStatuses: seq<Status> := [Acknowledged, InProgress, Resolved, Rejected]

  /**
    Four targets, every status except submitted: the drop-down never offers submitted, although
    the status preselected on opening an issue may be submitted.
   */
  lemma OfferedStatusesSpec(st: Status)
    ensures |OfferedStatuses| == 4
    ensures st in OfferedStatuses <==> st != Submitted
  {
  }

  /** The check handleUpdateStatus makes before acknowledging: a selection, a status and a non-blank message. */
  function UpdateCheck(selected: Option<Issue>, newStatus: string, message: string): (r: Result<string>)
    ensures r.Ok? ==> r.value == newStatus
  {
    if selected.None? || newStatus == "" || Trim(message) == "" then Err("Missing Information")
    else Ok(newStatus)
  }

  /**
    An update is refused exactly when nothing is selected, no status is chosen, or the message is
    made of whitespace only (the empty message included).
   */
  lemma UpdateCheckSpec(selected: Option<Issue>, newStatus: string, message: string)
    ensures UpdateCheck(selected, newStatus, message).Err? <==>
      selected.None? || newStatus == "" || forall i :: 0 <= i < |message| ==> IsWhitespace(message[i])
    ensures UpdateCheck(selected, newStatus, message).Err? ==>
      UpdateCheck(selected, newStatus, message).message == "Missing Information"
  {
    TrimEmptyIffBlank(message);
  }

  /** Right after opening an issue's details the status is preselected, so only the message decides. */
  lemma ViewThenUpdate(issue: Issue, message: string)
    ensures UpdateCheck(Some(issue), issue.status.Id(), message).Ok? <==>
      exists i :: 0 <= i < |message| && !IsWhitespace(message[i])
  {
    UpdateCheckSpec(Some(issue), issue.status.Id(), message);
  }

  /** The detail dialog's state. */
  class IssueDialog {
    var selectedIssue: Option<Issue>
    var newStatus: string
    var updateMessage: string
    var isDetailModalOpen: bool

    constructor ()
      ensures selectedIssue == None && newStatus == "" && updateMessage == "" && !isDetailModalOpen
    {
      selectedIssue := None;
      newStatus := "";
      updateMessage := "";
      isDetailModalOpen := false;
    }

    /** `handleViewDetails(issue)`: selects the issue, preselects its status and opens the dialog. */
    method HandleViewDetails(issue: Issue)
      modifies this
      ensures selectedIssue == Some(issue) && newStatus == issue.status.Id() && isDetailModalOpen
      ensures updateMessage == old(updateMessage)
    {
      selectedIssue := Some(issue);
      newStatus := issue.status.Id();
      isDetailModalOpen := true;
    }

    /** The status drop-down, which offers only the four targets. */
    method ChooseStatus(st: Status)
      requires st in OfferedStatuses
      modifies this
      ensures newStatus == st.Id() && newStatus != Submitted.Id()
      ensures selectedIssue == old(selectedIssue) && updateMessage == old(updateMessage)
      ensures isDetailModalOpen == old(isDetailModalOpen)
    {
      newStatus := st.Id();
    }

    /** The message box. */
    method EditMessage(message: string)
      modifies this
      ensures updateMessage == message
      ensures selectedIssue == old(selectedIssue) && newStatus == old(newStatus)
      ensures isDetailModalOpen == old(isDetailModalOpen)
    {
      updateMessage := message;
    }

    /** Cancel, or the dialog's own close control. */
    method SetDetailModalOpen(open: bool)
      modifies this
      ensures isDetailModalOpen == open
      ensures selectedIssue == old(selectedIssue) && newStatus == old(newStatus) && updateMessage == old(updateMessage)
    {
      isDetailModalOpen := open;
    }

    /**
      `handleUpdateStatus()`: refused with "Missing Information" and no change, or acknowledged
      with the dialog closed and the message and selection cleared.
     */
    method HandleUpdateStatus() returns (r: Result<string>)
      modifies this
      ensures r == UpdateCheck(old(selectedIssue), old(newStatus), old(updateMessage))
      ensures r.Err? ==>
        && selectedIssue == old(selectedIssue) && newStatus == old(newStatus)
        && updateMessage == old(updateMessage) && isDetailModalOpen == old(isDetailModalOpen)
      ensures r.Ok? ==>
        && !isDetailModalOpen && updateMessage == "" && selectedIssue == None
        && newStatus == old(newStatus)
    {
      r := UpdateCheck(selectedIssue, newStatus, updateMessage);
      if r.Ok? {
        isDetailModalOpen := false;
        updateMessage := "";
        selectedIssue := None;
      }
    }
  }
}
