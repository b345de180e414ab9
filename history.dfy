/** The check-history page: its state, its tabs and counts, loading the list and deleting every check. */
module History {
  import opened Wrappers
  import opened Js
  import opened Types
  import opened CheckLists

  const FetchFallback := "Failed to fetch checks"
  const DeleteFallback := "Failed to delete checks"

  /** The number shown on each tab. */
  datatype StatusCounts = StatusCounts(all: nat, pending: nat, completed: nat, failed: nat)

  function TabCount(counts: StatusCounts, f: StatusFilter): nat {
    match f
    case All => counts.all
    case PendingTab => counts.pending
    case CompletedTab => counts.completed
    case FailedTab => counts.failed
  }

  class HistoryPage {
    var checks: seq<CheckListItem>
    var loading: bool
    var error: Option<string>
    var filter: StatusFilter
    var isDeleting: bool

    /** The page as first rendered: loading, no checks, the "all" tab. */
    constructor ()
      ensures checks == [] && loading && error == None && filter == All && !isDeleting
    {
      checks := [];
      loading := true;
      error := None;
      filter := All;
      isDeleting := false;
    }

    /** The per-tab counts; they add up when every status is a known one. */
    function Counts(): (counts: StatusCounts)
      reads this
      ensures counts.all == |checks|
      ensures forall f :: TabCount(counts, f) == Count(checks, f)
      ensures AllStatusesKnown(checks) ==> counts.pending + counts.completed + counts.failed == counts.all
    {
      TabsPartition(checks);
      CountAllIsLength(checks);
      StatusCounts(|checks|, Count(checks, PendingTab), Count(checks, CompletedTab), Count(checks, FailedTab))
    }

    /**
     * The checks shown under the selected tab: exactly the matching checks,
     * in list order, as many as the tab's count; all of them under "all".
     */
    function FilteredChecks(): (r: seq<CheckListItem>)
      reads this
      ensures IsSubsequence(r, checks)
      ensures forall c :: c in r <==> c in checks && Matches(filter, c)
      ensures |r| == TabCount(Counts(), filter)
      ensures filter == All ==> r == checks
    {
      FilterIsSubsequence(checks, filter);
      FilterLengthIsCount(checks, filter);
      FilterAllIsWholeList(checks);
      Filter(checks, filter)
    }

    /** Clicking a tab. */
    method SelectFilter(f: StatusFilter)
      modifies this
      ensures filter == f
      ensures checks == old(checks) && loading == old(loading) && error == old(error) && isDeleting == old(isDeleting)
    {
      filter := f;
    }

    /**
     * `fetchChecks`: on success the list, newest first; on failure the list
     * is kept and the error set (a success leaves an earlier error shown).
     * Loading ends in every case.
     */
    method FetchChecks(reply: Fetched<seq<CheckListItem>>)
      modifies this
      ensures !loading
      ensures filter == old(filter) && isDeleting == old(isDeleting)
      ensures !FetchFailed(reply) ==>
        && checks == SortNewestFirst(reply.json.value)
        && NewestFirst(checks) && multiset(checks) == multiset(reply.json.value)
        && error == old(error)
      ensures FetchFailed(reply) ==>
        checks == old(checks) && error == Some(FailureMessage(reply, ["error"], FetchFallback))
      ensures reply.NotOk? && reply.errorJson.Ok? && !reply.errorJson.value.JNull? ==>
        var data := reply.errorJson.value;
        error == Some(if TruthyMember(data, "error") then ToJsString(data.members["error"]) else FetchFallback)
    {
      loading := true;
      if FetchFailed(reply) {
        error := Some(FailureMessage(reply, ["error"], FetchFallback));
      } else {
        checks := SortNewestFirst(reply.json.value);
      }
      loading := false;
    }

    /**
     * `handleDeleteAll`: nothing happens unless the user confirms; a
     * successful delete (whose body is not read) empties the list; a failed
     * one keeps it and sets the error. Deleting ends in every case.
     */
    method HandleDeleteAll(confirmed: bool, reply: Fetched<()>)
      modifies this
      ensures !confirmed ==>
        checks == old(checks) && loading == old(loading) && error == old(error) && isDeleting == old(isDeleting)
      ensures confirmed ==> !isDeleting
      ensures confirmed && reply.Succeeded? ==> checks == [] && error == old(error)
      ensures confirmed && !reply.Succeeded? ==>
        checks == old(checks) && error == Some(FailureMessage(reply, ["error"], DeleteFallback))
      ensures confirmed && reply.NotOk? && reply.errorJson.Ok? && !reply.errorJson.value.JNull? ==>
        var data := reply.errorJson.value;
        error == Some(if TruthyMember(data, "error") then ToJsString(data.members["error"]) else DeleteFallback)
      ensures filter == old(filter) && loading == old(loading)
    {
      if !confirmed {
        return;
      }
      isDeleting := true;
      if reply.Succeeded? {
        checks := [];
      } else {
        error := Some(FailureMessage(reply, ["error"], DeleteFallback));
      }
      isDeleting := false;
    }
  }
}
