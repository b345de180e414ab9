/** The dashboard: the key's usage and the five most recent checks, loaded together. */
module Dashboard {
  import opened Wrappers
  import opened Js
  import opened Types
  import opened CheckLists

  const LoadFailedMessage := "Failed to load dashboard data"
  const RecentLimit := 5

  function Min(a: int, b: int): int {
    if a <= b then a else b
  }

  /**
   * `sort(newest first).slice(0, 5)`: the first five checks in newest-first
   * order, or all of them when there are fewer.
   */
  function Recent(checks: seq<CheckListItem>): (r: seq<CheckListItem>)
    ensures |r| == Min(|checks|, RecentLimit)
    ensures r == SortNewestFirst(checks)[..|r|]
    ensures NewestFirst(r)
    ensures multiset(r) <= multiset(checks)
  {
    var sorted := SortNewestFirst(checks);
    var r := sorted[..Min(|checks|, RecentLimit)];
    assert sorted == r + sorted[|r|..];
    r
  }

  /** What is left of a list after its first `k` elements is what its multiset loses with them. */
  lemma DroppedAreSuffix(s: seq<CheckListItem>, k: nat, x: CheckListItem)
    requires k <= |s|
    requires x in multiset(s) - multiset(s[..k])
    ensures exists j | k <= j < |s| :: s[j] == x
  {
    assert s == s[..k] + s[k..];
    assert multiset(s) == multiset(s[..k]) + multiset(s[k..]);
    assert x in s[k..];
    var j :| 0 <= j < |s[k..]| && s[k..][j] == x;
    assert s[k + j] == x;
  }

  /** Every check kept on the dashboard is at least as new as every check left out. */
  lemma RecentAreNewest(checks: seq<CheckListItem>, kept: CheckListItem, dropped: CheckListItem)
    requires kept in Recent(checks)
    requires dropped in multiset(checks) - multiset(Recent(checks))
    ensures kept.createdAt >= dropped.createdAt
  {
    var sorted := SortNewestFirst(checks);
    var r := Recent(checks);
    assert r == sorted[..|r|];
    DroppedAreSuffix(sorted, |r|, dropped);
    var j :| |r| <= j < |sorted| && sorted[j] == dropped;
    var i :| 0 <= i < |r| && r[i] == kept;
    assert sorted[i] == kept;
  }

  class DashboardPage {
    var apiKeyDetails: Option<ApiKeyDetails>
    var recentChecks: seq<CheckListItem>
    var loading: bool
    var error: Option<string>

    /** At most five recent checks are ever shown. */
    ghost predicate Valid()
      reads this
    {
      |recentChecks| <= RecentLimit
    }

    constructor ()
      ensures Valid()
      ensures apiKeyDetails == None && recentChecks == [] && loading && error == None
    {
      apiKeyDetails := None;
      recentChecks := [];
      loading := true;
      error := None;
    }

    /** The "completed" stat: completed checks among the recent ones. */
    function CompletedChecks(): (n: nat)
      reads this
      ensures n == Count(recentChecks, CompletedTab) <= |recentChecks|
    {
      FilterLengthIsCount(recentChecks, CompletedTab);
      |Filter(recentChecks, CompletedTab)|
    }

    /** The "in progress" stat: pending or processing checks among the recent ones. */
    function PendingChecks(): (n: nat)
      reads this
      ensures n == Count(recentChecks, PendingTab) <= |recentChecks|
    {
      FilterLengthIsCount(recentChecks, PendingTab);
      |Filter(recentChecks, PendingTab)|
    }

    /** Both stats are taken from the recent list only, so together they never exceed five. */
    lemma StatsBounded()
      requires Valid()
      ensures CompletedChecks() + PendingChecks() <= |recentChecks| <= RecentLimit
    {
      CompletedAndPendingDisjoint(recentChecks);
    }

    /**
     * `fetchData`. Both requests are made together; if either rejects,
     * only the error is set. Otherwise an OK key response sets the key
     * details and an OK checks response sets the recent list, each
     * regardless of the other's status, except that a key body that does
     * not parse throws before the checks are looked at. Any throw sets the
     * fixed error message; loading ends on every path.
     */
    method FetchData(keyReply: Fetched<ApiKeyDetails>, checksReply: Fetched<seq<CheckListItem>>)
      requires Valid()
      modifies this
      ensures Valid() && !loading
      ensures var bothResolved := !keyReply.Rejected? && !checksReply.Rejected?;
              var keyThrew := keyReply.Succeeded? && keyReply.json.Err?;
              var checksThrew := checksReply.Succeeded? && checksReply.json.Err?;
              && apiKeyDetails == (if bothResolved && !FetchFailed(keyReply) then Some(keyReply.json.value)
                                   else old(apiKeyDetails))
              && recentChecks == (if bothResolved && !keyThrew && !FetchFailed(checksReply)
                                  then Recent(checksReply.json.value) else old(recentChecks))
              && error == (if !bothResolved || keyThrew || checksThrew then Some(LoadFailedMessage)
                           else old(error))
    {
      if keyReply.Rejected? || checksReply.Rejected? {
        error := Some(LoadFailedMessage);
      } else {
        var threw := false;
        if keyReply.Succeeded? {
          match keyReply.json
          case Ok(details) => apiKeyDetails := Some(details);
          case Err(_) => threw := true;
        }
        if !threw && checksReply.Succeeded? {
          match checksReply.json
          case Ok(items) => recentChecks := Recent(items);
          case Err(_) => threw := true;
        }
        if threw {
          error := Some(LoadFailedMessage);
        }
      }
      loading := false;
    }
  }
}
