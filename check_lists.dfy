/**
 * The list comprehensions the history page and the dashboard apply to
 * check summaries: the status tabs, the per-status counts and the
 * newest-first ordering.
 */
module CheckLists {
  import opened Types

  /** The history page's status tabs. */
  datatype StatusFilter = All | PendingTab | CompletedTab | FailedTab

  /** Whether a check shows under a tab: the pending tab also takes checks being processed. */
  predicate Matches(f: StatusFilter, c: CheckListItem) {
    match f
    case All => true
    case PendingTab => c.status == "pending" || c.status == "processing"
    case CompletedTab => c.status == "completed"
    case FailedTab => c.status == "failed"
  }

  /** `checks.filter(...)` for a tab. */
  function Filter(checks: seq<CheckListItem>, f: StatusFilter): (r: seq<CheckListItem>)
    ensures |r| <= |checks|
    ensures forall c :: c in r <==> c in checks && Matches(f, c)
  {
    if checks == [] then []
    else if Matches(f, checks[0]) then [checks[0]] + Filter(checks[1..], f)
    else Filter(checks[1..], f)
  }

  /** The number of checks a tab matches, counted one by one. */
  function Count(checks: seq<CheckListItem>, f: StatusFilter): (n: nat)
    ensures n <= |checks|
  {
    if checks == [] then 0
    else (if Matches(f, checks[0]) then 1 else 0) + Count(checks[1..], f)
  }

  /** `xs` is `ys` with some elements left out, the rest in their order. */
  predicate IsSubsequence(xs: seq<CheckListItem>, ys: seq<CheckListItem>)
    decreases |ys|
  {
    xs == [] ||
    (ys != [] && ((xs[0] == ys[0] && IsSubsequence(xs[1..], ys[1..])) || IsSubsequence(xs, ys[1..])))
  }

  /** The "all" tab shows the whole list. */
  lemma {:induction false} FilterAllIsWholeList(checks: seq<CheckListItem>)
    ensures Filter(checks, All) == checks
  {
    if checks != [] {
      FilterAllIsWholeList(checks[1..]);
      assert checks == [checks[0]] + checks[1..];
    }
  }

  /** The "all" count is the length of the list. */
  lemma {:induction false} CountAllIsLength(checks: seq<CheckListItem>)
    ensures Count(checks, All) == |checks|
  {
    if checks != [] {
      CountAllIsLength(checks[1..]);
    }
  }

  /** A tab shows its matching checks in list order. */
  lemma {:induction false} FilterIsSubsequence(checks: seq<CheckListItem>, f: StatusFilter)
    ensures IsSubsequence(Filter(checks, f), checks)
  {
    if checks != [] {
      FilterIsSubsequence(checks[1..], f);
      var r := Filter(checks, f);
      if Matches(f, checks[0]) {
        assert r[0] == checks[0] && r[1..] == Filter(checks[1..], f);
      }
    }
  }

  /** A tab shows exactly as many checks as its count says. */
  lemma {:induction false} FilterLengthIsCount(checks: seq<CheckListItem>, f: StatusFilter)
    ensures |Filter(checks, f)| == Count(checks, f)
  {
    if checks != [] {
      FilterLengthIsCount(checks[1..], f);
    }
  }

  /** When every status is a known one, the pending, completed and failed tabs split the list. */
  lemma {:induction false} TabsPartition(checks: seq<CheckListItem>)
    ensures AllStatusesKnown(checks) ==>
      Count(checks, PendingTab) + Count(checks, CompletedTab) + Count(checks, FailedTab) == |checks|
  {
    if checks != [] && AllStatusesKnown(checks) {
      assert ParseStatus(checks[0].status).Some?;
      assert AllStatusesKnown(checks[1..]) by {
        forall i | 0 <= i < |checks[1..]| ensures ParseStatus(checks[1..][i].status).Some? {
          assert checks[1..][i] == checks[i + 1];
        }
      }
      TabsPartition(checks[1..]);
    }
  }

  /** No check counts both as completed and as pending, whatever the statuses. */
  lemma {:induction false} CompletedAndPendingDisjoint(checks: seq<CheckListItem>)
    ensures Count(checks, CompletedTab) + Count(checks, PendingTab) <= |checks|
  {
    if checks != [] {
      CompletedAndPendingDisjoint(checks[1..]);
    }
  }

  /** Ordered by creation time, newest first. */
  predicate NewestFirst(s: seq<CheckListItem>) {
    forall i, j | 0 <= i < j < |s| :: s[i].createdAt >= s[j].createdAt
  }

  /** Puts `x` into a newest-first list, ahead of the checks exactly as old as it. */
  function InsertByAge(x: CheckListItem, s: seq<CheckListItem>): (r: seq<CheckListItem>)
    requires NewestFirst(s)
    ensures |r| == |s| + 1 && (r[0] == x || (s != [] && r[0] == s[0]))
    ensures NewestFirst(r)
    ensures multiset(r) == multiset(s) + multiset{x}
  {
    if s == [] || x.createdAt >= s[0].createdAt then [x] + s
    else
      var rest := InsertByAge(x, s[1..]);
      assert s == [s[0]] + s[1..];
      assert forall j | 0 <= j < |rest| :: rest[0].createdAt >= rest[j].createdAt;
      [s[0]] + rest
  }

  /**
   * `sort((a, b) => b.createdAt - a.createdAt)`: a stable sort newest
   * first (a check is inserted ahead of the later checks of the same age).
   */
  function SortNewestFirst(s: seq<CheckListItem>): (r: seq<CheckListItem>)
    ensures NewestFirst(r)
    ensures multiset(r) == multiset(s)
    ensures |r| == |s|
  {
    if s == [] then []
    else
      assert s == [s[0]] + s[1..];
      InsertByAge(s[0], SortNewestFirst(s[1..]))
  }
}
