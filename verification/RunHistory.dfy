/** The run history page by page: each page reads at most limit + 1 rows after a cursor, and the
    cursors together read every matching run once (internal/repository/integration_run.go). */
module RunHistory {
  import opened Domain

  const DEFAULT_LIMIT := 50
  const MAX_LIMIT := 100

  datatype Run = Run(
    id: nat, integration: string, operation: string, trigger: string, status: string, startedAt: int,
    finishedAt: Option<int>)

  datatype Cursor = Cursor(startedAt: int, id: nat)

  /** An empty text filters nothing. */
  datatype Filter = Filter(
    finishedOnly: bool, integration: string, operation: string, status: string, trigger: string,
    before: Option<Cursor>, limit: int)

  datatype Page = Page(runs: seq<Run>, next: Option<Cursor>)

  predicate Wanted(f: Filter, r: Run) {
    && (f.finishedOnly ==> r.finishedAt.Some?)
    && (f.integration != "" ==> r.integration == f.integration)
    && (f.operation != "" ==> r.operation == f.operation)
    && (f.status != "" ==> r.status == f.status)
    && (f.trigger != "" ==> r.trigger == f.trigger)
  }

  /** (started_at, id) < (c.startedAt, c.id). */
  predicate After(c: Cursor, r: Run) {
    r.startedAt < c.startedAt || (r.startedAt == c.startedAt && r.id < c.id)
  }

  function CursorOf(r: Run): Cursor {
    Cursor(r.startedAt, r.id)
  }

  /** ORDER BY started_at DESC, id DESC. */
  ghost predicate Newest(runs: seq<Run>) {
    forall i, j :: 0 <= i < j < |runs| ==> After(CursorOf(runs[i]), runs[j])
  }

  function Limit(f: Filter): (limit: nat)
    ensures 1 <= limit <= MAX_LIMIT
    ensures 1 <= f.limit <= MAX_LIMIT ==> limit == f.limit
  {
    if f.limit <= 0 then DEFAULT_LIMIT else if f.limit > MAX_LIMIT then MAX_LIMIT else f.limit
  }

  /** The rows of an ordered table that pass the filter and stand after its cursor. */
  function Selected(table: seq<Run>, f: Filter): seq<Run> {
    if table == [] then []
    else
      var rest := Selected(table[1..], f);
      if Wanted(f, table[0]) && (f.before.None? || After(f.before.value, table[0])) then [table[0]] + rest else rest
  }

  /** The query: ordered, filtered, LIMIT limit + 1. */
  function Queried(table: seq<Run>, f: Filter): seq<Run> {
    var selected := Selected(table, f);
    if |selected| > Limit(f) + 1 then selected[..Limit(f) + 1] else selected
  }

  function Listed(table: seq<Run>, f: Filter): (page: Page)
    ensures |page.runs| <= Limit(f)
    ensures page.next.Some? ==> |page.runs| == Limit(f) && page.next.value == CursorOf(page.runs[|page.runs| - 1])
  {
    var rows := Queried(table, f);
    if |rows| > Limit(f) then Page(rows[..Limit(f)], Some(CursorOf(rows[Limit(f) - 1]))) else Page(rows, None)
  }

  /** List: one row more than the limit tells whether there is another page. */
  method List(table: seq<Run>, f: Filter) returns (page: Page)
    ensures page == Listed(table, f)
  {
    var limit := f.limit;
    if limit <= 0 {
      limit := DEFAULT_LIMIT;
    }
    if limit > MAX_LIMIT {
      limit := MAX_LIMIT;
    }
    var rows := Queried(table, f);
    var runs: seq<Run> := [];
    var i := 0;
    while i < |rows|
      invariant 0 <= i <= |rows| && runs == rows[..i]
    {
      runs := runs + [rows[i]];
      i := i + 1;
    }
    page := Page(runs, None);
    if |runs| > limit {
      page := Page(runs[..limit], Some(CursorOf(runs[limit - 1])));
    }
  }

  // ---- What one page selects ------------------------------------------------------------------

  lemma {:induction false} SelectedMembers(table: seq<Run>, f: Filter, r: Run)
    ensures r in Selected(table, f) <==>
      r in table && Wanted(f, r) && (f.before.None? || After(f.before.value, r))
    decreases |table|
  {
    if table != [] {
      SelectedMembers(table[1..], f, r);
      assert table == [table[0]] + table[1..];
    }
  }

  lemma {:induction false} SelectedOrdered(table: seq<Run>, f: Filter)
    requires Newest(table)
    ensures Newest(Selected(table, f))
    decreases |table|
  {
    if table != [] {
      SelectedOrdered(table[1..], f);
      var rest := Selected(table[1..], f);
      forall r | r in rest ensures After(CursorOf(table[0]), r) {
        SelectedMembers(table[1..], f, r);
        var k :| 0 <= k < |table| - 1 && table[1..][k] == r;
        assert table[k + 1] == r;
      }
    }
  }

  lemma {:induction false} CutAfter(runs: seq<Run>, k: nat, f: Filter)
    requires Newest(runs) && k < |runs| && forall r :: r in runs ==> Wanted(f, r)
    requires f.before == Some(CursorOf(runs[k]))
    ensures Selected(runs, f) == runs[k + 1..]
    decreases |runs|
  {
    var head, rest := runs[0], runs[1..];
    assert !After(f.before.value, head);
    if k == 0 {
      SelectedAll(rest, f);
    } else {
      assert rest[k - 1] == runs[k];
      CutAfter(rest, k - 1, f);
      assert rest[k..] == runs[k + 1..];
    }
  }

  lemma {:induction false} SelectedAll(runs: seq<Run>, f: Filter)
    requires forall r :: r in runs ==> Wanted(f, r) && (f.before.None? || After(f.before.value, r))
    ensures Selected(runs, f) == runs
    decreases |runs|
  {
    if runs != [] {
      assert runs[0] in runs;
      SelectedAll(runs[1..], f);
    }
  }

  /** A later cursor selects from what an earlier one selected. */
  lemma {:induction false} SelectTwice(table: seq<Run>, f: Filter, later: Cursor)
    requires forall r :: r in table && After(later, r) ==> f.before.None? || After(f.before.value, r)
    ensures Selected(table, f.(before := Some(later))) == Selected(Selected(table, f), f.(before := Some(later)))
    decreases |table|
  {
    if table != [] {
      assert table[0] in table;
      SelectTwice(table[1..], f, later);
    }
  }

  /** The rows after row `last` of a selection are what its cursor selects. */
  lemma CursorContinues(table: seq<Run>, f: Filter, last: nat)
    requires Newest(table) && last < |Selected(table, f)|
    ensures Selected(table, f.(before := Some(CursorOf(Selected(table, f)[last])))) == Selected(table, f)[last + 1..]
  {
    var all := Selected(table, f);
    var later := CursorOf(all[last]);
    SelectedOrdered(table, f);
    forall r | r in all ensures Wanted(f, r) {
      SelectedMembers(table, f, r);
    }
    SelectedMembers(table, f, all[last]);
    SelectTwice(table, f, later);
    CutAfter(all, last, f.(before := Some(later)));
  }

  /** The page after a page continues exactly where it ended. */
  lemma NextPageContinues(table: seq<Run>, f: Filter)
    requires Newest(table) && Listed(table, f).next.Some?
    ensures var page := Listed(table, f);
      Selected(table, f) == page.runs + Selected(table, f.(before := page.next))
    ensures |Selected(table, f.(before := Listed(table, f).next))| < |Selected(table, f)|
  {
    var page := Listed(table, f);
    var all := Selected(table, f);
    var last := Limit(f) - 1;
    assert page.runs == all[..last + 1] && page.next == Some(CursorOf(all[last]));
    CursorContinues(table, f, last);
    assert all == all[..last + 1] + all[last + 1..];
  }

  /** Following Next from a filter: the runs of every page, one after the other. */
  function Followed(table: seq<Run>, f: Filter, pages: nat): seq<Run>
    decreases pages
  {
    if pages == 0 then []
    else
      var page := Listed(table, f);
      if page.next.None? then page.runs else page.runs + Followed(table, f.(before := page.next), pages - 1)
  }

  /** Whether the cursors have run out after so many pages. */
  predicate Ends(table: seq<Run>, f: Filter, pages: nat)
    decreases pages
  {
    pages > 0 && (Listed(table, f).next.None? || Ends(table, f.(before := Listed(table, f).next), pages - 1))
  }

  /** Following the cursors ends, and lists every matching run exactly once in descending
      (started_at, id) order, whatever the limit and the filter. */
  lemma {:induction false} FollowingListsAll(table: seq<Run>, f: Filter)
    requires Newest(table)
    ensures Ends(table, f, |Selected(table, f)| + 1)
    ensures Followed(table, f, |Selected(table, f)| + 1) == Selected(table, f)
    decreases |Selected(table, f)|
  {
    var page := Listed(table, f);
    if page.next.Some? {
      var next := f.(before := page.next);
      NextPageContinues(table, f);
      FollowingListsAll(table, next);
      MorePagesSame(table, next, |Selected(table, next)| + 1, |Selected(table, f)|);
    }
  }

  /** Once the cursors have run out, asking for more pages lists nothing more. */
  lemma {:induction false} MorePagesSame(table: seq<Run>, f: Filter, few: nat, many: nat)
    requires few <= many && Ends(table, f, few)
    ensures Ends(table, f, many) && Followed(table, f, many) == Followed(table, f, few)
    decreases few
  {
    if Listed(table, f).next.Some? {
      MorePagesSame(table, f.(before := Listed(table, f).next), few - 1, many - 1);
    }
  }

  /** What the whole walk lists: each matching run once, in order. */
  lemma WalkIsExact(table: seq<Run>, f: Filter, r: Run)
    requires Newest(table) && f.before.None?
    ensures var walked := Followed(table, f, |Selected(table, f)| + 1);
      && Newest(walked)
      && (r in walked <==> r in table && Wanted(f, r))
      && multiset(walked)[r] <= 1
  {
    FollowingListsAll(table, f);
    SelectedOrdered(table, f);
    SelectedMembers(table, f, r);
    OrderedOnce(Selected(table, f), r);
  }

  lemma {:induction false} OrderedOnce(runs: seq<Run>, r: Run)
    requires Newest(runs)
    ensures multiset(runs)[r] == if r in runs then 1 else 0
    decreases |runs|
  {
    if runs != [] {
      OrderedOnce(runs[1..], r);
      forall k | 1 <= k < |runs| ensures runs[k] != runs[0] {
        assert After(CursorOf(runs[0]), runs[k]);
      }
      assert runs == [runs[0]] + runs[1..];
    }
  }
}
