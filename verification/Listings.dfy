/** The pool and movie listings during a draw: the held winner is put back where its title
    belongs, so every listing is one of the view clients are allowed to see
    (internal/movie/service.go). */
module Listings {
  import opened Domain
  import opened MovieStore
  import opened DrawService
  import opened WinnerIndependence

  /** Strings in the order the tables and the service compare titles by. */
  predicate Below(a: string, b: string)
    decreases |a|
  {
    |b| > 0 && (|a| == 0 || a[0] < b[0] || (a[0] == b[0] && Below(a[1..], b[1..])))
  }

  lemma {:induction false} BelowIsOrder(a: string, b: string, c: string)
    ensures !Below(a, a)
    ensures Below(a, b) && Below(b, c) ==> Below(a, c)
    ensures a == b || Below(a, b) || Below(b, a)
    decreases |a|
  {
    if |a| > 0 {
      BelowIsOrder(a[1..], if |b| > 0 then b[1..] else b, if |c| > 0 then c[1..] else c);
      if |b| > 0 && a[0] == b[0] && a[1..] == b[1..] {
        assert a == [a[0]] + a[1..] && b == [b[0]] + b[1..];
      }
    }
  }

  datatype Entry = Entry(id: nat, movie: Movie)

  /** ORDER BY title, or ORDER BY title DESC. */
  ghost predicate Ordered(rows: seq<Entry>, down: bool) {
    forall i, j :: 0 <= i < j < |rows| ==>
      if down then !Below(rows[i].movie.title, rows[j].movie.title) else !Below(rows[j].movie.title, rows[i].movie.title)
  }

  ghost predicate DistinctIds(rows: seq<Entry>) {
    forall i, j :: 0 <= i < j < |rows| ==> rows[i].id != rows[j].id
  }

  /** In the pool listing of one member, or of everybody. */
  predicate Pooled(db: Db, user: Option<nat>, e: Entry) {
    e.id in db.movies && e.movie == db.movies[e.id] && e.movie.status == Pool &&
    (user.None? || e.movie.addedBy == user.value)
  }

  /** The rows a pool query may answer; titles that tie may come in any order. */
  ghost predicate ListsPool(rows: seq<Entry>, db: Db, user: Option<nat>) {
    Ordered(rows, false) && DistinctIds(rows) && forall e :: e in rows <==> Pooled(db, user, e)
  }

  ghost predicate ListsAll(rows: seq<Entry>, db: Db) {
    Ordered(rows, true) && DistinctIds(rows) && forall e :: e in rows <==> e.id in db.movies && e.movie == db.movies[e.id]
  }

  /** asHeldPoolMovie. */
  function AsHeld(m: Memory, e: Entry): Entry {
    if Held(m).Some? && e.id == m.active.value.movie && e.movie.status == Current
    then e.(movie := e.movie.(status := Pool))
    else e
  }

  /** Where the winner's title belongs. */
  function Place(rows: seq<Entry>, title: string): (at: nat)
    ensures at <= |rows|
    ensures forall k :: 0 <= k < at ==> !Below(title, rows[k].movie.title)
    ensures at < |rows| ==> Below(title, rows[at].movie.title)
  {
    if rows == [] || Below(title, rows[0].movie.title) then 0 else 1 + Place(rows[1..], title)
  }

  function Inserted(rows: seq<Entry>, shown: Entry): seq<Entry> {
    var at := Place(rows, shown.movie.title);
    rows[..at] + [shown] + rows[at..]
  }

  /** withHeldDraw. */
  function WithHeldDraw(db: Db, m: Memory, rows: seq<Entry>, user: Option<nat>): seq<Entry> {
    if Held(m).None? || m.active.value.movie !in db.movies then rows
    else
      var winner := Entry(m.active.value.movie, db.movies[m.active.value.movie]);
      if (user.Some? && winner.movie.addedBy != user.value) || winner.movie.status != Current ||
         (exists k :: 0 <= k < |rows| && rows[k].id == winner.id)
      then rows
      else Inserted(rows, AsHeld(m, winner))
  }

  /** The service's loops over a listing. */
  class Reads {
    static method InsertHeld(rows: seq<Entry>, shown: Entry) returns (out: seq<Entry>)
      ensures out == if exists k :: 0 <= k < |rows| && rows[k].id == shown.id then rows else Inserted(rows, shown)
    {
      var i := 0;
      while i < |rows|
        invariant 0 <= i <= |rows|
        invariant forall k :: 0 <= k < i ==> rows[k].id != shown.id
      {
        if rows[i].id == shown.id {
          return rows;
        }
        i := i + 1;
      }
      var at := |rows|;
      i := 0;
      while i < |rows|
        invariant 0 <= i <= |rows| && at == |rows|
        invariant forall k :: 0 <= k < i ==> !Below(shown.movie.title, rows[k].movie.title)
      {
        if Below(shown.movie.title, rows[i].movie.title) {
          at := i;
          break;
        }
        i := i + 1;
      }
      assert at == Place(rows, shown.movie.title);
      out := rows[..at] + [shown] + rows[at..];
    }

    /** ListForDisplay. */
    static method ShowAll(m: Memory, rows: seq<Entry>) returns (out: seq<Entry>)
      ensures |out| == |rows| && forall k :: 0 <= k < |rows| ==> out[k] == AsHeld(m, rows[k])
    {
      out := rows;
      var i := 0;
      while i < |rows|
        invariant 0 <= i <= |rows| && |out| == |rows|
        invariant forall k :: 0 <= k < i ==> out[k] == AsHeld(m, rows[k])
        invariant forall k :: i <= k < |rows| ==> out[k] == rows[k]
      {
        out := out[i := AsHeld(m, rows[i])];
        i := i + 1;
      }
    }
  }

  // ---- Listings of the view ---------------------------------------------------------------------

  lemma InsertedMembers(rows: seq<Entry>, shown: Entry, e: Entry)
    ensures e in Inserted(rows, shown) <==> e in rows || e == shown
  {
    var at := Place(rows, shown.movie.title);
    assert rows == rows[..at] + rows[at..];
  }

  lemma InsertedStaysSorted(rows: seq<Entry>, shown: Entry)
    requires Ordered(rows, false)
    ensures Ordered(Inserted(rows, shown), false)
  {
    var at := Place(rows, shown.movie.title);
    var out := Inserted(rows, shown);
    forall k | at <= k < |rows| ensures !Below(rows[k].movie.title, shown.movie.title) {
      if k > at {
        BelowIsOrder(rows[k].movie.title, shown.movie.title, rows[at].movie.title);
      } else {
        BelowIsOrder(rows[k].movie.title, shown.movie.title, rows[k].movie.title);
      }
    }
    forall i, j | 0 <= i < j < |out| ensures !Below(out[j].movie.title, out[i].movie.title) {
      var p := if i < at then i else i - 1;
      var q := if j < at then j else j - 1;
      if i != at && j != at {
        assert out[i] == rows[p] && out[j] == rows[q];
      }
    }
  }

  lemma InsertedStaysDistinct(rows: seq<Entry>, shown: Entry)
    requires DistinctIds(rows) && forall k :: 0 <= k < |rows| ==> rows[k].id != shown.id
    ensures DistinctIds(Inserted(rows, shown))
  {
  }

  /** A pool listing with the held winner put back is a pool listing of the view. */
  lemma PoolListingShowsView(db: Db, m: Memory, rows: seq<Entry>, user: Option<nat>)
    requires Holding(db, m) && ListsPool(rows, db, user)
    ensures ListsPool(WithHeldDraw(db, m, rows, user), View(db, m), user)
  {
    var winner := m.active.value.movie;
    var shown := AsHeld(m, Entry(winner, db.movies[winner]));
    var v, out := View(db, m), WithHeldDraw(db, m, rows, user);
    forall k | 0 <= k < |rows| ensures rows[k].id != winner {
      assert rows[k] in rows && Pooled(db, user, rows[k]);
    }
    if user.None? || db.movies[winner].addedBy == user.value {
      InsertedStaysSorted(rows, shown);
      InsertedStaysDistinct(rows, shown);
      forall e ensures e in out <==> Pooled(v, user, e) {
        InsertedMembers(rows, shown, e);
        assert e in rows <==> Pooled(db, user, e);
      }
    } else {
      forall e ensures e in out <==> Pooled(v, user, e) {
        assert e in rows <==> Pooled(db, user, e);
      }
    }
  }

  /** The movie list with the winner shown as pooled is a movie list of the view. */
  lemma MovieListShowsView(db: Db, m: Memory, rows: seq<Entry>, out: seq<Entry>)
    requires Holding(db, m) && ListsAll(rows, db)
    requires |out| == |rows| && forall k :: 0 <= k < |rows| ==> out[k] == AsHeld(m, rows[k])
    ensures ListsAll(out, View(db, m))
  {
    var v := View(db, m);
    forall k | 0 <= k < |rows| ensures out[k].id == rows[k].id && out[k].movie == v.movies[out[k].id] {
      assert rows[k] in rows;
    }
    forall e ensures e in out <==> e.id in v.movies && e.movie == v.movies[e.id] {
      if e.id in v.movies && e.movie == v.movies[e.id] {
        var original := Entry(e.id, db.movies[e.id]);
        assert original in rows;
        var k :| 0 <= k < |rows| && rows[k] == original;
        assert out[k] == e;
      }
    }
  }

  /** GetForDisplay. */
  function GetForDisplay(db: Db, m: Memory, id: nat): Result<Movie> {
    if id !in db.movies then Err(NotFound) else Ok(AsHeld(m, Entry(id, db.movies[id])).movie)
  }

  lemma GetShowsView(db: Db, m: Memory, id: nat)
    requires Holding(db, m)
    ensures GetForDisplay(db, m, id) ==
      if id in View(db, m).movies then Ok(View(db, m).movies[id]) else Err(NotFound)
  {
  }

  // ---- Listings of one view are alike --------------------------------------------------------------

  ghost predicate DistinctTitles(rows: seq<Entry>) {
    forall i, j :: 0 <= i < j < |rows| ==> rows[i].movie.title != rows[j].movie.title
  }

  lemma {:induction false} DistinctCount(rows: seq<Entry>, e: Entry)
    requires DistinctIds(rows)
    ensures multiset(rows)[e] == if e in rows then 1 else 0
    decreases |rows|
  {
    if rows != [] {
      assert rows == [rows[0]] + rows[1..];
      DistinctCount(rows[1..], e);
    }
  }

  /** Whatever order ties come in, two listings of the same rows hold the same rows. */
  lemma SameRowsSameMultiset(xs: seq<Entry>, ys: seq<Entry>)
    requires DistinctIds(xs) && DistinctIds(ys) && forall e :: e in xs <==> e in ys
    ensures multiset(xs) == multiset(ys)
  {
    forall e ensures multiset(xs)[e] == multiset(ys)[e] {
      DistinctCount(xs, e);
      DistinctCount(ys, e);
    }
  }

  /** With distinct titles the order is settled too. */
  lemma {:induction false} SameRowsSameOrder(xs: seq<Entry>, ys: seq<Entry>, down: bool)
    requires Ordered(xs, down) && Ordered(ys, down) && DistinctIds(xs) && DistinctIds(ys)
    requires DistinctTitles(xs) && DistinctTitles(ys) && forall e :: e in xs <==> e in ys
    ensures xs == ys
    decreases |xs|
  {
    assert |ys| > 0 ==> ys[0] in ys;
    if xs != [] {
      assert xs[0] in xs;
      FirstComesFirst(xs, ys[0], down);
      FirstComesFirst(ys, xs[0], down);
      BelowIsOrder(xs[0].movie.title, ys[0].movie.title, xs[0].movie.title);
      var k :| 0 <= k < |ys| && ys[k] == xs[0];
      assert ys[0] == xs[0];
      forall e ensures e in xs[1..] <==> e in ys[1..] {
        RestMembers(xs, e);
        RestMembers(ys, e);
      }
      SameRowsSameOrder(xs[1..], ys[1..], down);
    }
  }

  lemma FirstComesFirst(rows: seq<Entry>, e: Entry, down: bool)
    requires Ordered(rows, down) && e in rows
    ensures if down then !Below(rows[0].movie.title, e.movie.title) else !Below(e.movie.title, rows[0].movie.title)
  {
    var k :| 0 <= k < |rows| && rows[k] == e;
    BelowIsOrder(e.movie.title, e.movie.title, e.movie.title);
  }

  lemma RestMembers(rows: seq<Entry>, e: Entry)
    requires DistinctIds(rows) && rows != []
    ensures e in rows[1..] <==> e in rows && e != rows[0]
  {
    if e in rows[1..] {
      var k :| 0 <= k < |rows| - 1 && rows[1..][k] == e;
      assert rows[k + 1] == e;
    }
    assert rows == [rows[0]] + rows[1..];
  }

  /** Winner independence of the listings: two states that look the same list the same pool,
      in the same order when its titles are distinct. */
  lemma TwinsListAlike(
    db1: Db, m1: Memory, db2: Db, m2: Memory, rows1: seq<Entry>, rows2: seq<Entry>, user: Option<nat>)
    requires Twins(db1, m1, db2, m2) && ListsPool(rows1, db1, user) && ListsPool(rows2, db2, user)
    ensures var out1, out2 := WithHeldDraw(db1, m1, rows1, user), WithHeldDraw(db2, m2, rows2, user);
      && multiset(out1) == multiset(out2)
      && (DistinctTitles(out1) && DistinctTitles(out2) ==> out1 == out2)
  {
    var out1, out2 := WithHeldDraw(db1, m1, rows1, user), WithHeldDraw(db2, m2, rows2, user);
    PoolListingShowsView(db1, m1, rows1, user);
    PoolListingShowsView(db2, m2, rows2, user);
    forall e ensures e in out1 <==> e in out2 {
      assert e in out1 <==> Pooled(View(db1, m1), user, e);
      assert e in out2 <==> Pooled(View(db2, m2), user, e);
    }
    SameRowsSameMultiset(out1, out2);
    if DistinctTitles(out1) && DistinctTitles(out2) {
      SameRowsSameOrder(out1, out2, false);
    }
  }

  /** The same for the list of all movies and for a single movie. */
  lemma TwinsShowAlike(
    db1: Db, m1: Memory, db2: Db, m2: Memory, rows1: seq<Entry>, rows2: seq<Entry>,
    out1: seq<Entry>, out2: seq<Entry>, id: nat)
    requires Twins(db1, m1, db2, m2) && ListsAll(rows1, db1) && ListsAll(rows2, db2)
    requires |out1| == |rows1| && forall k :: 0 <= k < |rows1| ==> out1[k] == AsHeld(m1, rows1[k])
    requires |out2| == |rows2| && forall k :: 0 <= k < |rows2| ==> out2[k] == AsHeld(m2, rows2[k])
    ensures multiset(out1) == multiset(out2)
    ensures DistinctTitles(out1) && DistinctTitles(out2) ==> out1 == out2
    ensures GetForDisplay(db1, m1, id) == GetForDisplay(db2, m2, id)
  {
    MovieListShowsView(db1, m1, rows1, out1);
    MovieListShowsView(db2, m2, rows2, out2);
    SameRowsSameMultiset(out1, out2);
    if DistinctTitles(out1) && DistinctTitles(out2) {
      SameRowsSameOrder(out1, out2, true);
    }
    GetShowsView(db1, m1, id);
    GetShowsView(db2, m2, id);
  }
}
