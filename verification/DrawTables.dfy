/** What every transaction over the movie tables keeps: one current draw, one active
    wildcard, Acquisitions that fit their movies, and pools within their cap. */
module DrawTables {
  import opened Domain
  import A = Acquisitions
  import opened MovieStore

  const MAX_POOL := 3

  // ---- Acquisition rows against movies ----------------------------------------------

  /** A selection and its movie: active ones hold it as a wildcard, seen ones are watched. */
  ghost predicate SelectionOk(db: Db, s: Selection) {
    && s.movie in db.movies && s.host in db.movies && s.host != s.movie
    && (s.source == Pool || s.source == Stash)
    && (s.status == Active ==> db.movies[s.movie].status == Wildcard)
    && (s.status == Seen ==> db.movies[s.movie].status == Watched)
  }

  /** A row and its movie. A draw's row belongs to a current or watched movie and is
      concealed only while that movie is current; a wildcard's row is visible and closed
      once its selection is canceled. */
  ghost predicate AcquisitionOk(db: Db, row: A.Acquisition) {
    && A.RowOk(row) && row.movieId in db.movies
    && (row.source == A.Draw ==>
          var status := db.movies[row.movieId].status;
          row.wildcardId == None && (status == Current || status == Watched))
    && (row.source == A.Wildcard ==>
          && row.wildcardId.Some? && row.wildcardId.value in db.wildcards
          && db.wildcards[row.wildcardId.value].movie == row.movieId
          && (row.Open() ==> db.wildcards[row.wildcardId.value].status != Canceled))
    && (!row.Visible() ==> row.Open() && row.source == A.Draw && db.movies[row.movieId].status == Current)
  }

  ghost predicate KeysOk(db: Db) {
    && (forall id :: id in db.movies ==> id < db.nextMovie)
    && (forall a :: a in db.acquisitions ==> a < db.nextAcquisition)
    && (forall w :: w in db.wildcards ==> w < db.nextWildcard)
  }

  ghost predicate OnesOk(db: Db) {
    && (forall i, j :: HasStatus(db, i, Current) && HasStatus(db, j, Current) ==> i == j)
    && (forall v, w :: IsActive(db, v) && IsActive(db, w) ==> v == w)
    && (forall m, a, b :: DrawnFor(db, m, a) && DrawnFor(db, m, b) ==> a == b)
    && (forall w, a, b :: ForSelection(db, a, w) && ForSelection(db, b, w) ==> a == b)
  }

  ghost predicate RowsOk(db: Db) {
    && (forall w :: w in db.wildcards ==> SelectionOk(db, db.wildcards[w]))
    && (forall a :: a in db.acquisitions ==> AcquisitionOk(db, db.acquisitions[a]))
    && (forall id :: HasStatus(db, id, Wildcard) ==>
          ActiveWildcard(db).Some? && db.wildcards[ActiveWildcard(db).value].movie == id)
  }

  // ---- Pool slots ---------------------------------------------------------------------

  /** A movie costs its adder a pool slot while it is pooled, while it is the active
      wildcard taken from the pool, and while it is a draw nobody has seen yet. */
  predicate TakesSlot(db: Db, id: nat)
    requires id in db.movies
  {
    match db.movies[id].status
    case Pool => true
    case Wildcard => ActiveWildcard(db).Some? && db.wildcards[ActiveWildcard(db).value].source == Pool
    case Current => Concealed(db).Some?
    case _ => false
  }

  function Slots(db: Db, user: nat): set<nat> {
    set id | id in db.movies && db.movies[id].addedBy == user && TakesSlot(db, id)
  }

  ghost predicate CapOk(db: Db) {
    forall user: nat :: |Slots(db, user)| <= MAX_POOL
  }

  ghost predicate DbOk(db: Db) {
    KeysOk(db) && OnesOk(db) && RowsOk(db) && CapOk(db)
  }

  /** The held winner belongs to this member. */
  predicate HoldsWinnerOf(db: Db, user: nat) {
    Concealed(db).Some? && db.acquisitions[Concealed(db).value].movieId in db.movies &&
    db.movies[db.acquisitions[Concealed(db).value].movieId].addedBy == user
  }

  lemma SubsetSize(a: set<nat>, b: set<nat>)
    requires a <= b
    ensures |a| <= |b|
  {
    assert b == a + (b - a);
  }

  function ReservedMovie(db: Db, user: nat): set<nat> {
    if Reserves(db, user) then {db.wildcards[ActiveWildcard(db).value].movie} else {}
  }

  function HeldMovie(db: Db, user: nat): set<nat> {
    if HoldsWinnerOf(db, user) then {db.acquisitions[Concealed(db).value].movieId} else {}
  }

  lemma SlotIsOneOf(db: Db, user: nat, id: nat)
    requires OnesOk(db) && RowsOk(db)
    ensures id in Slots(db, user) <==>
      id in PooledBy(db, user) || id in ReservedMovie(db, user) || id in HeldMovie(db, user)
  {
    if ActiveWildcard(db).Some? {
      assert SelectionOk(db, db.wildcards[ActiveWildcard(db).value]);
    }
    if id in db.movies {
      assert HasStatus(db, id, db.movies[id].status);
    }
  }

  lemma SlotsAreDisjoint(db: Db, user: nat)
    requires RowsOk(db)
    ensures PooledBy(db, user) !! ReservedMovie(db, user)
    ensures PooledBy(db, user) + ReservedMovie(db, user) !! HeldMovie(db, user)
  {
    if ActiveWildcard(db).Some? {
      assert SelectionOk(db, db.wildcards[ActiveWildcard(db).value]);
    }
  }

  lemma SlotsAreUnion(db: Db, user: nat)
    requires OnesOk(db) && RowsOk(db)
    ensures Slots(db, user) == PooledBy(db, user) + ReservedMovie(db, user) + HeldMovie(db, user)
  {
    forall id ensures id in Slots(db, user) <==>
      id in PooledBy(db, user) || id in ReservedMovie(db, user) || id in HeldMovie(db, user)
    {
      SlotIsOneOf(db, user, id);
    }
  }

  lemma UnionSize(a: set<nat>, b: set<nat>, c: set<nat>)
    requires a !! b && a + b !! c
    ensures |a + b + c| == |a| + |b| + |c|
  {
  }

  /** Counted as the promotion counts: pooled movies, one for a wildcard taken from the
      pool, one for the held winner. */
  lemma SlotsCount(db: Db, user: nat)
    requires OnesOk(db) && RowsOk(db)
    ensures |Slots(db, user)| ==
      |PooledBy(db, user)| + (if Reserves(db, user) then 1 else 0) + (if HoldsWinnerOf(db, user) then 1 else 0)
  {
    SlotsAreUnion(db, user);
    SlotsAreDisjoint(db, user);
    UnionSize(PooledBy(db, user), ReservedMovie(db, user), HeldMovie(db, user));
    SingletonSizes(db, user);
  }

  lemma SingletonSizes(db: Db, user: nat)
    ensures |ReservedMovie(db, user)| == (if Reserves(db, user) then 1 else 0)
    ensures |HeldMovie(db, user)| == (if HoldsWinnerOf(db, user) then 1 else 0)
  {
  }

  /** A step that gives no movie a slot keeps every pool within its cap. */
  lemma SlotsShrink(before: Db, after: Db)
    requires CapOk(before)
    requires forall id :: id in after.movies && TakesSlot(after, id) ==>
      id in before.movies && TakesSlot(before, id) && after.movies[id].addedBy == before.movies[id].addedBy
    ensures CapOk(after)
  {
    forall user: nat ensures |Slots(after, user)| <= MAX_POOL {
      assert |Slots(before, user)| <= MAX_POOL;
      SubsetSize(Slots(after, user), Slots(before, user));
    }
  }

  // ---- The unique rows -------------------------------------------------------------------

  lemma CurrentIs(db: Db, id: nat)
    requires KeysOk(db) && OnesOk(db) && HasStatus(db, id, Current)
    ensures CurrentMovie(db) == Some(id)
  {
    assert id < db.nextMovie;
  }

  lemma ActiveIs(db: Db, w: nat)
    requires KeysOk(db) && OnesOk(db) && IsActive(db, w)
    ensures ActiveWildcard(db) == Some(w)
  {
    assert w < db.nextWildcard;
  }

  /** No new current movie or active selection, and the same rows: still one of each. */
  lemma OnesCarry(db: Db, after: Db)
    requires OnesOk(db) && after.acquisitions == db.acquisitions
    requires forall i :: HasStatus(after, i, Current) ==> HasStatus(db, i, Current)
    requires forall v :: IsActive(after, v) ==> IsActive(db, v)
    ensures OnesOk(after)
  {
    forall m, a | DrawnFor(after, m, a) ensures DrawnFor(db, m, a) {}
    forall w, a | ForSelection(after, a, w) ensures ForSelection(db, a, w) {}
  }

  lemma ActiveCarries(db: Db, after: Db)
    requires KeysOk(db) && OnesOk(db) && KeysOk(after) && OnesOk(after) && after.wildcards == db.wildcards
    ensures ActiveWildcard(after) == ActiveWildcard(db)
  {
    if ActiveWildcard(db).Some? {
      ActiveIs(after, ActiveWildcard(db).value);
    } else if ActiveWildcard(after).Some? {
      ActiveIs(db, ActiveWildcard(after).value);
    }
  }

  lemma ConcealedCarries(db: Db, after: Db)
    requires KeysOk(db) && OnesOk(db) && RowsOk(db) && KeysOk(after) && OnesOk(after) && RowsOk(after)
    requires after.acquisitions == db.acquisitions
    ensures Concealed(after) == Concealed(db)
  {
    if Concealed(db).Some? {
      ConcealedIs(after, Concealed(db).value);
    } else if Concealed(after).Some? {
      ConcealedIs(db, Concealed(after).value);
    }
  }

  /** Where the movie of an open Acquisition stands. */
  lemma OpenSits(db: Db, a: nat)
    requires RowsOk(db) && a in db.acquisitions && db.acquisitions[a].Open()
    ensures db.acquisitions[a].movieId in db.movies
    ensures var status := db.movies[db.acquisitions[a].movieId].status;
      && (status == Current || status == Wildcard || status == Watched)
      && (status == Current ==> db.acquisitions[a].source == A.Draw)
      && (status == Wildcard ==> db.acquisitions[a].source == A.Wildcard)
  {
    var row := db.acquisitions[a];
    assert AcquisitionOk(db, row);
    assert row.source == A.Wildcard ==> SelectionOk(db, db.wildcards[row.wildcardId.value]);
  }

  lemma OpenDependsOnRows(db: Db, after: Db, movie: nat)
    requires KeysOk(db) && after.acquisitions == db.acquisitions && after.nextAcquisition == db.nextAcquisition
    ensures OpenAcquisition(after, movie) == OpenAcquisition(db, movie)
  {
    var before, now := OpenAcquisition(db, movie), OpenAcquisition(after, movie);
    if before.Some? {
      assert OpenFor(after, movie, before.value);
    }
    if now.Some? {
      assert OpenFor(db, movie, now.value);
    }
  }

  /** A pooled or stashed movie has no open Acquisition. */
  lemma NoOpenOffScreen(db: Db, movie: nat)
    requires RowsOk(db) && (HasStatus(db, movie, Pool) || HasStatus(db, movie, Stash))
    ensures OpenAcquisition(db, movie) == None
  {
    var a := OpenAcquisition(db, movie);
    if a.Some? {
      OpenSits(db, a.value);
    }
  }

  /** The newest open Acquisition of the current movie is its draw. */
  lemma OpenOfCurrent(db: Db, movie: nat)
    requires OnesOk(db) && RowsOk(db) && KeysOk(db) && HasStatus(db, movie, Current)
    ensures var a := OpenAcquisition(db, movie);
      a.Some? ==> db.acquisitions[a.value].source == A.Draw && NewestDraw(db, movie) == a
  {
    var a := OpenAcquisition(db, movie);
    if a.Some? {
      OpenSits(db, a.value);
      assert DrawnFor(db, movie, a.value);
      assert a.value < db.nextAcquisition;
    }
  }

  /** A concealed row is the open draw of the current movie. */
  lemma ConcealedIs(db: Db, a: nat)
    requires KeysOk(db) && OnesOk(db) && RowsOk(db) && a in db.acquisitions && !db.acquisitions[a].Visible()
    ensures var movie := db.acquisitions[a].movieId;
      && HasStatus(db, movie, Current) && Concealed(db) == Some(a)
      && OpenAcquisition(db, movie) == Some(a) && CurrentMovie(db) == Some(movie)
  {
    var movie := db.acquisitions[a].movieId;
    assert AcquisitionOk(db, db.acquisitions[a]);
    assert a < db.nextAcquisition;
    assert Conceals(db, a) && OpenFor(db, movie, a) && DrawnFor(db, movie, a);
    CurrentIs(db, movie);
    OpenOfCurrent(db, movie);
    var c := Concealed(db).value;
    assert AcquisitionOk(db, db.acquisitions[c]);
    assert DrawnFor(db, movie, c);
  }
}
