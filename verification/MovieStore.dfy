/** The movies, wildcards and Acquisition rows of the draw lifecycle, and each transaction
    over them as a function from tables to tables (internal/repository/sqlite.go and
    internal/repository/wildcard.go). A transaction that answers an error changed nothing. */
module MovieStore {
  import opened Domain
  import opened Turn
  import A = Acquisitions

  datatype MovieStatus = Pool | Stash | Current | Wildcard | Watched

  /** `year` is the usable release year of the movie's metadata. */
  datatype Movie = Movie(
    title: string, status: MovieStatus, addedBy: nat, tmdb: Option<nat>, imdb: Option<string>,
    year: Option<int>, watchedAt: Option<int>)

  datatype SelectionStatus = Active | Seen | Canceled

  /** A row of wildcards: the host draw, the selected movie and where it came from. */
  datatype Selection = Selection(
    host: nat, movie: nat, source: MovieStatus, created: bool, status: SelectionStatus,
    selectedBy: nat, selectedAt: int, watchedAt: Option<int>, canceledAt: Option<int>)

  datatype Db = Db(
    movies: map<nat, Movie>, nextMovie: nat,
    acquisitions: map<nat, A.Acquisition>, nextAcquisition: nat,
    wildcards: map<nat, Selection>, nextWildcard: nat,
    users: Users, nextUp: Option<nat>)

  const EMPTY := Db(map[], 1, map[], 1, map[], 1, map[], None)

  // ---- Queries ------------------------------------------------------------------------

  predicate HasStatus(db: Db, id: nat, status: MovieStatus) {
    id in db.movies && db.movies[id].status == status
  }

  /** SELECT ... WHERE status = 'current'. */
  function CurrentMovie(db: Db): (r: Option<nat>)
    ensures r.Some? ==> HasStatus(db, r.value, Current)
    ensures r.None? ==> forall id: nat :: id < db.nextMovie ==> !HasStatus(db, id, Current)
  {
    var p := (id: nat) => HasStatus(db, id, Current);
    assert forall id: nat :: HasStatus(db, id, Current) <==> p(id);
    FindLast(p, db.nextMovie)
  }

  predicate IsActive(db: Db, w: nat) {
    w in db.wildcards && db.wildcards[w].status == Active
  }

  function ActiveWildcard(db: Db): (r: Option<nat>)
    ensures r.Some? ==> IsActive(db, r.value)
    ensures r.Some? ==> forall w: nat :: r.value < w < db.nextWildcard ==> !IsActive(db, w)
    ensures r.None? ==> forall w: nat :: w < db.nextWildcard ==> !IsActive(db, w)
  {
    var p := (w: nat) => IsActive(db, w);
    assert forall w: nat :: IsActive(db, w) <==> p(w);
    FindLast(p, db.nextWildcard)
  }

  predicate OpenFor(db: Db, movie: nat, a: nat) {
    a in db.acquisitions && db.acquisitions[a].movieId == movie && db.acquisitions[a].Open()
  }

  /** The newest open Acquisition of a movie. */
  function OpenAcquisition(db: Db, movie: nat): (r: Option<nat>)
    ensures r.Some? ==> OpenFor(db, movie, r.value)
    ensures r.Some? ==> forall a: nat :: r.value < a < db.nextAcquisition ==> !OpenFor(db, movie, a)
    ensures r.None? ==> forall a: nat :: a < db.nextAcquisition ==> !OpenFor(db, movie, a)
  {
    var p := (a: nat) => OpenFor(db, movie, a);
    assert forall a: nat :: OpenFor(db, movie, a) <==> p(a);
    FindLast(p, db.nextAcquisition)
  }

  predicate DrawnFor(db: Db, movie: nat, a: nat) {
    a in db.acquisitions && db.acquisitions[a].movieId == movie && db.acquisitions[a].source == A.Draw
  }

  function NewestDraw(db: Db, movie: nat): (r: Option<nat>)
    ensures r.Some? ==> DrawnFor(db, movie, r.value)
    ensures r.Some? ==> forall a: nat :: r.value < a < db.nextAcquisition ==> !DrawnFor(db, movie, a)
    ensures r.None? ==> forall a: nat :: a < db.nextAcquisition ==> !DrawnFor(db, movie, a)
  {
    var p := (a: nat) => DrawnFor(db, movie, a);
    assert forall a: nat :: DrawnFor(db, movie, a) <==> p(a);
    FindLast(p, db.nextAcquisition)
  }

  /** An unrevealed Acquisition of the current movie. */
  predicate Conceals(db: Db, a: nat) {
    a in db.acquisitions && !db.acquisitions[a].Visible() && HasStatus(db, db.acquisitions[a].movieId, Current)
  }

  function Concealed(db: Db): (r: Option<nat>)
    ensures r.Some? ==> Conceals(db, r.value)
    ensures r.None? ==> forall a: nat :: a < db.nextAcquisition ==> !Conceals(db, a)
  {
    var p := (a: nat) => Conceals(db, a);
    assert forall a: nat :: Conceals(db, a) <==> p(a);
    FindLast(p, db.nextAcquisition)
  }

  /** What a restart reads of a draw that was not revealed. */
  datatype Resumed = Resumed(movie: nat, drawnAt: int, revealAt: int, clientId: string)

  function ConcealedCurrentDraw(db: Db): Option<Resumed> {
    match Concealed(db)
    case None => None
    case Some(a) =>
      var row := db.acquisitions[a];
      Some(Resumed(row.movieId, row.drawnAt, row.revealAt, row.clientId))
  }

  function PooledBy(db: Db, user: nat): set<nat> {
    set id | id in db.movies && db.movies[id].status == Pool && db.movies[id].addedBy == user
  }

  /** Whether the active wildcard was taken from this member's pool. */
  predicate Reserves(db: Db, user: nat) {
    var w := ActiveWildcard(db);
    w.Some? && db.wildcards[w.value].source == Pool && db.wildcards[w.value].movie in db.movies &&
    db.movies[db.wildcards[w.value].movie].addedBy == user
  }

  // ---- Transactions -------------------------------------------------------------------

  function WithStatus(db: Db, id: nat, status: MovieStatus): Db
    requires id in db.movies
  {
    db.(movies := db.movies[id := db.movies[id].(status := status)])
  }

  function Watching(db: Db, id: nat, at: int): Db
    requires id in db.movies
  {
    db.(movies := db.movies[id := db.movies[id].(status := Watched, watchedAt := Some(at))])
  }

  function WithAcquisition(db: Db, row: A.Acquisition): Db {
    db.(acquisitions := db.acquisitions[db.nextAcquisition := row], nextAcquisition := db.nextAcquisition + 1)
  }

  /** The snapshot a draw or a selection takes of its movie. */
  function Snapshot(
    db: Db, movie: nat, source: A.Source, wildcard: Option<nat>, drawnAt: int, revealAt: int, clientId: string,
    visible: bool
  ): A.Acquisition
    requires movie in db.movies
  {
    var m := db.movies[movie];
    A.Inserted(movie, m.title, m.year, m.tmdb, m.imdb, source, wildcard, drawnAt, revealAt, clientId, visible)
  }

  function StartDraw(db: Db, movie: nat, drawnAt: int, revealAt: int, clientId: string): (Db, Result<nat>) {
    if movie !in db.movies then (db, Err(NotFound))
    else if db.movies[movie].status != Pool then (db, Err(InvalidState))
    else if CurrentMovie(db).Some? then (db, Err(CurrentDrawExists))
    else if OpenAcquisition(db, movie).Some? || A.Blank(db.movies[movie].title) then (db, Err(NotFound))
    else (WithAcquisition(WithStatus(db, movie, Current),
                          Snapshot(db, movie, A.Draw, None, drawnAt, revealAt, clientId, false)),
          Ok(db.nextAcquisition))
  }

  /** advanceNextUpTx: whose turn it becomes, when it moves at all. */
  function AdvanceNextUp(db: Db): (Db, Option<nat>) {
    var roster := Roster(db.users);
    var next := Rotated(roster, db.nextUp);
    (db.(nextUp := next), if |roster| < 2 then None else next)
  }

  /** revealAcquisitionTx on the movie's newest open Acquisition, if there is one. */
  function RevealOpen(db: Db, movie: nat, at: int): Db {
    match OpenAcquisition(db, movie)
    case None => db
    case Some(a) => db.(acquisitions := db.acquisitions[a := A.Revealed(db.acquisitions[a], at)])
  }

  function RevealDrawAndAdvance(db: Db, movie: nat, at: int): (Db, Result<Option<nat>>) {
    if !HasStatus(db, movie, Current) || OpenAcquisition(db, movie).None? then (db, Err(NotFound))
    else
      var (after, next) := AdvanceNextUp(RevealOpen(db, movie, at));
      (after, Ok(next))
  }

  function WatchCurrent(db: Db, at: int, revealing: bool): (Db, Result<(nat, Option<nat>)>) {
    if ActiveWildcard(db).Some? then (db, Err(ActiveWildcardExists))
    else
      match CurrentMovie(db)
      case None => (db, Err(NoCurrentDraw))
      case Some(movie) =>
        var watched := RevealOpen(Watching(db, movie, at), movie, at);
        if revealing then
          var (after, next) := AdvanceNextUp(watched);
          (after, Ok((movie, next)))
        else (watched, Ok((movie, None)))
  }

  /** PromoteToPoolIfRoom: the answer tells whether a row moved. */
  function PromoteIfRoom(db: Db, movie: nat, limit: int): (Db, bool) {
    if !HasStatus(db, movie, Stash) then (db, false)
    else
      var user := db.movies[movie].addedBy;
      if |PooledBy(db, user)| + (if Reserves(db, user) then 1 else 0) < limit
      then (WithStatus(db, movie, Pool), true)
      else (db, false)
  }

  function MoveIf(db: Db, movie: nat, to: MovieStatus, from: MovieStatus): (Db, bool) {
    if HasStatus(db, movie, from) then (WithStatus(db, movie, to), true) else (db, false)
  }

  /** A wildcard keeps its host and its movie: FOREIGN KEY ... ON DELETE RESTRICT. */
  predicate Referenced(db: Db, movie: nat) {
    exists w :: w in db.wildcards && (db.wildcards[w].host == movie || db.wildcards[w].movie == movie)
  }

  /** Deleting a movie deletes its Acquisitions with it: ON DELETE CASCADE. */
  function DeleteMovie(db: Db, movie: nat): (Db, Result<nat>) {
    if movie !in db.movies then (db, Err(NotFound))
    else if Referenced(db, movie) then (db, Err(StoreFailed))
    else
      (db.(movies := db.movies - {movie},
           acquisitions := map a | a in db.acquisitions && db.acquisitions[a].movieId != movie :: db.acquisitions[a]),
       Ok(movie))
  }

  predicate TmdbTaken(db: Db, tmdb: nat, except: Option<nat>) {
    exists id :: id in db.movies && Some(id) != except && db.movies[id].tmdb == Some(tmdb)
  }

  predicate ImdbTaken(db: Db, imdb: string) {
    exists id :: id in db.movies && db.movies[id].imdb == Some(imdb)
  }

  function WithMovie(db: Db, movie: Movie): Db {
    db.(movies := db.movies[db.nextMovie := movie], nextMovie := db.nextMovie + 1)
  }

  function AddToStash(db: Db, title: string, user: nat, tmdb: Option<nat>, imdb: Option<string>): (Db, Result<nat>) {
    if (tmdb.Some? && TmdbTaken(db, tmdb.value, None)) || (imdb.Some? && ImdbTaken(db, imdb.value))
    then (db, Err(Conflict))
    else (WithMovie(db, Movie(title, Stash, user, tmdb, imdb, None, None)), Ok(db.nextMovie))
  }

  /** A Movie correction; absent fields stay unchanged. */
  datatype Correction = Correction(tmdb: Option<int>, title: string, year: Option<int>, watchedAt: Option<int>)

  predicate Blocks(db: Db, movie: nat) {
    exists a :: a in db.acquisitions && OpenFor(db, movie, a) && (db.acquisitions[a].Locked() || db.acquisitions[a].mutation != A.Idle)
  }

  function UsableYear(year: Option<int>): Option<int> {
    if year.Some? && 1870 <= year.value <= 2100 then year else None
  }

  function CorrectMovie(db: Db, movie: nat, c: Correction, at: int): (Db, Result<bool>) {
    if c.tmdb.Some? && (c.tmdb.value <= 0 || A.Blank(c.title)) then (db, Err(InvalidInput))
    else if movie !in db.movies then (db, Err(NotFound))
    else if c.watchedAt.Some? && db.movies[movie].status != Watched then (db, Err(InvalidInput))
    else if c.tmdb.None? || db.movies[movie].tmdb == Some(c.tmdb.value) then (Redated(db, movie, c.watchedAt), Ok(false))
    else if Blocks(db, movie) then (db, Err(AcquisitionLocked))
    else if TmdbTaken(db, c.tmdb.value, Some(movie)) then (db, Err(Conflict))
    else
      var tmdb: nat := c.tmdb.value;
      var renamed := db.(
        movies := db.movies[movie := db.movies[movie].(title := c.title, tmdb := Some(tmdb), imdb := None, year := None)],
        acquisitions := RetargetedRows(db, movie, c.title, UsableYear(c.year), tmdb, at));
      (Redated(renamed, movie, c.watchedAt), Ok(true))
  }

  /** retargetOpenAcquisitionsTx on every open row of the movie. */
  function RetargetedRows(
    db: Db, movie: nat, title: string, year: Option<int>, tmdb: nat, at: int
  ): map<nat, A.Acquisition> {
    map a | a in db.acquisitions ::
      if OpenFor(db, movie, a) then A.Retargeted(db.acquisitions[a], title, year, tmdb, at) else db.acquisitions[a]
  }

  function Redated(db: Db, movie: nat, watchedAt: Option<int>): Db
    requires movie in db.movies
  {
    if watchedAt.None? then db else db.(movies := db.movies[movie := db.movies[movie].(watchedAt := watchedAt)])
  }

  // ---- Wildcards ----------------------------------------------------------------------

  datatype Choice = Choice(expectedHost: nat, existing: Option<nat>, title: string, tmdb: Option<int>)

  /** currentRevealedMovieID. */
  function RevealedHost(db: Db): Result<nat> {
    match CurrentMovie(db)
    case None => Err(NoCurrentDraw)
    case Some(movie) =>
      var draw := NewestDraw(db, movie);
      if draw.Some? && !db.acquisitions[draw.value].Visible() then Err(DrawNotRevealed) else Ok(movie)
  }

  predicate HasTmdb(db: Db, id: nat, tmdb: nat) {
    id in db.movies && db.movies[id].tmdb == Some(tmdb)
  }

  function ByTmdb(db: Db, tmdb: nat): (r: Option<nat>)
    ensures r.Some? ==> HasTmdb(db, r.value, tmdb)
    ensures r.None? ==> forall id: nat :: id < db.nextMovie ==> !HasTmdb(db, id, tmdb)
  {
    var p := (id: nat) => HasTmdb(db, id, tmdb);
    assert forall id: nat :: HasTmdb(db, id, tmdb) <==> p(id);
    FindLast(p, db.nextMovie)
  }

  /** The movie a selection names, added for it when TMDB knows it and the tables do not. */
  function Chosen(db: Db, actor: nat, choice: Choice): (r: (Db, Result<nat>, bool))
    ensures r.1.Ok? ==> r.1.value in r.0.movies
  {
    if choice.existing.Some? then
      if choice.existing.value in db.movies then (db, Ok(choice.existing.value), false) else (db, Err(NotFound), false)
    else if A.Blank(choice.title) || choice.tmdb.None? || choice.tmdb.value <= 0 then (db, Err(InvalidInput), false)
    else
      match ByTmdb(db, choice.tmdb.value)
      case Some(id) => (db, Ok(id), false)
      case None =>
        (WithMovie(db, Movie(choice.title, Wildcard, actor, Some(choice.tmdb.value), None, None, None)),
         Ok(db.nextMovie), true)
  }

  function WithSelection(db: Db, s: Selection): Db {
    db.(wildcards := db.wildcards[db.nextWildcard := s], nextWildcard := db.nextWildcard + 1)
  }

  /** The selection itself, once the movie is known. */
  function Selected(db: Db, actor: nat, host: nat, movie: nat, created: bool, at: int, poolLocked: bool): Result<Db>
    requires movie in db.movies
  {
    var status := db.movies[movie].status;
    if movie == host || (status != Pool && status != Stash && status != Wildcard) then Err(InvalidState)
    else if !created && status == Pool && poolLocked then Err(PoolLocked)
    else if !created && status == Wildcard then Err(InvalidState)
    else if OpenAcquisition(db, movie).Some? || A.Blank(db.movies[movie].title) then Err(StoreFailed)
    else
      var source := if created then Stash else status;
      var selected := WithSelection(
        WithStatus(db, movie, Wildcard),
        Selection(host, movie, source, created, Active, actor, at, None, None));
      Ok(WithAcquisition(selected, Snapshot(selected, movie, A.Wildcard, Some(db.nextWildcard), at, at, "", true)))
  }

  function StartWildcard(db: Db, actor: nat, choice: Choice, at: int, poolLocked: bool): (Db, Result<nat>) {
    match RevealedHost(db)
    case Err(error) => (db, Err(error))
    case Ok(host) =>
      if choice.expectedHost == 0 || host != choice.expectedHost then (db, Err(CurrentDrawChanged))
      else if ActiveWildcard(db).Some? then (db, Err(ActiveWildcardExists))
      else
        match Chosen(db, actor, choice)
        case (_, Err(error), _) => (db, Err(error))
        case (chosen, Ok(movie), created) =>
          match Selected(chosen, actor, host, movie, created, at, poolLocked)
          case Err(error) => (db, Err(error))
          case Ok(after) => (after, Ok(db.nextWildcard))
  }

  predicate ForSelection(db: Db, a: nat, w: nat) {
    a in db.acquisitions && db.acquisitions[a].wildcardId == Some(w)
  }

  /** The Acquisition of a selection. */
  function SelectionAcquisition(db: Db, w: nat): (r: Option<nat>)
    ensures r.Some? ==> ForSelection(db, r.value, w)
    ensures r.Some? ==> forall a: nat :: r.value < a < db.nextAcquisition ==> !ForSelection(db, a, w)
    ensures r.None? ==> forall a: nat :: a < db.nextAcquisition ==> !ForSelection(db, a, w)
  {
    var p := (a: nat) => ForSelection(db, a, w);
    assert forall a: nat :: ForSelection(db, a, w) <==> p(a);
    FindLast(p, db.nextAcquisition)
  }

  function CancelWildcard(db: Db, actor: nat, expected: nat, at: int): (Db, Result<nat>) {
    match ActiveWildcard(db)
    case None => (db, Err(NoActiveWildcard))
    case Some(w) =>
      var s := db.wildcards[w];
      if expected == 0 || w != expected then (db, Err(WildcardChanged))
      else if SelectionAcquisition(db, w).None? then (db, Err(NotFound))
      else
        var a := SelectionAcquisition(db, w).value;
        var returned := MoveIf(db, s.movie, s.source, Wildcard).0;
        (returned.(wildcards := db.wildcards[w := s.(status := Canceled, canceledAt := Some(at))],
                   acquisitions := db.acquisitions[a := A.Canceled(db.acquisitions[a], actor, at)]),
         Ok(w))
  }

  function WatchWildcard(db: Db, expected: nat, at: int): (Db, Result<nat>) {
    match ActiveWildcard(db)
    case None => (db, Err(NoActiveWildcard))
    case Some(w) =>
      var s := db.wildcards[w];
      if expected == 0 || w != expected then (db, Err(WildcardChanged))
      else if !HasStatus(db, s.movie, Wildcard) then (db, Err(InvalidState))
      else
        (Watching(db, s.movie, at).(wildcards := db.wildcards[w := s.(status := Seen, watchedAt := Some(at))]), Ok(w))
  }

  // ---- Turn and Acquisition steps on the same tables ------------------------------------

  function SkipTurn(db: Db, holder: nat): (Db, Result<nat>) {
    if db.nextUp != Some(holder) || !Participates(db.users, holder) then (db, Err(NextUpChanged))
    else if Concealed(db).Some? then (db, Err(DrawNotRevealed))
    else
      match AdvanceNextUp(db)
      case (_, None) => (db, Err(Conflict))
      case (after, Some(next)) => (after, Ok(next))
  }

  /** An admin or reconciler statement on a visible row; draws, corrections and wildcard
      cancellations have transactions of their own. */
  predicate Administrative(w: A.Write) {
    !w.Reveal? && !w.Retarget? && !w.CancelWildcard?
  }

  function WriteAcquisition(db: Db, a: nat, w: A.Write): (Db, Result<nat>) {
    if a !in db.acquisitions then (db, Err(NotFound))
    else
      match A.Apply(db.acquisitions[a], w)
      case Refused(error) => (db, Err(error))
      case Written(row, _) => (db.(acquisitions := db.acquisitions[a := row]), Ok(a))
  }
}
