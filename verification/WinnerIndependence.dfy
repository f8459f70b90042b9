/** Until a draw is revealed nothing a client can ask for tells which movie won. What clients
    see is the pool with the winner still in it; every command and display read is a function
    of that view, so two runs with different winners answer alike
    (internal/movie/service.go). */
module WinnerIndependence {
  import opened Domain
  import opened Turn
  import A = Acquisitions
  import opened MovieStore
  import opened DrawTables
  import opened DrawService
  import opened DrawLifecycle

  /** The tables as clients may see them: the winner is pooled and its Acquisition absent. */
  function View(db: Db, m: Memory): Db
    requires Held(m).Some? && m.active.value.movie in db.movies && Concealed(db).Some?
  {
    var winner := m.active.value.movie;
    db.(movies := db.movies[winner := db.movies[winner].(status := Pool)],
        acquisitions := db.acquisitions - {Concealed(db).value})
  }

  /** What the commands depend on while a draw is held. */
  ghost predicate Holding(db: Db, m: Memory) {
    && Held(m).Some? && HasStatus(db, m.active.value.movie, Current)
    && (forall id :: HasStatus(db, id, Current) ==> id == m.active.value.movie)
    && CurrentMovie(db) == Some(m.active.value.movie)
    && Concealed(db).Some? && NewestDraw(db, m.active.value.movie) == Concealed(db)
    && var row := db.acquisitions[Concealed(db).value];
       row.movieId == m.active.value.movie && row.wildcardId == None && !row.Visible()
  }

  lemma HeldIsHolding(db: Db, m: Memory)
    requires DbOk(db) && MemoryOk(db, m) && Held(m).Some?
    ensures Holding(db, m)
  {
    assert HeldView(m).Some?;
    var c := HeldRow(db, m);
    ConcealedIs(db, c);
    OpenOfCurrent(db, m.active.value.movie);
    assert AcquisitionOk(db, db.acquisitions[c]);
  }

  // ---- What clients are told ----------------------------------------------------------------

  /** Each command during a draw, in terms of the view alone: pooled movies stay where they
      are, corrections and wildcards wait, and the cap counts the pool as it is shown. */
  function SeenCommand(v: Db, c: Command): (Db, Answer) {
    match c
    case ToPool(movie) =>
      if movie !in v.movies then (v, Moved(Err(NotFound)))
      else if v.movies[movie].status == Pool then (v, Moved(Ok(false)))
      else if v.movies[movie].status != Stash then (v, Moved(Err(InvalidState)))
      else if PromoteIfRoom(v, movie, MAX_POOL).1 then (PromoteIfRoom(v, movie, MAX_POOL).0, Moved(Ok(true)))
      else (v, Moved(Err(PoolLimitReached)))
    case ToStash(movie) =>
      (v, Moved(if movie !in v.movies then Err(NotFound)
                else if v.movies[movie].status == Pool then Err(DrawInProgress)
                else if v.movies[movie].status == Stash then Ok(false)
                else Err(InvalidState)))
    case Remove(movie, _) =>
      if movie !in v.movies then (v, Named(Err(NotFound)))
      else if v.movies[movie].status == Pool then (v, Named(Err(DrawInProgress)))
      else if v.movies[movie].status != Stash then (v, Named(Err(InvalidState)))
      else var (after, r) := DeleteMovie(v, movie); (after, Named(r))
    case Amend(_, _, _) => (v, Moved(Err(DrawInProgress)))
    case Add(title, user, tmdb, imdb) => var (after, r) := AddToStash(v, title, user, tmdb, imdb); (after, Named(r))
    case SelectWildcard(_, _, _, _) => (v, Named(Err(DrawNotRevealed)))
    case EndWildcard(actor, expected, at) => var (after, r) := CancelWildcard(v, actor, expected, at); (after, Named(r))
    case SeeWildcard(expected, at) => var (after, r) := WatchWildcard(v, expected, at); (after, Named(r))
    case Skip(holder) =>
      (v, Named(Err(if v.nextUp == Some(holder) && Participates(v.users, holder) then DrawNotRevealed else NextUpChanged)))
  }

  // ---- The commands refine what clients are told ----------------------------------------------

  lemma ViewSelections(db: Db, m: Memory)
    requires Holding(db, m)
    ensures var v := View(db, m);
      && ActiveWildcard(v) == ActiveWildcard(db)
      && (forall w :: SelectionAcquisition(v, w) == SelectionAcquisition(db, w))
  {
    var v := View(db, m);
    assert forall w :: IsActive(v, w) <==> IsActive(db, w);
    forall w ensures SelectionAcquisition(v, w) == SelectionAcquisition(db, w) {
      assert forall a :: ForSelection(v, a, w) <==> ForSelection(db, a, w);
    }
  }

  lemma ViewReserves(db: Db, m: Memory, user: nat)
    requires Holding(db, m)
    ensures Reserves(View(db, m), user) == Reserves(db, user)
  {
    ViewSelections(db, m);
  }

  lemma ViewPool(db: Db, m: Memory, user: nat)
    requires Holding(db, m)
    ensures |PooledBy(View(db, m), user)| ==
      |PooledBy(db, user)| + (if db.movies[m.active.value.movie].addedBy == user then 1 else 0)
    ensures Reserves(View(db, m), user) == Reserves(db, user)
  {
    ViewReserves(db, m, user);
    var winner := m.active.value.movie;
    PooledWithWinner(db, View(db, m), winner, user);
  }

  lemma PooledWithWinner(db: Db, v: Db, winner: nat, user: nat)
    requires HasStatus(db, winner, Current) && v.movies == db.movies[winner := db.movies[winner].(status := Pool)]
    ensures |PooledBy(v, user)| == |PooledBy(db, user)| + (if db.movies[winner].addedBy == user then 1 else 0)
  {
    assert winner !in PooledBy(db, user);
    assert PooledBy(v, user) == PooledBy(db, user) + (if db.movies[winner].addedBy == user then {winner} else {});
  }

  /** The draw is still held, on the same row, after a step. */
  ghost predicate StillHolding(db: Db, after: Db, m: Memory) {
    Holding(db, m) && Holding(after, m) && Concealed(after) == Concealed(db)
  }

  lemma CommandsKeepHolding(db: Db, m: Memory, c: Command)
    requires DbOk(db) && MemoryOk(db, m) && Held(m).Some?
    ensures var after := Execute(db, m, c).0;
      DbOk(after) && MemoryOk(after, m) && StillHolding(db, after, m)
  {
    var after := Execute(db, m, c).0;
    ExecuteKeeps(db, m, c);
    HeldIsHolding(db, m);
    BackstageKeepsHolding(db, after, m);
  }

  lemma BackstageKeepsHolding(db: Db, after: Db, m: Memory)
    requires DbOk(db) && DbOk(after) && MemoryOk(db, m) && Backstage(db, after) && Holding(db, m)
    ensures MemoryOk(after, m) && StillHolding(db, after, m)
  {
    var c := Concealed(db).value;
    ConcealedIs(after, c);
    assert MemoryOk(after, m);
    HeldIsHolding(after, m);
  }

  lemma ViewOfStatus(db: Db, m: Memory, movie: nat, to: MovieStatus)
    requires movie in db.movies && StillHolding(db, WithStatus(db, movie, to), m) && movie != m.active.value.movie
    ensures View(WithStatus(db, movie, to), m) == WithStatus(View(db, m), movie, to)
  {
    assert View(WithStatus(db, movie, to), m).movies == WithStatus(View(db, m), movie, to).movies;
  }

  lemma PromotionAsSeen(db: Db, m: Memory, movie: nat)
    requires Holding(db, m) && movie in db.movies
    ensures PoolLimit(db, m, movie).Ok?
    ensures PromoteIfRoom(db, movie, PoolLimit(db, m, movie).value).1 == PromoteIfRoom(View(db, m), movie, MAX_POOL).1
  {
    ViewPool(db, m, db.movies[movie].addedBy);
  }

  lemma ToPoolAsSeen(db: Db, m: Memory, movie: nat)
    requires StillHolding(db, MoveToPool(db, m, movie).0, m)
    ensures (View(MoveToPool(db, m, movie).0, m), Moved(MoveToPool(db, m, movie).1)) ==
      SeenCommand(View(db, m), ToPool(movie))
  {
    if movie in db.movies {
      PromotionAsSeen(db, m, movie);
      if PromoteIfRoom(db, movie, PoolLimit(db, m, movie).value).1 {
        ViewOfStatus(db, m, movie, Pool);
      }
    }
  }

  lemma ToStashAsSeen(db: Db, m: Memory, movie: nat)
    requires StillHolding(db, MoveToStash(db, m, movie).0, m)
    ensures (View(MoveToStash(db, m, movie).0, m), Moved(MoveToStash(db, m, movie).1)) ==
      SeenCommand(View(db, m), ToStash(movie))
  {
  }

  lemma ViewOfRemoval(db: Db, m: Memory, movie: nat)
    requires StillHolding(db, DeleteMovie(db, movie).0, m) && movie in db.movies && movie != m.active.value.movie
    ensures View(DeleteMovie(db, movie).0, m) == DeleteMovie(View(db, m), movie).0
  {
    var after, seen := DeleteMovie(db, movie).0, DeleteMovie(View(db, m), movie).0;
    assert Referenced(View(db, m), movie) <==> Referenced(db, movie);
    assert View(after, m).movies == seen.movies;
    assert View(after, m).acquisitions == seen.acquisitions;
  }

  lemma RemoveAsSeen(db: Db, m: Memory, movie: nat, poolLocked: bool)
    requires StillHolding(db, Delete(db, m, movie, poolLocked).0, m)
    ensures (View(Delete(db, m, movie, poolLocked).0, m), Named(Delete(db, m, movie, poolLocked).1)) ==
      SeenCommand(View(db, m), Remove(movie, poolLocked))
  {
    if HasStatus(db, movie, Stash) {
      assert Delete(db, m, movie, poolLocked) == DeleteMovie(db, movie);
      assert Referenced(View(db, m), movie) <==> Referenced(db, movie);
      ViewOfRemoval(db, m, movie);
    }
  }

  /** An identity is taken in the view exactly when it is taken. */
  lemma TakenAsSeen(db: Db, m: Memory, tmdb: nat, imdb: string)
    requires Holding(db, m)
    ensures TmdbTaken(View(db, m), tmdb, None) <==> TmdbTaken(db, tmdb, None)
    ensures ImdbTaken(View(db, m), imdb) <==> ImdbTaken(db, imdb)
  {
    var v := View(db, m);
    assert forall id :: id in db.movies ==>
      id in v.movies && v.movies[id].tmdb == db.movies[id].tmdb && v.movies[id].imdb == db.movies[id].imdb;
  }

  lemma ViewOfAddition(db: Db, m: Memory, movie: Movie)
    requires StillHolding(db, WithMovie(db, movie), m) && m.active.value.movie < db.nextMovie
    ensures View(WithMovie(db, movie), m) == WithMovie(View(db, m), movie)
  {
    assert View(WithMovie(db, movie), m).movies == WithMovie(View(db, m), movie).movies;
  }

  lemma AddAsSeen(db: Db, m: Memory, title: string, user: nat, tmdb: Option<nat>, imdb: Option<string>)
    requires StillHolding(db, AddToStash(db, title, user, tmdb, imdb).0, m) && m.active.value.movie < db.nextMovie
    ensures (View(AddToStash(db, title, user, tmdb, imdb).0, m), Named(AddToStash(db, title, user, tmdb, imdb).1)) ==
      SeenCommand(View(db, m), Add(title, user, tmdb, imdb))
  {
    TakenAsSeen(db, m, if tmdb.Some? then tmdb.value else 0, if imdb.Some? then imdb.value else "");
    if AddToStash(db, title, user, tmdb, imdb).1.Ok? {
      ViewOfAddition(db, m, Movie(title, Stash, user, tmdb, imdb, None, None));
    }
  }

  lemma SelectAsSeen(db: Db, m: Memory, actor: nat, choice: Choice, at: int, poolLocked: bool)
    requires Holding(db, m)
    ensures StartWildcard(db, actor, choice, at, poolLocked) == (db, Err(DrawNotRevealed))
  {
  }

  lemma EndAsSeen(db: Db, m: Memory, actor: nat, expected: nat, at: int)
    requires StillHolding(db, CancelWildcard(db, actor, expected, at).0, m)
    ensures CancelWildcard(db, actor, expected, at).1 == CancelWildcard(View(db, m), actor, expected, at).1
    ensures View(CancelWildcard(db, actor, expected, at).0, m) == CancelWildcard(View(db, m), actor, expected, at).0
  {
    ViewSelections(db, m);
    if CancelWildcard(db, actor, expected, at).1.Ok? {
      var w := ActiveWildcard(db).value;
      var a := SelectionAcquisition(db, w).value;
      assert a != Concealed(db).value;
      ViewOfCancel(db, m, w, a, actor, at);
    }
  }

  lemma ViewOfCancel(db: Db, m: Memory, w: nat, a: nat, actor: nat, at: int)
    requires w in db.wildcards && a in db.acquisitions && Holding(db, m) && a != Concealed(db).value
    requires Holding(Ended(db, w, a, actor, at), m) && Concealed(Ended(db, w, a, actor, at)) == Concealed(db)
    ensures View(Ended(db, w, a, actor, at), m) == Ended(View(db, m), w, a, actor, at)
  {
    var after, seen := Ended(db, w, a, actor, at), Ended(View(db, m), w, a, actor, at);
    assert View(after, m).movies == seen.movies;
    assert View(after, m).acquisitions == seen.acquisitions;
  }

  /** The tables after a cancellation of selection w with row a. */
  function Ended(db: Db, w: nat, a: nat, actor: nat, at: int): Db
    requires w in db.wildcards && a in db.acquisitions
  {
    var s := db.wildcards[w];
    MoveIf(db, s.movie, s.source, Wildcard).0
      .(wildcards := db.wildcards[w := s.(status := Canceled, canceledAt := Some(at))],
        acquisitions := db.acquisitions[a := A.Canceled(db.acquisitions[a], actor, at)])
  }

  lemma SeenWildcardIs(db: Db, expected: nat, at: int)
    ensures var (after, answer) := WatchWildcard(db, expected, at);
      after == db.(movies := after.movies, wildcards := after.wildcards)
  {
  }

  lemma SeeAnswersAlike(db: Db, m: Memory, expected: nat, at: int)
    requires Holding(db, m)
    ensures var (after, answer), (seen, told) := WatchWildcard(db, expected, at), WatchWildcard(View(db, m), expected, at);
      && answer == told && after.wildcards == seen.wildcards && after.movies.Keys == db.movies.Keys
      && (HasStatus(after, m.active.value.movie, Current) ==>
            seen.movies == after.movies[m.active.value.movie := after.movies[m.active.value.movie].(status := Pool)])
  {
    ViewSelections(db, m);
  }

  lemma SeeAsSeen(db: Db, m: Memory, expected: nat, at: int)
    requires StillHolding(db, WatchWildcard(db, expected, at).0, m)
    ensures (View(WatchWildcard(db, expected, at).0, m), Named(WatchWildcard(db, expected, at).1)) ==
      SeenCommand(View(db, m), SeeWildcard(expected, at))
  {
    SeenWildcardIs(db, expected, at);
    SeenWildcardIs(View(db, m), expected, at);
    SeeAnswersAlike(db, m, expected, at);
  }

  lemma SkipAsSeen(db: Db, m: Memory, holder: nat)
    requires Holding(db, m)
    ensures (View(SkipTurn(db, holder).0, m), Named(SkipTurn(db, holder).1)) == SeenCommand(View(db, m), Skip(holder))
  {
  }

  lemma PoolCommandAsSeen(db: Db, m: Memory, c: Command)
    requires StillHolding(db, Execute(db, m, c).0, m) && m.active.value.movie < db.nextMovie
    requires c.ToPool? || c.ToStash? || c.Remove? || c.Add?
    ensures (View(Execute(db, m, c).0, m), Execute(db, m, c).1) == SeenCommand(View(db, m), c)
  {
    match c
    case ToPool(movie) => ToPoolAsSeen(db, m, movie);
    case ToStash(movie) => ToStashAsSeen(db, m, movie);
    case Remove(movie, poolLocked) => RemoveAsSeen(db, m, movie, poolLocked);
    case Add(title, user, tmdb, imdb) => AddAsSeen(db, m, title, user, tmdb, imdb);
  }

  lemma OtherCommandAsSeen(db: Db, m: Memory, c: Command)
    requires StillHolding(db, Execute(db, m, c).0, m)
    requires !(c.ToPool? || c.ToStash? || c.Remove? || c.Add?)
    ensures (View(Execute(db, m, c).0, m), Execute(db, m, c).1) == SeenCommand(View(db, m), c)
  {
    match c
    case Amend(movie, correction, at) =>
    case SelectWildcard(actor, choice, at, poolLocked) => SelectAsSeen(db, m, actor, choice, at, poolLocked);
    case EndWildcard(actor, expected, at) => EndAsSeen(db, m, actor, expected, at);
    case SeeWildcard(expected, at) => SeeAsSeen(db, m, expected, at);
    case Skip(holder) => SkipAsSeen(db, m, holder);
  }

  /** Every command during a draw answers, and changes the view, as SeenCommand says: the winner
      plays no part. */
  lemma CommandAsSeen(db: Db, m: Memory, c: Command)
    requires DbOk(db) && MemoryOk(db, m) && Held(m).Some?
    ensures var (after, answer) := Execute(db, m, c);
      && DbOk(after) && MemoryOk(after, m)
      && Holding(db, m) && Holding(after, m)
      && (View(after, m), answer) == SeenCommand(View(db, m), c)
  {
    CommandsKeepHolding(db, m, c);
    assert m.active.value.movie < db.nextMovie;
    if c.ToPool? || c.ToStash? || c.Remove? || c.Add? {
      PoolCommandAsSeen(db, m, c);
    } else {
      OtherCommandAsSeen(db, m, c);
    }
  }

  // ---- Two runs --------------------------------------------------------------------------------

  /** The answers to a sequence of commands, none of which reveals the draw. */
  function Answers(db: Db, m: Memory, cs: seq<Command>): seq<Answer>
    decreases |cs|
  {
    if cs == [] then []
    else var (after, answer) := Execute(db, m, cs[0]); [answer] + Answers(after, m, cs[1..])
  }

  function Commanded(db: Db, m: Memory, cs: seq<Command>): Db
    decreases |cs|
  {
    if cs == [] then db else Commanded(Execute(db, m, cs[0]).0, m, cs[1..])
  }

  /** Two states that differ in the winner at most: both hold a draw, and look the same. */
  ghost predicate Twins(db1: Db, m1: Memory, db2: Db, m2: Memory) {
    && DbOk(db1) && MemoryOk(db1, m1) && Held(m1).Some?
    && DbOk(db2) && MemoryOk(db2, m2) && Held(m2).Some?
    && Holding(db1, m1) && Holding(db2, m2) && View(db1, m1) == View(db2, m2)
  }

  /** Any sequence of commands gets the same answers and leaves the two states twins. */
  lemma {:induction false} TwinsAnswerAlike(db1: Db, m1: Memory, db2: Db, m2: Memory, cs: seq<Command>)
    requires Twins(db1, m1, db2, m2)
    ensures Answers(db1, m1, cs) == Answers(db2, m2, cs)
    ensures Twins(Commanded(db1, m1, cs), m1, Commanded(db2, m2, cs), m2)
    decreases |cs|
  {
    if cs != [] {
      CommandAsSeen(db1, m1, cs[0]);
      CommandAsSeen(db2, m2, cs[0]);
      TwinsAnswerAlike(Execute(db1, m1, cs[0]).0, m1, Execute(db2, m2, cs[0]).0, m2, cs[1..]);
    }
  }

  function DrawnMemory(m: Memory, winner: nat, clientId: string, at: int, revealAt: int): Memory {
    m.(generation := m.generation + 1, active := Some(ActiveDraw(winner, m.generation + 1, at, revealAt, clientId, false)))
  }

  lemma DrawnIsSound(db: Db, m: Memory, winner: nat, clientId: string, at: int, revealAt: int)
    requires DbOk(db) && MemoryOk(db, m) && CurrentMovie(db) == None
    requires StartDraw(db, winner, at, revealAt, clientId).1.Ok?
    ensures var after, n := StartDraw(db, winner, at, revealAt, clientId).0, DrawnMemory(m, winner, clientId, at, revealAt);
      DbOk(after) && MemoryOk(after, n) && Held(n).Some? && Concealed(after) == Some(db.nextAcquisition)
  {
    var n := DrawnMemory(m, winner, clientId, at, revealAt);
    DrawConceals(db, winner, at, revealAt, clientId);
    NothingActiveBeforeDraw(db, m);
    DrawnMemoryOk(m, n.active.value);
    ConcealedIs(StartDraw(db, winner, at, revealAt, clientId).0, db.nextAcquisition);
  }

  lemma DrawnLooksTheSame(db: Db, n: Memory, winner: nat, clientId: string, at: int, revealAt: int)
    requires db.nextAcquisition !in db.acquisitions && StartDraw(db, winner, at, revealAt, clientId).1.Ok?
    requires Held(n).Some? && n.active.value.movie == winner
    requires Concealed(StartDraw(db, winner, at, revealAt, clientId).0) == Some(db.nextAcquisition)
    ensures View(StartDraw(db, winner, at, revealAt, clientId).0, n) == db.(nextAcquisition := db.nextAcquisition + 1)
  {
    var v := View(StartDraw(db, winner, at, revealAt, clientId).0, n);
    assert v.movies == db.movies;
    assert v.acquisitions == db.acquisitions;
  }

  /** A draw starts: some winner of the pool, held in memory and concealed in the tables. */
  ghost predicate Starts(db: Db, m: Memory, after: Db, n: Memory) {
    && CurrentMovie(db) == None && n.active.Some?
    && var d := n.active.value;
       && StartDraw(db, d.movie, d.drawnAt, d.revealAt, d.clientId).1.Ok?
       && after == StartDraw(db, d.movie, d.drawnAt, d.revealAt, d.clientId).0
       && n == DrawnMemory(m, d.movie, d.clientId, d.drawnAt, d.revealAt)
  }

  /** Every draw the service answers has started. */
  lemma DrawStarts(db: Db, m: Memory, pick: Option<nat>, clientId: string, at: int, delay: int, fails: bool)
    requires Draw(db, m, pick, clientId, at, delay, fails).2.Ok?
    ensures var (after, n, draw) := Draw(db, m, pick, clientId, at, delay, fails);
      Starts(db, m, after, n) && n.active == Some(draw.value) && pick == Some(draw.value.movie)
  {
  }

  /** Right after a draw clients see what they saw before it. */
  lemma DrawnView(db: Db, m: Memory, after: Db, n: Memory)
    requires DbOk(db) && MemoryOk(db, m) && Starts(db, m, after, n)
    ensures DbOk(after) && MemoryOk(after, n) && Held(n).Some? && Holding(after, n)
    ensures View(after, n) == db.(nextAcquisition := db.nextAcquisition + 1)
  {
    var d := n.active.value;
    DrawnIsSound(db, m, d.movie, d.clientId, d.drawnAt, d.revealAt);
    HeldIsHolding(after, n);
    DrawnLooksTheSame(db, n, d.movie, d.clientId, d.drawnAt, d.revealAt);
  }

  /** Winner independence: after any two draws from the same tables, with whatever winners, any
      sequence of commands is answered alike, and the two states go on looking the same. */
  lemma WinnerStaysSecret(db: Db, m: Memory, db1: Db, m1: Memory, db2: Db, m2: Memory, cs: seq<Command>)
    requires DbOk(db) && MemoryOk(db, m) && Starts(db, m, db1, m1) && Starts(db, m, db2, m2)
    ensures Answers(db1, m1, cs) == Answers(db2, m2, cs)
    ensures Twins(Commanded(db1, m1, cs), m1, Commanded(db2, m2, cs), m2)
  {
    DrawnView(db, m, db1, m1);
    DrawnView(db, m, db2, m2);
    TwinsAnswerAlike(db1, m1, db2, m2, cs);
  }
}
