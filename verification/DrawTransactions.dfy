/** Every transaction of the draw lifecycle keeps the tables sound and the pools within
    their cap. */
module DrawTransactions {
  import opened Domain
  import opened Turn
  import A = Acquisitions
  import H = AcquisitionHistory
  import opened MovieStore
  import opened DrawTables

  // ---- Acquisition rows change in place ---------------------------------------------------

  /** What any write may do to a row as far as its movie is concerned. */
  ghost predicate RowStep(before: A.Acquisition, after: A.Acquisition) {
    && A.RowOk(after)
    && after.movieId == before.movieId && after.source == before.source && after.wildcardId == before.wildcardId
    && (after.Open() ==> before.Open())
    && (before.Visible() ==> after.Visible())
    && (!after.Visible() ==> after.Open())
  }

  ghost predicate RowsStep(before: map<nat, A.Acquisition>, after: map<nat, A.Acquisition>) {
    before.Keys == after.Keys && forall a :: a in before ==> RowStep(before[a], after[a])
  }

  lemma RowsStepKeepsSlots(db: Db, rows: map<nat, A.Acquisition>, id: nat)
    requires KeysOk(db) && OnesOk(db) && RowsStep(db.acquisitions, rows) && id in db.movies
    ensures TakesSlot(db.(acquisitions := rows), id) ==> TakesSlot(db, id)
  {
    var after := db.(acquisitions := rows);
    if ActiveWildcard(after).Some? {
      ActiveIs(db, ActiveWildcard(after).value);
    }
    if Concealed(after).Some? {
      var c := Concealed(after).value;
      assert RowStep(db.acquisitions[c], rows[c]);
      assert Conceals(db, c) && c < db.nextAcquisition;
    }
  }

  lemma RowsStepKeepsOk(db: Db, rows: map<nat, A.Acquisition>)
    requires DbOk(db) && RowsStep(db.acquisitions, rows)
    ensures DbOk(db.(acquisitions := rows))
  {
    var after := db.(acquisitions := rows);
    assert OnesOk(after) by {
      forall m, a | DrawnFor(after, m, a) ensures DrawnFor(db, m, a) {
        assert RowStep(db.acquisitions[a], rows[a]);
      }
      forall w, a | ForSelection(after, a, w) ensures ForSelection(db, a, w) {
        assert RowStep(db.acquisitions[a], rows[a]);
      }
      forall i | HasStatus(after, i, Current) ensures HasStatus(db, i, Current) {}
      forall v | IsActive(after, v) ensures IsActive(db, v) {}
    }
    forall a | a in rows ensures AcquisitionOk(after, rows[a]) {
      assert RowStep(db.acquisitions[a], rows[a]) && AcquisitionOk(db, db.acquisitions[a]);
    }
    forall w | w in after.wildcards ensures SelectionOk(after, after.wildcards[w]) {
      assert SelectionOk(db, db.wildcards[w]);
    }
    forall id | HasStatus(after, id, Wildcard)
      ensures ActiveWildcard(after).Some? && after.wildcards[ActiveWildcard(after).value].movie == id
    {
      assert HasStatus(db, id, Wildcard);
      assert IsActive(after, ActiveWildcard(db).value);
      ActiveIs(after, ActiveWildcard(db).value);
    }
    forall id | id in after.movies ensures TakesSlot(after, id) ==> TakesSlot(db, id) {
      RowsStepKeepsSlots(db, rows, id);
    }
    SlotsShrink(db, after);
  }

  /** One row steps. */
  lemma RowKeepsOk(db: Db, a: nat, row: A.Acquisition)
    requires DbOk(db) && a in db.acquisitions && RowStep(db.acquisitions[a], row)
    ensures DbOk(db.(acquisitions := db.acquisitions[a := row]))
  {
    forall b | b in db.acquisitions ensures RowStep(db.acquisitions[b], db.acquisitions[a := row][b]) {
      assert AcquisitionOk(db, db.acquisitions[b]);
    }
    RowsStepKeepsOk(db, db.acquisitions[a := row]);
  }

  lemma WriteIsRowStep(row: A.Acquisition, w: A.Write)
    requires A.RowOk(row) && row.Visible() && A.Offered(row, w) && A.Apply(row, w).Written?
    ensures RowStep(row, A.Apply(row, w).row)
  {
    A.ApplyKeepsRowOk(row, w);
    H.ApplyAdvances(row, w);
  }

  // ---- Reveal -------------------------------------------------------------------------------

  lemma RevealIsRowStep(row: A.Acquisition, at: int)
    requires A.RowOk(row) && row.Open()
    ensures RowStep(row, A.Revealed(row, at)) && A.Revealed(row, at).Visible()
  {
    assert A.Apply(row, A.Reveal(at)) == A.Written(A.Revealed(row, at), true);
    A.ApplyKeepsRowOk(row, A.Reveal(at));
  }

  lemma RevealKeepsOk(db: Db, movie: nat, at: int)
    requires DbOk(db)
    ensures DbOk(RevealOpen(db, movie, at))
  {
    var a := OpenAcquisition(db, movie);
    if a.Some? {
      var row := db.acquisitions[a.value];
      assert AcquisitionOk(db, row);
      RevealIsRowStep(row, at);
      RowKeepsOk(db, a.value, A.Revealed(row, at));
    }
  }

  /** Revealing the current movie leaves nothing concealed. */
  lemma RevealLeavesNoneConcealed(db: Db, movie: nat, at: int)
    requires DbOk(db) && HasStatus(db, movie, Current)
    ensures forall a :: a in RevealOpen(db, movie, at).acquisitions ==> RevealOpen(db, movie, at).acquisitions[a].Visible()
  {
    var after := RevealOpen(db, movie, at);
    forall a | a in after.acquisitions ensures after.acquisitions[a].Visible() {
      if !db.acquisitions[a].Visible() {
        ConcealedIs(db, a);
        CurrentIs(db, movie);
      }
    }
  }

  /** The turn and the members are no part of the tables' soundness. */
  lemma TurnKeepsOk(db: Db, users: Users, nextUp: Option<nat>)
    requires DbOk(db)
    ensures DbOk(db.(users := users, nextUp := nextUp))
  {
    var after := db.(users := users, nextUp := nextUp);
    SameTables(db, after);
  }

  lemma SameTables(db: Db, after: Db)
    requires DbOk(db)
    requires after.movies == db.movies && after.acquisitions == db.acquisitions && after.wildcards == db.wildcards
    requires after.nextMovie == db.nextMovie && after.nextAcquisition == db.nextAcquisition
    requires after.nextWildcard == db.nextWildcard
    ensures DbOk(after)
    ensures ActiveWildcard(after) == ActiveWildcard(db) && Concealed(after) == Concealed(db)
  {
    OnesCarry(db, after);
    ActiveCarries(db, after);
    forall w | w in after.wildcards ensures SelectionOk(after, after.wildcards[w]) {
      assert SelectionOk(db, db.wildcards[w]);
    }
    forall a | a in after.acquisitions ensures AcquisitionOk(after, after.acquisitions[a]) {
      assert AcquisitionOk(db, db.acquisitions[a]);
    }
    forall id | HasStatus(after, id, Wildcard)
      ensures ActiveWildcard(after).Some? && after.wildcards[ActiveWildcard(after).value].movie == id
    {
      assert HasStatus(db, id, Wildcard);
    }
    ConcealedCarries(db, after);
    SlotsShrink(db, after);
  }

  lemma RevealAndAdvanceKeepsOk(db: Db, movie: nat, at: int)
    requires DbOk(db)
    ensures DbOk(RevealDrawAndAdvance(db, movie, at).0)
  {
    RevealKeepsOk(db, movie, at);
    var revealed := RevealOpen(db, movie, at);
    TurnKeepsOk(revealed, revealed.users, AdvanceNextUp(revealed).0.nextUp);
  }

  // ---- Watching -----------------------------------------------------------------------------

  /** A current movie with nothing concealed, or the active wildcard, becomes watched. */
  lemma WatchingKeepsOk(db: Db, movie: nat, at: int)
    requires DbOk(db) && HasStatus(db, movie, Current)
    requires forall a :: a in db.acquisitions ==> db.acquisitions[a].Visible()
    ensures DbOk(Watching(db, movie, at))
  {
    var after := Watching(db, movie, at);
    OnesCarry(db, after);
    forall w | w in after.wildcards ensures SelectionOk(after, after.wildcards[w]) {
      assert SelectionOk(db, db.wildcards[w]);
    }
    forall a | a in after.acquisitions ensures AcquisitionOk(after, after.acquisitions[a]) {
      assert AcquisitionOk(db, db.acquisitions[a]);
    }
    forall id | HasStatus(after, id, Wildcard)
      ensures ActiveWildcard(after).Some? && after.wildcards[ActiveWildcard(after).value].movie == id
    {
      assert HasStatus(db, id, Wildcard);
      ActiveIs(after, ActiveWildcard(db).value);
    }
    if ActiveWildcard(after).Some? {
      ActiveIs(db, ActiveWildcard(after).value);
    }
    SlotsShrink(db, after);
  }

  lemma WatchKeepsOk(db: Db, at: int, revealing: bool)
    requires DbOk(db)
    ensures DbOk(WatchCurrent(db, at, revealing).0)
  {
    var (after, answer) := WatchCurrent(db, at, revealing);
    if answer.Ok? {
      var movie := CurrentMovie(db).value;
      RevealKeepsOk(db, movie, at);
      RevealLeavesNoneConcealed(db, movie, at);
      var revealed := RevealOpen(db, movie, at);
      OpenDependsOnRows(db, Watching(db, movie, at), movie);
      assert RevealOpen(Watching(db, movie, at), movie, at) == Watching(revealed, movie, at);
      WatchingKeepsOk(revealed, movie, at);
      TurnKeepsOk(Watching(revealed, movie, at), db.users, after.nextUp);
    }
  }

  // ---- Drawing ------------------------------------------------------------------------------

  lemma StartDrawKeepsOk(db: Db, movie: nat, drawnAt: int, revealAt: int, clientId: string)
    requires DbOk(db)
    ensures DbOk(StartDraw(db, movie, drawnAt, revealAt, clientId).0)
  {
    var (after, answer) := StartDraw(db, movie, drawnAt, revealAt, clientId);
    if answer.Ok? {
      var row := Snapshot(db, movie, A.Draw, None, drawnAt, revealAt, clientId, false);
      assert after.acquisitions == db.acquisitions[db.nextAcquisition := row];
      forall m, a | DrawnFor(db, m, a) ensures m != movie {
        assert AcquisitionOk(db, db.acquisitions[a]);
      }
      assert OnesOk(after) by {
        forall i | HasStatus(after, i, Current) ensures i == movie {
          assert i == movie || HasStatus(db, i, Current);
        }
        forall v | IsActive(after, v) ensures IsActive(db, v) {}
        forall m, a | DrawnFor(after, m, a) ensures DrawnFor(db, m, a) || (m == movie && a == db.nextAcquisition) {}
        forall w, a | ForSelection(after, a, w) ensures ForSelection(db, a, w) {}
      }
      forall w | w in after.wildcards ensures SelectionOk(after, after.wildcards[w]) {
        assert SelectionOk(db, db.wildcards[w]);
      }
      A.InsertedIsOk(movie, db.movies[movie].title, db.movies[movie].year, db.movies[movie].tmdb, db.movies[movie].imdb,
                     A.Draw, None, drawnAt, revealAt, clientId, false);
      forall a | a in after.acquisitions ensures AcquisitionOk(after, after.acquisitions[a]) {
        if a != db.nextAcquisition {
          assert AcquisitionOk(db, db.acquisitions[a]);
        }
      }
      DrawKeepsRest(db, movie, after);
    }
  }

  /** The drawn movie keeps its slot, and no other movie gets one. */
  lemma DrawKeepsRest(db: Db, movie: nat, after: Db)
    requires DbOk(db) && HasStatus(db, movie, Pool) && after.movies == WithStatus(db, movie, Current).movies
    requires after.wildcards == db.wildcards && after.nextWildcard == db.nextWildcard
    requires KeysOk(after) && OnesOk(after)
    ensures CapOk(after)
    ensures forall id :: HasStatus(after, id, Wildcard) ==>
      ActiveWildcard(after).Some? && after.wildcards[ActiveWildcard(after).value].movie == id
  {
    forall id | HasStatus(after, id, Wildcard)
      ensures ActiveWildcard(after).Some? && after.wildcards[ActiveWildcard(after).value].movie == id
    {
      assert HasStatus(db, id, Wildcard);
      assert IsActive(after, ActiveWildcard(db).value);
      ActiveIs(after, ActiveWildcard(db).value);
    }
    if ActiveWildcard(after).Some? {
      assert IsActive(db, ActiveWildcard(after).value);
      ActiveIs(db, ActiveWildcard(after).value);
    }
    forall id | id in after.movies && TakesSlot(after, id) ensures TakesSlot(db, id) {
      if after.movies[id].status == Current {
        assert HasStatus(after, id, Current) && HasStatus(after, movie, Current);
      }
    }
    SlotsShrink(db, after);
  }

  // ---- Moves between pool and stash ------------------------------------------------------------

  /** A move between pool and stash keeps everything but, perhaps, the cap. */
  lemma MoveKeepsRows(db: Db, movie: nat, to: MovieStatus)
    requires DbOk(db) && (HasStatus(db, movie, Pool) || HasStatus(db, movie, Stash)) && (to == Pool || to == Stash)
    ensures var after := WithStatus(db, movie, to);
      && KeysOk(after) && OnesOk(after) && RowsOk(after)
      && ActiveWildcard(after) == ActiveWildcard(db) && Concealed(after) == Concealed(db)
  {
    var after := WithStatus(db, movie, to);
    OnesCarry(db, after);
    forall w | w in after.wildcards ensures SelectionOk(after, after.wildcards[w]) {
      assert SelectionOk(db, db.wildcards[w]);
    }
    forall a | a in after.acquisitions ensures AcquisitionOk(after, after.acquisitions[a]) {
      assert AcquisitionOk(db, db.acquisitions[a]);
    }
    ActiveCarries(db, after);
    forall id | HasStatus(after, id, Wildcard)
      ensures ActiveWildcard(after).Some? && after.wildcards[ActiveWildcard(after).value].movie == id
    {
      assert HasStatus(db, id, Wildcard);
    }
    ConcealedCarries(db, after);
  }

  lemma DemotionKeepsOk(db: Db, movie: nat)
    requires DbOk(db)
    ensures DbOk(MoveIf(db, movie, Stash, Pool).0)
  {
    if HasStatus(db, movie, Pool) {
      MoveKeepsRows(db, movie, Stash);
      SlotsShrink(db, WithStatus(db, movie, Stash));
    }
  }

  /** The limit a promotion must be given: one slot less for the adder of the held winner. */
  predicate LimitOk(db: Db, movie: nat, limit: int) {
    movie in db.movies ==>
      limit <= MAX_POOL - (if HoldsWinnerOf(db, db.movies[movie].addedBy) then 1 else 0)
  }

  lemma PromotionTakesOneSlot(db: Db, movie: nat, user: nat)
    requires HasStatus(db, movie, Stash)
    requires var after := WithStatus(db, movie, Pool);
      ActiveWildcard(after) == ActiveWildcard(db) && Concealed(after) == Concealed(db)
    ensures Slots(WithStatus(db, movie, Pool), user) ==
      Slots(db, user) + (if user == db.movies[movie].addedBy then {movie} else {})
  {
  }

  lemma PromotionKeepsOk(db: Db, movie: nat, limit: int)
    requires DbOk(db) && LimitOk(db, movie, limit)
    ensures DbOk(PromoteIfRoom(db, movie, limit).0)
  {
    if PromoteIfRoom(db, movie, limit).1 {
      var after := WithStatus(db, movie, Pool);
      MoveKeepsRows(db, movie, Pool);
      var owner := db.movies[movie].addedBy;
      assert |Slots(db, owner)| < MAX_POOL by {
        SlotsCount(db, owner);
      }
      forall user: nat ensures |Slots(after, user)| <= MAX_POOL {
        PromotionTakesOneSlot(db, movie, user);
        assert |Slots(db, user)| <= MAX_POOL;
      }
    }
  }

  // ---- Adding, deleting, correcting ------------------------------------------------------------

  lemma WithMovieKeepsOk(db: Db, movie: Movie)
    requires DbOk(db) && movie.status == Stash
    ensures DbOk(WithMovie(db, movie))
  {
    var after := WithMovie(db, movie);
    OnesCarry(db, after);
    MoviesKeepRows(db, after);
  }

  /** Any change of the movies that keeps the status and adder of the old ones, and adds
      none but stashed ones. */
  lemma MoviesKeepRows(db: Db, after: Db)
    requires DbOk(db) && KeysOk(after) && OnesOk(after)
    requires after.acquisitions == db.acquisitions && after.nextAcquisition == db.nextAcquisition
    requires after.wildcards == db.wildcards && after.nextWildcard == db.nextWildcard
    requires forall id :: id in db.movies ==>
      id in after.movies && after.movies[id].status == db.movies[id].status && after.movies[id].addedBy == db.movies[id].addedBy
    requires forall id :: id in after.movies && id !in db.movies ==> after.movies[id].status == Stash
    ensures DbOk(after)
  {
    forall w | w in after.wildcards ensures SelectionOk(after, after.wildcards[w]) {
      assert SelectionOk(db, db.wildcards[w]);
    }
    forall a | a in after.acquisitions ensures AcquisitionOk(after, after.acquisitions[a]) {
      assert AcquisitionOk(db, db.acquisitions[a]);
    }
    ActiveCarries(db, after);
    forall id | HasStatus(after, id, Wildcard)
      ensures ActiveWildcard(after).Some? && after.wildcards[ActiveWildcard(after).value].movie == id
    {
      assert HasStatus(db, id, Wildcard);
    }
    if Concealed(after).Some? {
      ConcealedIs(db, Concealed(after).value);
    }
    SlotsShrink(db, after);
  }

  lemma AddKeepsOk(db: Db, title: string, user: nat, tmdb: Option<nat>, imdb: Option<string>)
    requires DbOk(db)
    ensures DbOk(AddToStash(db, title, user, tmdb, imdb).0)
  {
    if AddToStash(db, title, user, tmdb, imdb).1.Ok? {
      WithMovieKeepsOk(db, Movie(title, Stash, user, tmdb, imdb, None, None));
    }
  }

  /** A deletable movie has no Acquisition, so the cascade deletes none: its history would
      be a wildcard's, whose selection still refers to the movie. */
  lemma DeleteCascadesNothing(db: Db, movie: nat)
    requires DbOk(db) && (HasStatus(db, movie, Pool) || HasStatus(db, movie, Stash)) && !Referenced(db, movie)
    ensures forall a :: a in db.acquisitions ==> db.acquisitions[a].movieId != movie
    ensures DeleteMovie(db, movie).0.acquisitions == db.acquisitions
  {
    forall a | a in db.acquisitions ensures db.acquisitions[a].movieId != movie {
      assert AcquisitionOk(db, db.acquisitions[a]);
    }
  }

  lemma DeleteKeepsOk(db: Db, movie: nat)
    requires DbOk(db) && (HasStatus(db, movie, Pool) || HasStatus(db, movie, Stash))
    ensures DbOk(DeleteMovie(db, movie).0)
  {
    if !Referenced(db, movie) {
      var after := DeleteMovie(db, movie).0;
      DeleteCascadesNothing(db, movie);
      OnesCarry(db, after);
      forall w | w in after.wildcards ensures SelectionOk(after, after.wildcards[w]) {
        assert SelectionOk(db, db.wildcards[w]);
      }
      forall a | a in after.acquisitions ensures AcquisitionOk(after, after.acquisitions[a]) {
        assert AcquisitionOk(db, db.acquisitions[a]);
      }
      ActiveCarries(db, after);
      forall id | HasStatus(after, id, Wildcard)
        ensures ActiveWildcard(after).Some? && after.wildcards[ActiveWildcard(after).value].movie == id
      {
        assert HasStatus(db, id, Wildcard);
      }
      if Concealed(after).Some? {
        ConcealedIs(db, Concealed(after).value);
      }
      SlotsShrink(db, after);
    }
  }

  lemma RetargetIsRowStep(row: A.Acquisition, title: string, year: Option<int>, tmdb: nat, at: int)
    requires A.RowOk(row) && row.Open() && !row.Locked() && row.mutation == A.Idle
    ensures RowStep(row, A.Retargeted(row, title, year, tmdb, at))
  {
    A.ApplyKeepsRowOk(row, A.Retarget(title, year, tmdb, at));
  }

  lemma RetargetKeepsOk(db: Db, movie: nat, title: string, year: Option<int>, tmdb: nat, at: int)
    requires DbOk(db) && !Blocks(db, movie)
    ensures DbOk(db.(acquisitions := RetargetedRows(db, movie, title, year, tmdb, at)))
  {
    var rows := RetargetedRows(db, movie, title, year, tmdb, at);
    forall a | a in db.acquisitions ensures RowStep(db.acquisitions[a], rows[a]) {
      assert AcquisitionOk(db, db.acquisitions[a]);
      if OpenFor(db, movie, a) {
        RetargetIsRowStep(db.acquisitions[a], title, year, tmdb, at);
      }
    }
    RowsStepKeepsOk(db, rows);
  }

  lemma CorrectedMoviesOk(db: Db, movies: map<nat, Movie>)
    requires DbOk(db) && movies.Keys == db.movies.Keys
    requires forall id :: id in movies ==>
      movies[id].status == db.movies[id].status && movies[id].addedBy == db.movies[id].addedBy
    ensures DbOk(db.(movies := movies))
  {
    var after := db.(movies := movies);
    OnesCarry(db, after);
    MoviesKeepRows(db, after);
  }

  /** A correction renames one movie and, with a new identity, retargets its open rows. */
  lemma CorrectionIs(db: Db, movie: nat, c: Correction, at: int)
    ensures var (after, answer) := CorrectMovie(db, movie, c, at);
      && (answer.Err? ==> after == db)
      && (answer == Ok(false) ==> after == db.(movies := after.movies))
      && (answer == Ok(true) ==>
            c.tmdb.Some? && c.tmdb.value >= 0 && !Blocks(db, movie) &&
            after == db.(movies := after.movies,
                         acquisitions := RetargetedRows(db, movie, c.title, UsableYear(c.year), c.tmdb.value, at)))
  {
  }

  lemma CorrectionKeepsMovies(db: Db, movie: nat, c: Correction, at: int)
    ensures var movies := CorrectMovie(db, movie, c, at).0.movies;
      movies.Keys == db.movies.Keys && forall id :: id in movies ==>
        movies[id].status == db.movies[id].status && movies[id].addedBy == db.movies[id].addedBy
  {
  }

  lemma CorrectKeepsOk(db: Db, movie: nat, c: Correction, at: int)
    requires DbOk(db)
    ensures DbOk(CorrectMovie(db, movie, c, at).0)
  {
    var (after, answer) := CorrectMovie(db, movie, c, at);
    CorrectionIs(db, movie, c, at);
    CorrectionKeepsMovies(db, movie, c, at);
    if answer == Ok(true) {
      RetargetKeepsOk(db, movie, c.title, UsableYear(c.year), c.tmdb.value, at);
    }
    if answer.Ok? {
      CorrectedMoviesOk(db.(acquisitions := after.acquisitions), after.movies);
    }
  }

  // ---- Acquisition writes and turns --------------------------------------------------------------

  lemma WriteKeepsOk(db: Db, a: nat, w: A.Write)
    requires DbOk(db) && Administrative(w)
    requires a in db.acquisitions ==> db.acquisitions[a].Visible() && A.Offered(db.acquisitions[a], w)
    ensures DbOk(WriteAcquisition(db, a, w).0)
  {
    if WriteAcquisition(db, a, w).1.Ok? {
      assert AcquisitionOk(db, db.acquisitions[a]);
      WriteIsRowStep(db.acquisitions[a], w);
      RowKeepsOk(db, a, A.Apply(db.acquisitions[a], w).row);
    }
  }

  lemma SkipKeepsOk(db: Db, holder: nat)
    requires DbOk(db)
    ensures DbOk(SkipTurn(db, holder).0)
  {
    TurnKeepsOk(db, db.users, SkipTurn(db, holder).0.nextUp);
  }

  // ---- Wildcards ------------------------------------------------------------------------------

  lemma StartWildcardKeepsOk(db: Db, actor: nat, choice: Choice, at: int, poolLocked: bool)
    requires DbOk(db)
    ensures DbOk(StartWildcard(db, actor, choice, at, poolLocked).0)
  {
    var (after, answer) := StartWildcard(db, actor, choice, at, poolLocked);
    if answer.Ok? {
      var host := RevealedHost(db).value;
      var (chosen, named, created) := Chosen(db, actor, choice);
      var movie := named.value;
      SelectionKeepsOk(db, chosen, actor, host, movie, created, at, poolLocked);
    }
  }

  /** Before the selection: the movie is there, newly added or not; no wildcard is active and
      nothing is concealed. */
  ghost predicate Selectable(db: Db, chosen: Db, host: nat, movie: nat, created: bool) {
    && DbOk(db) && ActiveWildcard(db) == None && HasStatus(db, host, Current)
    && movie in chosen.movies
    && (!created ==> chosen == db)
    && (created ==> movie == db.nextMovie && chosen.movies[movie].status == Wildcard &&
                    chosen == WithMovie(db, chosen.movies[movie]))
  }

  lemma SelectionKeepsOk(
    db: Db, chosen: Db, actor: nat, host: nat, movie: nat, created: bool, at: int, poolLocked: bool)
    requires Selectable(db, chosen, host, movie, created)
    requires Selected(chosen, actor, host, movie, created, at, poolLocked).Ok?
    ensures DbOk(Selected(chosen, actor, host, movie, created, at, poolLocked).value)
  {
    var after := Selected(chosen, actor, host, movie, created, at, poolLocked).value;
    SelectedSelects(db, chosen, actor, host, movie, created, at, poolLocked);
    SelectedOnes(db, after, host, movie);
    SelectedSelections(db, after, host, movie);
    SelectedRows(db, after, host, movie);
    SelectedSlots(db, after, host, movie);
  }

  /** The movie becomes the wildcard, and no other movie changes. */
  ghost predicate SelectsMovie(db: Db, after: Db, movie: nat) {
    && HasStatus(after, movie, Wildcard) && db.movies.Keys <= after.movies.Keys
    && (movie in db.movies ==>
          (db.movies[movie].status == Pool || db.movies[movie].status == Stash) &&
          after.movies[movie].addedBy == db.movies[movie].addedBy)
    && (forall id :: id in after.movies && id != movie ==> id in db.movies && after.movies[id] == db.movies[id])
  }

  /** One selection and one row are new. */
  ghost predicate Selects(db: Db, after: Db, host: nat, movie: nat) {
    var w, a := db.nextWildcard, db.nextAcquisition;
    && movie != host && KeysOk(after) && SelectsMovie(db, after, movie)
    && w in after.wildcards && after.wildcards == db.wildcards[w := after.wildcards[w]]
    && after.wildcards[w].host == host && after.wildcards[w].movie == movie && after.wildcards[w].status == Active
    && (after.wildcards[w].source == Stash || (after.wildcards[w].source == Pool && HasStatus(db, movie, Pool)))
    && a in after.acquisitions && after.acquisitions == db.acquisitions[a := after.acquisitions[a]]
    && after.acquisitions[a].movieId == movie && after.acquisitions[a].source == A.Wildcard
    && after.acquisitions[a].wildcardId == Some(w) && after.acquisitions[a].Visible() && A.RowOk(after.acquisitions[a])
  }

  lemma SelectedMovie(
    db: Db, chosen: Db, actor: nat, host: nat, movie: nat, created: bool, at: int, poolLocked: bool)
    requires Selectable(db, chosen, host, movie, created)
    requires Selected(chosen, actor, host, movie, created, at, poolLocked).Ok?
    ensures SelectsMovie(db, Selected(chosen, actor, host, movie, created, at, poolLocked).value, movie)
    ensures KeysOk(Selected(chosen, actor, host, movie, created, at, poolLocked).value)
  {
  }

  lemma SelectedSelects(
    db: Db, chosen: Db, actor: nat, host: nat, movie: nat, created: bool, at: int, poolLocked: bool)
    requires Selectable(db, chosen, host, movie, created)
    requires Selected(chosen, actor, host, movie, created, at, poolLocked).Ok?
    ensures Selects(db, Selected(chosen, actor, host, movie, created, at, poolLocked).value, host, movie)
  {
    SelectedMovie(db, chosen, actor, host, movie, created, at, poolLocked);
    var m := chosen.movies[movie];
    A.InsertedIsOk(movie, m.title, m.year, m.tmdb, m.imdb, A.Wildcard, Some(db.nextWildcard), at, at, "", true);
  }

  lemma SelectedOnes(db: Db, after: Db, host: nat, movie: nat)
    requires DbOk(db) && ActiveWildcard(db) == None && Selects(db, after, host, movie)
    ensures OnesOk(after) && ActiveWildcard(after) == Some(db.nextWildcard)
  {
    var w, a := db.nextWildcard, db.nextAcquisition;
    forall v | IsActive(after, v) ensures v == w {
      assert v == w || IsActive(db, v);
    }
    forall i | HasStatus(after, i, Current) ensures HasStatus(db, i, Current) {}
    forall m, b | DrawnFor(after, m, b) ensures DrawnFor(db, m, b) {}
    forall v, b | ForSelection(after, b, v) ensures ForSelection(db, b, v) || (v == w && b == a) {}
    forall v, b | ForSelection(db, b, v) ensures v != w {
      assert AcquisitionOk(db, db.acquisitions[b]);
    }
    assert IsActive(after, w);
    ActiveIs(after, w);
  }

  lemma SelectedSelections(db: Db, after: Db, host: nat, movie: nat)
    requires DbOk(db) && ActiveWildcard(db) == None && HasStatus(db, host, Current) && Selects(db, after, host, movie)
    ensures forall v :: v in after.wildcards ==> SelectionOk(after, after.wildcards[v])
  {
    forall v | v in after.wildcards ensures SelectionOk(after, after.wildcards[v]) {
      if v != db.nextWildcard {
        assert SelectionOk(db, db.wildcards[v]);
        assert !IsActive(db, v);
      }
    }
  }

  lemma SelectedRows(db: Db, after: Db, host: nat, movie: nat)
    requires DbOk(db) && ActiveWildcard(db) == None && Selects(db, after, host, movie)
    requires ActiveWildcard(after) == Some(db.nextWildcard)
    requires forall v :: v in after.wildcards ==> SelectionOk(after, after.wildcards[v])
    ensures RowsOk(after)
  {
    forall b | b in after.acquisitions ensures AcquisitionOk(after, after.acquisitions[b]) {
      if b != db.nextAcquisition {
        assert AcquisitionOk(db, db.acquisitions[b]);
      }
    }
    forall id | HasStatus(after, id, Wildcard) ensures id == movie {
      assert id == movie || HasStatus(db, id, Wildcard);
    }
  }

  lemma SelectedSlots(db: Db, after: Db, host: nat, movie: nat)
    requires DbOk(db) && Selects(db, after, host, movie)
    requires RowsOk(after) && OnesOk(after) && ActiveWildcard(after) == Some(db.nextWildcard)
    ensures CapOk(after)
  {
    if Concealed(after).Some? {
      ConcealedIs(db, Concealed(after).value);
    }
    forall id | id in after.movies && TakesSlot(after, id) ensures id in db.movies && TakesSlot(db, id) {
      if id != movie {
        assert !HasStatus(after, id, Wildcard);
      }
    }
    SlotsShrink(db, after);
  }

  lemma CancelIsRowStep(row: A.Acquisition, actor: nat, at: int)
    requires A.RowOk(row) && row.Visible()
    ensures RowStep(row, A.Canceled(row, actor, at)) && !A.Canceled(row, actor, at).Open()
  {
    A.ApplyKeepsRowOk(row, A.CancelWildcard(actor, at));
  }

  lemma CancelKeepsOk(db: Db, actor: nat, expected: nat, at: int)
    requires DbOk(db)
    ensures DbOk(CancelWildcard(db, actor, expected, at).0)
  {
    if CancelWildcard(db, actor, expected, at).1.Ok? {
      var w := ActiveWildcard(db).value;
      var a := SelectionAcquisition(db, w).value;
      var row := db.acquisitions[a];
      assert AcquisitionOk(db, row) && SelectionOk(db, db.wildcards[w]);
      CancelIsRowStep(row, actor, at);
      RowKeepsOk(db, a, A.Canceled(row, actor, at));
      var closed := db.(acquisitions := db.acquisitions[a := A.Canceled(row, actor, at)]);
      ActiveIs(closed, w);
      forall b | ForSelection(closed, b, w) ensures !closed.acquisitions[b].Open() {
        assert ForSelection(db, b, w) && ForSelection(db, a, w);
      }
      SettleKeepsOk(closed, w, db.wildcards[w].source, None, Canceled, Some(at), None);
      assert CancelWildcard(db, actor, expected, at).0 ==
        Settled(closed, w, db.wildcards[w].source, None, Canceled, Some(at), None);
    }
  }

  /** The active wildcard ends: its movie goes back where it came from, or is watched. */
  function Settled(
    db: Db, w: nat, to: MovieStatus, movieAt: Option<int>, status: SelectionStatus, canceledAt: Option<int>,
    watchedAt: Option<int>
  ): Db
    requires w in db.wildcards && db.wildcards[w].movie in db.movies
  {
    var s := db.wildcards[w];
    var m := db.movies[s.movie];
    db.(movies := db.movies[s.movie := m.(status := to, watchedAt := if movieAt.Some? then movieAt else m.watchedAt)],
        wildcards := db.wildcards[w := s.(status := status, canceledAt := if canceledAt.Some? then canceledAt else s.canceledAt,
                                          watchedAt := if watchedAt.Some? then watchedAt else s.watchedAt)])
  }

  lemma SettleKeepsOk(
    db: Db, w: nat, to: MovieStatus, movieAt: Option<int>, status: SelectionStatus, canceledAt: Option<int>,
    watchedAt: Option<int>)
    requires DbOk(db) && ActiveWildcard(db) == Some(w)
    requires (status == Canceled && to == db.wildcards[w].source && forall a :: ForSelection(db, a, w) ==> !db.acquisitions[a].Open())
          || (status == Seen && to == Watched)
    ensures db.wildcards[w].movie in db.movies && DbOk(Settled(db, w, to, movieAt, status, canceledAt, watchedAt))
  {
    var s := db.wildcards[w];
    assert SelectionOk(db, s) && IsActive(db, w);
    var after := Settled(db, w, to, movieAt, status, canceledAt, watchedAt);
    OnesCarry(db, after);
    SettledRows(db, w, to, movieAt, status, canceledAt, watchedAt);
    SettledSlots(db, w, to, movieAt, status, canceledAt, watchedAt);
  }

  lemma SettledRows(
    db: Db, w: nat, to: MovieStatus, movieAt: Option<int>, status: SelectionStatus, canceledAt: Option<int>,
    watchedAt: Option<int>)
    requires DbOk(db) && ActiveWildcard(db) == Some(w) && db.wildcards[w].movie in db.movies
    requires (status == Canceled && to == db.wildcards[w].source && forall a :: ForSelection(db, a, w) ==> !db.acquisitions[a].Open())
          || (status == Seen && to == Watched)
    ensures RowsOk(Settled(db, w, to, movieAt, status, canceledAt, watchedAt))
  {
    var s := db.wildcards[w];
    assert SelectionOk(db, s);
    var after := Settled(db, w, to, movieAt, status, canceledAt, watchedAt);
    forall v | v in after.wildcards ensures SelectionOk(after, after.wildcards[v]) {
      assert SelectionOk(db, db.wildcards[v]);
      assert v != w ==> !IsActive(db, v);
    }
    forall a | a in after.acquisitions ensures AcquisitionOk(after, after.acquisitions[a]) {
      assert AcquisitionOk(db, db.acquisitions[a]);
      assert db.acquisitions[a].wildcardId == Some(w) ==> ForSelection(db, a, w);
    }
    forall id | HasStatus(after, id, Wildcard) ensures false {
      assert HasStatus(db, id, Wildcard);
    }
  }

  /** Cancelling gives the pool back exactly the slot the wildcard kept. */
  lemma SettledSlots(
    db: Db, w: nat, to: MovieStatus, movieAt: Option<int>, status: SelectionStatus, canceledAt: Option<int>,
    watchedAt: Option<int>)
    requires DbOk(db) && ActiveWildcard(db) == Some(w) && db.wildcards[w].movie in db.movies
    requires (status == Canceled && to == db.wildcards[w].source) || (status == Seen && to == Watched)
    ensures CapOk(Settled(db, w, to, movieAt, status, canceledAt, watchedAt))
  {
    var s := db.wildcards[w];
    assert SelectionOk(db, s);
    var after := Settled(db, w, to, movieAt, status, canceledAt, watchedAt);
    if Concealed(after).Some? {
      ConcealedIs(db, Concealed(after).value);
    }
    forall id | id in after.movies && TakesSlot(after, id) ensures TakesSlot(db, id) {
      assert HasStatus(db, id, Wildcard) ==> id == s.movie;
    }
    SlotsShrink(db, after);
  }

  lemma WatchWildcardKeepsOk(db: Db, expected: nat, at: int)
    requires DbOk(db)
    ensures DbOk(WatchWildcard(db, expected, at).0)
  {
    if WatchWildcard(db, expected, at).1.Ok? {
      var w := ActiveWildcard(db).value;
      SettleKeepsOk(db, w, Watched, Some(at), Seen, None, Some(at));
      assert WatchWildcard(db, expected, at).0 == Settled(db, w, Watched, Some(at), Seen, None, Some(at));
    }
  }
}
