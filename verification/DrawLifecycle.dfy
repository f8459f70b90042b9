/** Every run of the draw lifecycle: members, timers, confirmations, watches, shutdowns and
    crashes in any order. The draw held in memory and the one in the tables agree, a restart
    rebuilds it, each draw advances the turn once, and no pool exceeds its cap. */
module DrawLifecycle {
  import opened Domain
  import opened Turn
  import A = Acquisitions
  import H = AcquisitionHistory
  import opened MovieStore
  import opened DrawTables
  import opened DrawTransactions
  import opened DrawService

  /** The tables, the running process if there is one, and the Acquisitions whose Reveal has
      advanced the turn. */
  datatype World = World(db: Db, server: Option<Memory>, turns: seq<nat>)

  /** `fails`: the store refuses the write. `survives`: the process lives to update its memory
      after the write has committed. */
  datatype Event =
    | DrawMovie(pick: Option<nat>, clientId: string, at: int, delay: int, fails: bool, survives: bool)
    | AutoReveal(movie: nat, generation: nat)
    | Fire(timer: nat, at: int, fails: bool, survives: bool)
    | Confirm(at: int, fails: bool, survives: bool)
    | WatchDraw(at: int, fails: bool, survives: bool)
    | Serve(command: Command, fails: bool, survives: bool)
    | Administer(a: nat, write: A.Write)
    | Members(users: Users, nextUp: Option<nat>)
    | Shutdown
    | Crash
    | Restart

  /** The Acquisition whose Reveal a step from `db` to `after` committed with a turn. */
  function Turned(db: Db, m: Memory, after: Memory): seq<nat> {
    if |after.published| > |m.published| then
      match OpenAcquisition(db, after.published[|m.published|].movie)
      case None => []
      case Some(a) => [a]
    else []
  }

  function Committed(w: World, after: Db, m: Memory, n: Memory, survives: bool): World {
    World(after, if survives then Some(n) else None, w.turns + Turned(w.db, m, n))
  }

  function Next(w: World, e: Event): World {
    match w.server
    case None =>
      (match e
       case Restart => w.(server := Some(Resume(w.db)))
       case Members(users, nextUp) => w.(db := w.db.(users := users, nextUp := nextUp))
       case Administer(a, write) => w.(db := WriteAcquisition(w.db, a, write).0)
       case _ => w)
    case Some(m) =>
      match e
      case DrawMovie(pick, clientId, at, delay, fails, survives) =>
        var (after, n, _) := Draw(w.db, m, pick, clientId, at, delay, fails);
        Committed(w, after, m, n, survives)
      case AutoReveal(movie, generation) => w.(server := Some(StartAutoReveal(m, movie, generation)))
      case Fire(t, at, fails, survives) =>
        if t !in m.timers then w
        else
          var (after, n) := FireTimer(w.db, m, t, at, fails);
          Committed(w, after, m, n, survives)
      case Confirm(at, fails, survives) =>
        var (after, n, _) := RevealActive(w.db, m, None, at, fails);
        Committed(w, after, m, n, survives)
      case WatchDraw(at, fails, survives) =>
        var (after, n, _) := MarkWatched(w.db, m, at, fails);
        Committed(w, after, m, n, survives)
      case Serve(command, fails, survives) =>
        Committed(w, if fails then w.db else Execute(w.db, m, command).0, m, m, survives)
      case Administer(a, write) => w.(db := WriteAcquisition(w.db, a, write).0)
      case Members(users, nextUp) => w.(db := w.db.(users := users, nextUp := nextUp))
      case Shutdown => w.(server := Some(CloseService(m)))
      case Crash => w.(server := None)
      case Restart => w
  }

  /** Admin and reconciler writes reach visible rows only. */
  ghost predicate Legal(w: World, e: Event) {
    match e
    case Administer(a, write) =>
      Administrative(write) &&
      (a in w.db.acquisitions ==> w.db.acquisitions[a].Visible() && A.Offered(w.db.acquisitions[a], write))
    case _ => true
  }

  // ---- The invariant ------------------------------------------------------------------

  /** The held draw as a restart would read it. */
  function HeldView(m: Memory): Option<Resumed> {
    match Held(m)
    case None => None
    case Some(d) => Some(Resumed(d.movie, d.drawnAt, d.revealAt, d.clientId))
  }

  /** Timers: the armed one is pending, belongs to the held draw, and is the only callback that
      could still reveal it. */
  ghost predicate TimersOk(m: Memory) {
    && (m.armed <==> m.stop.Some?)
    && (m.armed ==> Held(m).Some? && !m.closed && m.stop.value in m.timers &&
                    m.timers[m.stop.value] == Timer(m.generation, false))
    && m.retries <= MAX_RETRIES
    && (forall t :: t in m.timers ==> t < m.nextTimer && m.timers[t].generation <= m.generation)
    && (Held(m).Some? && !m.closed ==>
          forall t :: t in m.timers && m.timers[t].generation == m.generation ==> m.stop == Some(t))
  }

  /** OnRevealed calls: one generation each, none for the draw still held. */
  ghost predicate PublishedOk(m: Memory) {
    && (forall k :: 0 <= k < |m.published| ==> m.published[k].generation <= m.generation)
    && (Held(m).Some? ==> forall k :: 0 <= k < |m.published| ==> m.published[k].generation < m.generation)
    && (forall k, l :: 0 <= k < l < |m.published| ==> m.published[k].generation < m.published[l].generation)
  }

  ghost predicate MemoryOk(db: Db, m: Memory) {
    && HeldView(m) == ConcealedCurrentDraw(db)
    && (m.active.Some? ==> HasStatus(db, m.active.value.movie, Current) && m.active.value.generation == m.generation)
    && TimersOk(m) && PublishedOk(m)
  }

  /** A revealed draw. */
  predicate Shown(db: Db, a: nat) {
    a in db.acquisitions && db.acquisitions[a].source == A.Draw && db.acquisitions[a].Visible()
  }

  ghost predicate TurnsOk(db: Db, turns: seq<nat>) {
    && (forall a :: Shown(db, a) <==> a in turns)
    && (forall k :: 0 <= k < |turns| ==> turns[k] !in turns[..k])
  }

  ghost predicate Inv(w: World) {
    DbOk(w.db) && TurnsOk(w.db, w.turns) && (w.server.Some? ==> MemoryOk(w.db, w.server.value))
  }

  // ---- Steps that leave the stage alone -----------------------------------------------------

  ghost predicate SameScreen(before: A.Acquisition, after: A.Acquisition) {
    && after.source == before.source && after.movieId == before.movieId && after.Visible() == before.Visible()
    && after.drawnAt == before.drawnAt && after.revealAt == before.revealAt && after.clientId == before.clientId
  }

  /** No draw starts, is revealed or ends. */
  ghost predicate Backstage(db: Db, after: Db) {
    && (forall id :: HasStatus(db, id, Current) ==> HasStatus(after, id, Current))
    && (forall a :: a in db.acquisitions ==>
          a in after.acquisitions && SameScreen(db.acquisitions[a], after.acquisitions[a]))
    && (forall a :: a in after.acquisitions && a !in db.acquisitions ==>
          after.acquisitions[a].source == A.Wildcard && after.acquisitions[a].Visible())
  }

  lemma BackstageKeepsInv(w: World, after: Db)
    requires Inv(w) && DbOk(after) && Backstage(w.db, after)
    ensures Inv(w.(db := after)) && ConcealedCurrentDraw(after) == ConcealedCurrentDraw(w.db)
  {
    if Concealed(w.db).Some? {
      ConcealedIs(after, Concealed(w.db).value);
    } else if Concealed(after).Some? {
      ConcealedIs(w.db, Concealed(after).value);
    }
    forall a ensures Shown(after, a) <==> Shown(w.db, a) {
    }
  }

  lemma OneRowIsBackstage(db: Db, a: nat, row: A.Acquisition)
    requires a in db.acquisitions && SameScreen(db.acquisitions[a], row)
    ensures Backstage(db, db.(acquisitions := db.acquisitions[a := row]))
  {
  }

  lemma WriteKeepsScreen(row: A.Acquisition, write: A.Write)
    requires A.RowOk(row) && row.Visible() && A.Offered(row, write) && A.Apply(row, write).Written?
    ensures SameScreen(row, A.Apply(row, write).row)
  {
    H.ApplyAdvances(row, write);
  }

  lemma WriteChangesOneRow(db: Db, a: nat, write: A.Write)
    ensures var after := WriteAcquisition(db, a, write).0;
      || after == db
      || (a in db.acquisitions && A.Apply(db.acquisitions[a], write).Written? &&
          after == db.(acquisitions := db.acquisitions[a := A.Apply(db.acquisitions[a], write).row]))
  {
  }

  lemma WriteIsBackstage(db: Db, a: nat, write: A.Write)
    requires a in db.acquisitions ==>
      A.RowOk(db.acquisitions[a]) && db.acquisitions[a].Visible() && A.Offered(db.acquisitions[a], write)
    ensures Backstage(db, WriteAcquisition(db, a, write).0)
  {
    WriteChangesOneRow(db, a, write);
    if WriteAcquisition(db, a, write).0 == db {
      RestIsBackstage(db);
    } else {
      WriteKeepsScreen(db.acquisitions[a], write);
      OneRowIsBackstage(db, a, A.Apply(db.acquisitions[a], write).row);
    }
  }

  lemma RetargetKeepsScreen(row: A.Acquisition, title: string, year: Option<int>, tmdb: nat, at: int)
    ensures SameScreen(row, A.Retargeted(row, title, year, tmdb, at))
  {
  }

  lemma CorrectKeepsStatus(db: Db, movie: nat, c: Correction, at: int, id: nat)
    requires HasStatus(db, id, Current)
    ensures HasStatus(CorrectMovie(db, movie, c, at).0, id, Current)
  {
  }

  lemma CorrectKeepsRows(db: Db, movie: nat, c: Correction, at: int)
    ensures var after := CorrectMovie(db, movie, c, at).0;
      && after.acquisitions.Keys == db.acquisitions.Keys
      && forall a :: a in db.acquisitions ==> SameScreen(db.acquisitions[a], after.acquisitions[a])
  {
    var (after, answer) := CorrectMovie(db, movie, c, at);
    if answer == Ok(true) {
      forall a | a in db.acquisitions ensures SameScreen(db.acquisitions[a], after.acquisitions[a]) {
        RetargetKeepsScreen(db.acquisitions[a], c.title, UsableYear(c.year), c.tmdb.value, at);
      }
    }
  }

  lemma CorrectIsBackstage(db: Db, movie: nat, c: Correction, at: int)
    ensures Backstage(db, CorrectMovie(db, movie, c, at).0)
  {
    CorrectKeepsRows(db, movie, c, at);
    forall id | HasStatus(db, id, Current) ensures HasStatus(CorrectMovie(db, movie, c, at).0, id, Current) {
      CorrectKeepsStatus(db, movie, c, at, id);
    }
  }

  lemma SelectedIsBackstage(
    db: Db, chosen: Db, actor: nat, host: nat, movie: nat, created: bool, at: int, poolLocked: bool)
    requires KeysOk(db) && movie in chosen.movies
    requires chosen == db || (movie == db.nextMovie && chosen == WithMovie(db, chosen.movies[movie]))
    requires Selected(chosen, actor, host, movie, created, at, poolLocked).Ok?
    ensures Backstage(db, Selected(chosen, actor, host, movie, created, at, poolLocked).value)
  {
  }

  lemma StartWildcardIsBackstage(db: Db, actor: nat, choice: Choice, at: int, poolLocked: bool)
    requires KeysOk(db)
    ensures Backstage(db, StartWildcard(db, actor, choice, at, poolLocked).0)
  {
    if StartWildcard(db, actor, choice, at, poolLocked).1.Ok? {
      var (chosen, named, created) := Chosen(db, actor, choice);
      SelectedIsBackstage(db, chosen, actor, RevealedHost(db).value, named.value, created, at, poolLocked);
    }
  }

  lemma CancelKeepsScreen(row: A.Acquisition, actor: nat, at: int)
    ensures SameScreen(row, A.Canceled(row, actor, at))
  {
  }

  lemma CancelIsBackstage(db: Db, actor: nat, expected: nat, at: int)
    ensures Backstage(db, CancelWildcard(db, actor, expected, at).0)
  {
    if CancelWildcard(db, actor, expected, at).1.Ok? {
      var a := SelectionAcquisition(db, ActiveWildcard(db).value).value;
      CancelKeepsScreen(db.acquisitions[a], actor, at);
    }
  }

  lemma WatchWildcardIsBackstage(db: Db, expected: nat, at: int)
    ensures Backstage(db, WatchWildcard(db, expected, at).0)
  {
  }

  lemma RemovalIsBackstage(db: Db, movie: nat)
    requires !HasStatus(db, movie, Current) && DeleteMovie(db, movie).0.acquisitions == db.acquisitions
    ensures Backstage(db, DeleteMovie(db, movie).0)
  {
  }

  lemma RestIsBackstage(db: Db)
    ensures Backstage(db, db)
  {
  }

  lemma DeleteDeletesOrRests(db: Db, m: Memory, movie: nat, poolLocked: bool)
    ensures var after := Delete(db, m, movie, poolLocked).0;
      || after == db
      || (after == DeleteMovie(db, movie).0 && !Referenced(db, movie) &&
          (HasStatus(db, movie, Pool) || HasStatus(db, movie, Stash)))
  {
  }

  lemma DeleteKeeps(db: Db, m: Memory, movie: nat, poolLocked: bool)
    requires DbOk(db)
    ensures var after := Delete(db, m, movie, poolLocked).0; DbOk(after) && Backstage(db, after)
  {
    DeleteDeletesOrRests(db, m, movie, poolLocked);
    var after := Delete(db, m, movie, poolLocked).0;
    if after == db {
      RestIsBackstage(db);
    } else {
      DeleteCascadesNothing(db, movie);
      DeleteKeepsOk(db, movie);
      RemovalIsBackstage(db, movie);
    }
  }

  lemma StatusIsBackstage(db: Db, movie: nat, to: MovieStatus)
    requires movie in db.movies && db.movies[movie].status != Current
    ensures Backstage(db, WithStatus(db, movie, to))
  {
  }

  /** The limit the service asks for is the one the cap needs. */
  lemma PoolLimitIsOk(db: Db, m: Memory, movie: nat)
    requires HeldView(m) == ConcealedCurrentDraw(db)
    ensures PoolLimit(db, m, movie).Ok? ==> LimitOk(db, movie, PoolLimit(db, m, movie).value)
  {
    if Concealed(db).Some? {
      assert HeldView(m).Some?;
    }
  }

  lemma MoveToPoolPromotesOrRests(db: Db, m: Memory, movie: nat)
    ensures var after := MoveToPool(db, m, movie).0;
      || after == db
      || (PoolLimit(db, m, movie).Ok? && PromoteIfRoom(db, movie, PoolLimit(db, m, movie).value) == (after, true))
  {
  }

  lemma PromotionIsBackstage(db: Db, movie: nat, limit: int)
    requires PromoteIfRoom(db, movie, limit).1
    ensures Backstage(db, PromoteIfRoom(db, movie, limit).0)
  {
    StatusIsBackstage(db, movie, Pool);
  }

  lemma MoveToPoolKeeps(db: Db, m: Memory, movie: nat)
    requires DbOk(db) && HeldView(m) == ConcealedCurrentDraw(db)
    ensures var after := MoveToPool(db, m, movie).0; DbOk(after) && Backstage(db, after)
  {
    MoveToPoolPromotesOrRests(db, m, movie);
    if MoveToPool(db, m, movie).0 == db {
      RestIsBackstage(db);
    } else {
      PoolLimitIsOk(db, m, movie);
      PromotionKeepsOk(db, movie, PoolLimit(db, m, movie).value);
      PromotionIsBackstage(db, movie, PoolLimit(db, m, movie).value);
    }
  }

  lemma MoveToStashKeeps(db: Db, m: Memory, movie: nat)
    requires DbOk(db)
    ensures var after := MoveToStash(db, m, movie).0; DbOk(after) && Backstage(db, after)
  {
    DemotionKeepsOk(db, movie);
    if HasStatus(db, movie, Pool) {
      StatusIsBackstage(db, movie, Stash);
    }
  }

  lemma AddIsBackstage(db: Db, title: string, user: nat, tmdb: Option<nat>, imdb: Option<string>)
    requires KeysOk(db)
    ensures Backstage(db, AddToStash(db, title, user, tmdb, imdb).0)
  {
  }

  /** The pool commands. */
  lemma PoolCommandKeeps(db: Db, m: Memory, c: Command)
    requires DbOk(db) && HeldView(m) == ConcealedCurrentDraw(db)
    requires c.ToPool? || c.ToStash? || c.Remove?
    ensures var after := Execute(db, m, c).0; DbOk(after) && Backstage(db, after)
  {
    match c
    case ToPool(movie) => MoveToPoolKeeps(db, m, movie);
    case ToStash(movie) => MoveToStashKeeps(db, m, movie);
    case Remove(movie, poolLocked) => DeleteKeeps(db, m, movie, poolLocked);
  }

  lemma WildcardCommandKeeps(db: Db, m: Memory, c: Command)
    requires DbOk(db) && (c.SelectWildcard? || c.EndWildcard? || c.SeeWildcard?)
    ensures var after := Execute(db, m, c).0; DbOk(after) && Backstage(db, after)
  {
    match c
    case SelectWildcard(actor, choice, at, poolLocked) =>
      StartWildcardKeepsOk(db, actor, choice, at, poolLocked);
      StartWildcardIsBackstage(db, actor, choice, at, poolLocked);
    case EndWildcard(actor, expected, at) =>
      CancelKeepsOk(db, actor, expected, at);
      CancelIsBackstage(db, actor, expected, at);
    case SeeWildcard(expected, at) =>
      WatchWildcardKeepsOk(db, expected, at);
      WatchWildcardIsBackstage(db, expected, at);
  }

  lemma SkipIsBackstage(db: Db, holder: nat)
    ensures Backstage(db, SkipTurn(db, holder).0)
  {
    RestIsBackstage(db);
  }

  lemma CorrectCommandKeeps(db: Db, m: Memory, movie: nat, correction: Correction, at: int)
    requires DbOk(db)
    ensures var after := Correct(db, m, movie, correction, at).0; DbOk(after) && Backstage(db, after)
  {
    if Held(m).Some? {
      RestIsBackstage(db);
    } else {
      CorrectKeepsOk(db, movie, correction, at);
      CorrectIsBackstage(db, movie, correction, at);
    }
  }

  lemma OtherCommandKeeps(db: Db, m: Memory, c: Command)
    requires DbOk(db) && (c.Amend? || c.Add? || c.Skip?)
    ensures var after := Execute(db, m, c).0; DbOk(after) && Backstage(db, after)
  {
    match c
    case Amend(movie, correction, at) => CorrectCommandKeeps(db, m, movie, correction, at);
    case Add(title, user, tmdb, imdb) =>
      AddKeepsOk(db, title, user, tmdb, imdb);
      AddIsBackstage(db, title, user, tmdb, imdb);
    case Skip(holder) =>
      SkipKeepsOk(db, holder);
      SkipIsBackstage(db, holder);
  }

  lemma ExecuteKeeps(db: Db, m: Memory, c: Command)
    requires DbOk(db) && HeldView(m) == ConcealedCurrentDraw(db)
    ensures var after := Execute(db, m, c).0; DbOk(after) && Backstage(db, after)
  {
    if c.ToPool? || c.ToStash? || c.Remove? {
      PoolCommandKeeps(db, m, c);
    } else if c.SelectWildcard? || c.EndWildcard? || c.SeeWildcard? {
      WildcardCommandKeeps(db, m, c);
    } else {
      OtherCommandKeeps(db, m, c);
    }
  }

  // ---- Reveal ------------------------------------------------------------------------------

  /** The tables' row of the held draw. */
  lemma HeldRow(db: Db, m: Memory) returns (c: nat)
    requires DbOk(db) && HeldView(m) == ConcealedCurrentDraw(db) && Held(m).Some?
    ensures c in db.acquisitions && db.acquisitions[c].movieId == m.active.value.movie
    ensures !db.acquisitions[c].Visible() && db.acquisitions[c].source == A.Draw
    ensures OpenAcquisition(db, m.active.value.movie) == Some(c)
    ensures HasStatus(db, m.active.value.movie, Current) && CurrentMovie(db) == Some(m.active.value.movie)
  {
    assert HeldView(m).Some?;
    c := Concealed(db).value;
    ConcealedIs(db, c);
    assert AcquisitionOk(db, db.acquisitions[c]);
  }

  /** Revealing the current movie's open Acquisition shows it and conceals nothing. */
  lemma RevealShows(db: Db, movie: nat, c: nat, at: int)
    requires DbOk(db) && HasStatus(db, movie, Current) && OpenAcquisition(db, movie) == Some(c)
    requires db.acquisitions[c].source == A.Draw
    ensures var after := RevealOpen(db, movie, at);
      && DbOk(after) && ConcealedCurrentDraw(after) == None
      && after.movies == db.movies
      && forall a :: Shown(after, a) <==> Shown(db, a) || a == c
  {
    RevealKeepsOk(db, movie, at);
    RevealLeavesNoneConcealed(db, movie, at);
  }

  lemma TurnsGrow(before: Db, after: Db, turns: seq<nat>, c: nat)
    requires TurnsOk(before, turns) && !Shown(before, c)
    requires forall a :: Shown(after, a) <==> Shown(before, a) || a == c
    ensures TurnsOk(after, turns + [c])
  {
    forall k | 0 <= k < |turns| + 1 ensures (turns + [c])[k] !in (turns + [c])[..k] {
      assert (turns + [c])[..k] == turns[..k];
    }
    forall a ensures Shown(after, a) <==> a in turns + [c] {
      assert a in turns + [c] <==> a in turns || a == c;
    }
  }

  lemma TurnsRest(before: Db, after: Db, turns: seq<nat>)
    requires TurnsOk(before, turns) && forall a :: Shown(after, a) <==> Shown(before, a)
    ensures TurnsOk(after, turns)
  {
  }

  lemma CancelKeepsTimers(m: Memory)
    requires TimersOk(m) && Held(m).None?
    ensures TimersOk(CancelAutoReveal(m))
  {
  }

  lemma PublishedGrows(m: Memory, shown: ActiveDraw)
    requires PublishedOk(m) && Held(m).Some? && m.active.value.generation == m.generation == shown.generation
    ensures forall k, l :: 0 <= k < l < |m.published| + 1 ==>
      (m.published + [shown])[k].generation < (m.published + [shown])[l].generation
  {
  }

  /** The memory after a Reveal: nothing is held, no timer is armed. */
  lemma RevealedMemoryOk(m: Memory, next: Option<ActiveDraw>, shown: ActiveDraw)
    requires TimersOk(m) && PublishedOk(m) && Held(m).Some?
    requires m.active.value.generation == m.generation && shown == m.active.value.(revealed := true)
    requires next == None || next == Some(shown)
    ensures var n := CancelAutoReveal(m.(active := next, published := m.published + [shown]));
      TimersOk(n) && PublishedOk(n) && Held(n) == None && n.generation == m.generation
  {
    PublishedGrows(m, shown);
  }

  lemma RetryKeepsTimers(m: Memory, t: nat)
    requires TimersOk(m) && t in m.timers && m.timers[t].generation == m.generation && Held(m).Some? && !m.closed
    requires m.active.value.generation == m.generation
    ensures TimersOk(RetryAutoReveal(m.(timers := m.timers - {t}), m.generation))
  {
  }

  lemma FiredKeepsTimers(m: Memory, t: nat)
    requires TimersOk(m) && t in m.timers
    requires Held(m).None? || m.closed || m.timers[t].generation != m.generation
    ensures TimersOk(m.(timers := m.timers - {t}))
  {
  }

  function ShownDraw(m: Memory): ActiveDraw
    requires Held(m).Some?
  {
    m.active.value.(revealed := true)
  }

  /** The tables after the held winner was revealed. */
  lemma RevealTables(db: Db, m: Memory, at: int) returns (c: nat)
    requires DbOk(db) && HeldView(m) == ConcealedCurrentDraw(db) && Held(m).Some?
    ensures var movie := m.active.value.movie;
      var (after, answer) := RevealDrawAndAdvance(db, movie, at);
      && answer.Ok? && DbOk(after) && ConcealedCurrentDraw(after) == None && HasStatus(after, movie, Current)
      && OpenAcquisition(db, movie) == Some(c) && !Shown(db, c)
      && forall a :: Shown(after, a) <==> Shown(db, a) || a == c
  {
    var movie := m.active.value.movie;
    c := HeldRow(db, m);
    RevealShows(db, movie, c, at);
    var revealed := RevealOpen(db, movie, at);
    var after := RevealDrawAndAdvance(db, movie, at).0;
    TurnKeepsOk(revealed, revealed.users, after.nextUp);
    SameTables(revealed, after);
    forall a ensures Shown(after, a) <==> Shown(db, a) || a == c {
      assert Shown(after, a) <==> Shown(revealed, a);
    }
  }

  /** A Reveal, committed or not, whatever has become of the timers. */
  lemma ShownKeeps(w: World, m: Memory, n: Memory, at: int, survives: bool)
    requires Inv(w) && w.server == Some(m) && Held(m).Some?
    requires n.active == Some(ShownDraw(m)) && n.published == m.published + [ShownDraw(m)]
    requires n.generation == m.generation && TimersOk(n) && PublishedOk(n)
    ensures Inv(Committed(w, RevealDrawAndAdvance(w.db, m.active.value.movie, at).0, m, n, survives))
  {
    var c := RevealTables(w.db, m, at);
    assert Turned(w.db, m, n) == [c];
    TurnsGrow(w.db, RevealDrawAndAdvance(w.db, m.active.value.movie, at).0, w.turns, c);
  }

  /** A Reveal by hand. */
  lemma RevealKeeps(w: World, m: Memory, at: int, survives: bool)
    requires Inv(w) && w.server == Some(m) && Held(m).Some?
    ensures var (after, answer) := RevealDrawAndAdvance(w.db, m.active.value.movie, at);
      var n := CancelAutoReveal(m.(active := Some(ShownDraw(m)), published := m.published + [ShownDraw(m)]));
      answer.Ok? && Inv(Committed(w, after, m, n, survives))
  {
    var c := RevealTables(w.db, m, at);
    RevealedMemoryOk(m, Some(ShownDraw(m)), ShownDraw(m));
    ShownKeeps(w, m, CancelAutoReveal(m.(active := Some(ShownDraw(m)), published := m.published + [ShownDraw(m)])),
               at, survives);
  }

  /** The tables stay, the memory changes its timers only. */
  lemma TimerStepKeeps(w: World, m: Memory, n: Memory, survives: bool)
    requires Inv(w) && w.server == Some(m)
    requires TimersOk(n) && n.active == m.active && n.generation == m.generation && n.published == m.published
    ensures Inv(Committed(w, w.db, m, n, survives))
  {
    assert Turned(w.db, m, n) == [] && w.turns + [] == w.turns;
    assert PublishedOk(n);
  }

  lemma FireKeeps(w: World, m: Memory, t: nat, at: int, fails: bool, survives: bool)
    requires Inv(w) && w.server == Some(m) && t in m.timers
    ensures var (after, n) := FireTimer(w.db, m, t, at, fails); Inv(Committed(w, after, m, n, survives))
  {
    var fired := m.(timers := m.timers - {t});
    var generation := m.timers[t].generation;
    var (after, n) := FireTimer(w.db, m, t, at, fails);
    if Held(m).None? || m.generation != generation || m.closed {
      FiredKeepsTimers(m, t);
      TimerStepKeeps(w, m, fired, survives);
    } else if fails {
      RetryKeepsTimers(m, t);
      TimerStepKeeps(w, m, RetryAutoReveal(fired, generation), survives);
    } else {
      RevealKeeps(w, m, at, survives);
      FiredRevealKeeps(w, m, t, at, survives);
    }
  }

  /** A Reveal whose own timer is already spent. */
  lemma FiredRevealKeeps(w: World, m: Memory, t: nat, at: int, survives: bool)
    requires Inv(w) && w.server == Some(m) && t in m.timers && Held(m).Some?
    requires m.timers[t].generation == m.generation && !m.closed
    ensures var (after, n) := FireTimer(w.db, m, t, at, false); Inv(Committed(w, after, m, n, survives))
  {
    var fired := m.(timers := m.timers - {t});
    var whole := CancelAutoReveal(m.(active := Some(ShownDraw(m)), published := m.published + [ShownDraw(m)]));
    var n := CancelAutoReveal(fired.(active := Some(ShownDraw(m)), published := m.published + [ShownDraw(m)]));
    RevealedMemoryOk(m, Some(ShownDraw(m)), ShownDraw(m));
    FiredIsWhole(m, t, whole, n);
    FireReveals(w.db, m, t, at);
    ShownKeeps(w, m, n, at, survives);
  }

  lemma FireReveals(db: Db, m: Memory, t: nat, at: int)
    requires DbOk(db) && HeldView(m) == ConcealedCurrentDraw(db) && Held(m).Some? && t in m.timers
    requires m.timers[t].generation == m.generation && !m.closed
    ensures var fired := m.(timers := m.timers - {t});
      FireTimer(db, m, t, at, false) ==
        (RevealDrawAndAdvance(db, m.active.value.movie, at).0,
         CancelAutoReveal(fired.(active := Some(ShownDraw(m)), published := m.published + [ShownDraw(m)])))
  {
    var c := RevealTables(db, m, at);
  }

  /** A spent timer leaves the memory a Reveal by hand leaves, but for the timer. */
  lemma FiredIsWhole(m: Memory, t: nat, whole: Memory, n: Memory)
    requires n.published == whole.published && n.active == whole.active && n.generation == whole.generation
    requires n.closed == whole.closed && n.retries == whole.retries && n.armed == whole.armed && n.stop == whole.stop
    requires !n.armed && n.nextTimer == whole.nextTimer && n.timers == whole.timers - {t}
    requires TimersOk(whole) && PublishedOk(whole) && Held(whole) == None
    ensures TimersOk(n) && PublishedOk(n)
  {
  }

  lemma ConfirmKeeps(w: World, m: Memory, at: int, fails: bool, survives: bool)
    requires Inv(w) && w.server == Some(m)
    ensures var (after, n, _) := RevealActive(w.db, m, None, at, fails); Inv(Committed(w, after, m, n, survives))
  {
    if Held(m).None? || fails {
      TimerStepKeeps(w, m, m, survives);
    } else {
      RevealKeeps(w, m, at, survives);
    }
  }

  // ---- Watch -------------------------------------------------------------------------------

  lemma RevealAgainShowsNothing(db: Db, movie: nat, at: int)
    requires DbOk(db) && ConcealedCurrentDraw(db) == None && HasStatus(db, movie, Current)
    ensures var after := RevealOpen(db, movie, at);
      && DbOk(after) && ConcealedCurrentDraw(after) == None && after.movies == db.movies
      && forall a :: Shown(after, a) <==> Shown(db, a)
  {
    RevealKeepsOk(db, movie, at);
    RevealLeavesNoneConcealed(db, movie, at);
    var a := OpenAcquisition(db, movie);
    if a.Some? && !db.acquisitions[a.value].Visible() {
      ConcealedIs(db, a.value);
    }
  }

  lemma WatchedConceals(db: Db, movie: nat, at: int)
    requires DbOk(db) && HasStatus(db, movie, Current) && DbOk(Watching(db, movie, at)) && ConcealedCurrentDraw(db) == None
    ensures ConcealedCurrentDraw(Watching(db, movie, at)) == None
    ensures forall a :: Shown(Watching(db, movie, at), a) <==> Shown(db, a)
  {
    var after := Watching(db, movie, at);
    if Concealed(after).Some? {
      ConcealedIs(db, Concealed(after).value);
    }
  }

  /** The tables after a watch: nothing is concealed, and a held winner has been shown. */
  lemma WatchShows(db: Db, m: Memory, at: int)
    requires DbOk(db) && HeldView(m) == ConcealedCurrentDraw(db) && WatchCurrent(db, at, Held(m).Some?).1.Ok?
    ensures var after := WatchCurrent(db, at, Held(m).Some?).0;
      && DbOk(after) && ConcealedCurrentDraw(after) == None
      && (Held(m).None? ==> forall a :: Shown(after, a) <==> Shown(db, a))
      && (Held(m).Some? ==>
            var c := OpenAcquisition(db, m.active.value.movie);
            c.Some? && !Shown(db, c.value) && forall a :: Shown(after, a) <==> Shown(db, a) || a == c.value)
  {
    var after := WatchCurrent(db, at, Held(m).Some?).0;
    var movie := CurrentMovie(db).value;
    WatchKeepsOk(db, at, Held(m).Some?);
    if Held(m).Some? {
      var c := HeldRow(db, m);
      RevealShows(db, movie, c, at);
    } else {
      RevealAgainShowsNothing(db, movie, at);
    }
    var revealed := RevealOpen(db, movie, at);
    OpenDependsOnRows(db, Watching(db, movie, at), movie);
    RevealLeavesNoneConcealed(db, movie, at);
    WatchingKeepsOk(revealed, movie, at);
    WatchedConceals(revealed, movie, at);
    assert RevealOpen(Watching(db, movie, at), movie, at) == Watching(revealed, movie, at);
    SameTables(Watching(revealed, movie, at), after);
    forall a ensures Shown(after, a) <==> Shown(revealed, a) {
      assert Shown(after, a) <==> Shown(Watching(revealed, movie, at), a);
    }
  }

  /** The memory after a watch: no draw, and one more notification if the winner was unseen. */
  function WatchedMemory(m: Memory): Memory {
    var published := if Held(m).Some? then m.published + [m.active.value.(revealed := true)] else m.published;
    CancelAutoReveal(m.(active := None, published := published))
  }

  /** The log of turns after a watch. */
  lemma WatchedTurns(w: World, m: Memory, at: int)
    requires Inv(w) && w.server == Some(m) && WatchCurrent(w.db, at, Held(m).Some?).1.Ok?
    ensures TurnsOk(WatchCurrent(w.db, at, Held(m).Some?).0, w.turns + Turned(w.db, m, WatchedMemory(m)))
  {
    var after := WatchCurrent(w.db, at, Held(m).Some?).0;
    WatchShows(w.db, m, at);
    if Held(m).Some? {
      var c := OpenAcquisition(w.db, m.active.value.movie).value;
      TurnsGrow(w.db, after, w.turns, c);
      assert Turned(w.db, m, WatchedMemory(m)) == [c];
    } else {
      TurnsRest(w.db, after, w.turns);
      assert Turned(w.db, m, WatchedMemory(m)) == [] && w.turns + [] == w.turns;
    }
  }

  lemma WatchedKeeps(w: World, m: Memory, at: int, survives: bool)
    requires Inv(w) && w.server == Some(m) && WatchCurrent(w.db, at, Held(m).Some?).1.Ok?
    ensures Inv(Committed(w, WatchCurrent(w.db, at, Held(m).Some?).0, m, WatchedMemory(m), survives))
  {
    WatchShows(w.db, m, at);
    WatchedMemoryOk(m);
    WatchedTurns(w, m, at);
  }

  lemma WatchKeeps(w: World, m: Memory, at: int, fails: bool, survives: bool)
    requires Inv(w) && w.server == Some(m)
    ensures var (after, n, _) := MarkWatched(w.db, m, at, fails); Inv(Committed(w, after, m, n, survives))
  {
    if fails || WatchCurrent(w.db, at, Held(m).Some?).1.Err? {
      TimerStepKeeps(w, m, m, survives);
    } else {
      WatchedKeeps(w, m, at, survives);
    }
  }

  lemma WatchedMemoryOk(m: Memory)
    requires TimersOk(m) && PublishedOk(m) && (m.active.Some? ==> m.active.value.generation == m.generation)
    ensures TimersOk(WatchedMemory(m)) && PublishedOk(WatchedMemory(m))
  {
    if Held(m).Some? {
      RevealedMemoryOk(m, None, m.active.value.(revealed := true));
    } else {
      assert TimersOk(m.(active := None));
      CancelKeepsTimers(m.(active := None));
    }
  }

  // ---- Draw --------------------------------------------------------------------------------

  lemma DrawConceals(db: Db, movie: nat, at: int, revealAt: int, clientId: string)
    requires DbOk(db) && StartDraw(db, movie, at, revealAt, clientId).1.Ok?
    ensures var after := StartDraw(db, movie, at, revealAt, clientId).0;
      && DbOk(after) && HasStatus(after, movie, Current)
      && ConcealedCurrentDraw(after) == Some(Resumed(movie, at, revealAt, clientId))
      && forall a :: Shown(after, a) <==> Shown(db, a)
  {
    StartDrawKeepsOk(db, movie, at, revealAt, clientId);
    var after := StartDraw(db, movie, at, revealAt, clientId).0;
    ConcealedIs(after, db.nextAcquisition);
  }

  lemma NothingActiveBeforeDraw(db: Db, m: Memory)
    requires KeysOk(db) && MemoryOk(db, m) && CurrentMovie(db) == None
    ensures m.active == None && !m.armed && m.stop == None
  {
  }

  lemma DrawnMemoryOk(m: Memory, draw: ActiveDraw)
    requires TimersOk(m) && PublishedOk(m) && m.active == None && draw.generation == m.generation + 1
    ensures var n := m.(generation := m.generation + 1, active := Some(draw)); TimersOk(n) && PublishedOk(n)
  {
  }

  /** What a draw comes to: nothing, or a started draw held under the next generation. */
  ghost predicate DrawsOrRests(db: Db, m: Memory, after: Db, n: Memory) {
    || (after == db && n == m)
    || (n.active.Some? && n.generation == m.generation + 1 && CurrentMovie(db) == None &&
        var d := n.active.value;
        && d == ActiveDraw(d.movie, n.generation, d.drawnAt, d.revealAt, d.clientId, false)
        && StartDraw(db, d.movie, d.drawnAt, d.revealAt, d.clientId).1.Ok?
        && after == StartDraw(db, d.movie, d.drawnAt, d.revealAt, d.clientId).0
        && n == m.(generation := n.generation, active := n.active))
  }

  lemma DrawAnswers(db: Db, m: Memory, pick: Option<nat>, clientId: string, at: int, delay: int, fails: bool)
    ensures var (after, n, answer) := Draw(db, m, pick, clientId, at, delay, fails); DrawsOrRests(db, m, after, n)
  {
  }

  lemma DrawnTurns(w: World, m: Memory, n: Memory, after: Db)
    requires Inv(w) && n.published == m.published && forall a :: Shown(after, a) <==> Shown(w.db, a)
    ensures TurnsOk(after, w.turns + Turned(w.db, m, n))
  {
    TurnsRest(w.db, after, w.turns);
    assert Turned(w.db, m, n) == [] && w.turns + [] == w.turns;
  }

  lemma DrawnKeeps(w: World, m: Memory, movie: nat, clientId: string, at: int, revealAt: int, survives: bool)
    requires Inv(w) && w.server == Some(m) && CurrentMovie(w.db) == None
    requires StartDraw(w.db, movie, at, revealAt, clientId).1.Ok?
    ensures var n := m.(generation := m.generation + 1,
                        active := Some(ActiveDraw(movie, m.generation + 1, at, revealAt, clientId, false)));
      Inv(Committed(w, StartDraw(w.db, movie, at, revealAt, clientId).0, m, n, survives))
  {
    var draw := ActiveDraw(movie, m.generation + 1, at, revealAt, clientId, false);
    var n := m.(generation := m.generation + 1, active := Some(draw));
    DrawConceals(w.db, movie, at, revealAt, clientId);
    NothingActiveBeforeDraw(w.db, m);
    DrawnMemoryOk(m, draw);
    DrawnTurns(w, m, n, StartDraw(w.db, movie, at, revealAt, clientId).0);
  }

  lemma DrawKeeps(w: World, m: Memory, after: Db, n: Memory, survives: bool)
    requires Inv(w) && w.server == Some(m) && DrawsOrRests(w.db, m, after, n)
    ensures Inv(Committed(w, after, m, n, survives))
  {
    if after == w.db && n == m {
      TimerStepKeeps(w, m, m, survives);
    } else {
      var d := n.active.value;
      DrawnKeeps(w, m, d.movie, d.clientId, d.drawnAt, d.revealAt, survives);
    }
  }

  // ---- Arming, shutdown, restart ---------------------------------------------------------------

  lemma StartAutoRevealKeeps(w: World, m: Memory, movie: nat, generation: nat)
    requires Inv(w) && w.server == Some(m)
    ensures Inv(w.(server := Some(StartAutoReveal(m, movie, generation))))
  {
    var n := StartAutoReveal(m, movie, generation);
    assert TimersOk(n);
    assert PublishedOk(n);
  }

  lemma CloseKeeps(w: World, m: Memory)
    requires Inv(w) && w.server == Some(m)
    ensures Inv(w.(server := Some(CloseService(m))))
  {
    assert PublishedOk(CloseService(m));
  }

  lemma RestartKeeps(w: World)
    requires Inv(w) && w.server == None
    ensures Inv(w.(server := Some(Resume(w.db))))
  {
    if Concealed(w.db).Some? {
      ConcealedIs(w.db, Concealed(w.db).value);
    }
  }

  // ---- Every step ------------------------------------------------------------------------------

  lemma AdministerKeeps(w: World, a: nat, write: A.Write)
    requires Inv(w) && Legal(w, Administer(a, write))
    ensures Inv(w.(db := WriteAcquisition(w.db, a, write).0))
  {
    WriteKeepsOk(w.db, a, write);
    if a in w.db.acquisitions {
      assert AcquisitionOk(w.db, w.db.acquisitions[a]);
    }
    WriteIsBackstage(w.db, a, write);
    BackstageKeepsInv(w, WriteAcquisition(w.db, a, write).0);
  }

  lemma MembersKeep(w: World, users: Users, nextUp: Option<nat>)
    requires Inv(w)
    ensures Inv(w.(db := w.db.(users := users, nextUp := nextUp)))
  {
    TurnKeepsOk(w.db, users, nextUp);
    BackstageKeepsInv(w, w.db.(users := users, nextUp := nextUp));
  }

  lemma ServeKeeps(w: World, m: Memory, command: Command, fails: bool, survives: bool)
    requires Inv(w) && w.server == Some(m)
    ensures Inv(Committed(w, if fails then w.db else Execute(w.db, m, command).0, m, m, survives))
  {
    assert Turned(w.db, m, m) == [] && w.turns + [] == w.turns;
    if !fails {
      ExecuteKeeps(w.db, m, command);
      BackstageKeepsInv(w, Execute(w.db, m, command).0);
    }
  }

  lemma NextKeepsInv(w: World, e: Event)
    requires Inv(w) && Legal(w, e)
    ensures Inv(Next(w, e))
  {
    match e
    case Administer(a, write) => AdministerKeeps(w, a, write);
    case Members(users, nextUp) => MembersKeep(w, users, nextUp);
    case Restart =>
      if w.server.None? {
        RestartKeeps(w);
      }
    case _ =>
      if w.server.Some? {
        RunningKeepsInv(w, w.server.value, e);
      }
  }

  lemma RunningKeepsInv(w: World, m: Memory, e: Event)
    requires Inv(w) && w.server == Some(m) && !e.Administer? && !e.Members? && !e.Restart?
    ensures Inv(Next(w, e))
  {
    match e
    case DrawMovie(_, _, _, _, _, _) => DrawMovieKeepsInv(w, m, e);
    case AutoReveal(movie, generation) => StartAutoRevealKeeps(w, m, movie, generation);
    case Serve(command, fails, survives) => ServeKeeps(w, m, command, fails, survives);
    case Shutdown => CloseKeeps(w, m);
    case Crash =>
    case _ => RevealingKeepsInv(w, m, e);
  }

  lemma DrawMovieKeepsInv(w: World, m: Memory, e: Event)
    requires Inv(w) && w.server == Some(m) && e.DrawMovie?
    ensures Inv(Next(w, e))
  {
    var (after, n, _) := Draw(w.db, m, e.pick, e.clientId, e.at, e.delay, e.fails);
    DrawAnswers(w.db, m, e.pick, e.clientId, e.at, e.delay, e.fails);
    DrawKeeps(w, m, after, n, e.survives);
  }

  lemma RevealingKeepsInv(w: World, m: Memory, e: Event)
    requires Inv(w) && w.server == Some(m) && (e.Fire? || e.Confirm? || e.WatchDraw?)
    ensures Inv(Next(w, e))
  {
    match e
    case Fire(t, at, fails, survives) =>
      if t in m.timers {
        FireKeeps(w, m, t, at, fails, survives);
      }
    case Confirm(at, fails, survives) => ConfirmKeeps(w, m, at, fails, survives);
    case WatchDraw(at, fails, survives) => WatchKeeps(w, m, at, fails, survives);
  }
}
