/** The movie tables and the movie service as objects whose methods change their fields step
    by step, each proved to do what its transaction or command does on values
    (internal/repository/sqlite.go, internal/repository/wildcard.go and
    internal/movie/service.go). */
module MovieService {
  import opened Domain
  import opened Turn
  import A = Acquisitions
  import S = MovieStore
  import D = DrawService
  import opened Listings

  class Tables {
    var movies: map<nat, S.Movie>
    var nextMovie: nat
    var acquisitions: map<nat, A.Acquisition>
    var nextAcquisition: nat
    var wildcards: map<nat, S.Selection>
    var nextWildcard: nat
    var users: Users
    var nextUp: Option<nat>

    constructor ()
      ensures Rows() == S.EMPTY
    {
      movies, nextMovie, acquisitions, nextAcquisition := map[], 1, map[], 1;
      wildcards, nextWildcard, users, nextUp := map[], 1, map[], None;
    }

    function Rows(): S.Db
      reads this
    {
      S.Db(movies, nextMovie, acquisitions, nextAcquisition, wildcards, nextWildcard, users, nextUp)
    }

    /** insertPendingAcquisitionTx on a movie that has no open Acquisition. */
    method InsertPending(
      movie: nat, source: A.Source, wildcard: Option<nat>, drawnAt: int, revealAt: int, clientId: string, visible: bool
    )
      requires movie in movies
      modifies this`acquisitions, this`nextAcquisition
      ensures Rows() == S.WithAcquisition(
        old(Rows()), S.Snapshot(old(Rows()), movie, source, wildcard, drawnAt, revealAt, clientId, visible))
    {
      var m := movies[movie];
      acquisitions := acquisitions[nextAcquisition := A.Inserted(
        movie, m.title, m.year, m.tmdb, m.imdb, source, wildcard, drawnAt, revealAt, clientId, visible)];
      nextAcquisition := nextAcquisition + 1;
    }

    /** StartDraw. */
    method StartDraw(movie: nat, drawnAt: int, revealAt: int, clientId: string) returns (r: Result<nat>)
      modifies this
      ensures (Rows(), r) == S.StartDraw(old(Rows()), movie, drawnAt, revealAt, clientId)
    {
      if movie !in movies {
        return Err(NotFound);
      }
      if movies[movie].status != S.Pool {
        return Err(InvalidState);
      }
      if S.CurrentMovie(Rows()).Some? {
        return Err(CurrentDrawExists);
      }
      if S.OpenAcquisition(Rows(), movie).Some? || A.Blank(movies[movie].title) {
        return Err(NotFound);
      }
      movies := movies[movie := movies[movie].(status := S.Current)];
      InsertPending(movie, A.Draw, None, drawnAt, revealAt, clientId, false);
      return Ok(nextAcquisition - 1);
    }

    /** revealAcquisitionTx. */
    method RevealOpen(movie: nat, at: int) returns (found: bool)
      modifies this`acquisitions
      ensures Rows() == S.RevealOpen(old(Rows()), movie, at)
      ensures found <==> S.OpenAcquisition(old(Rows()), movie).Some?
    {
      var open := S.OpenAcquisition(Rows(), movie);
      if open.None? {
        return false;
      }
      acquisitions := acquisitions[open.value := A.Revealed(acquisitions[open.value], at)];
      return true;
    }

    /** advanceNextUpTx. */
    method AdvanceNextUp() returns (next: Option<nat>)
      modifies this`nextUp
      ensures (Rows(), next) == S.AdvanceNextUp(old(Rows()))
    {
      var roster := Roster(users);
      if |roster| < 2 {
        return None;
      }
      nextUp := Rotated(roster, nextUp);
      return nextUp;
    }

    /** RevealDrawAndAdvanceNextUp. */
    method RevealDrawAndAdvance(movie: nat, at: int) returns (r: Result<Option<nat>>)
      modifies this`acquisitions, this`nextUp
      ensures (Rows(), r) == S.RevealDrawAndAdvance(old(Rows()), movie, at)
    {
      if !S.HasStatus(Rows(), movie, S.Current) {
        return Err(NotFound);
      }
      var found := RevealOpen(movie, at);
      if !found {
        return Err(NotFound);
      }
      var next := AdvanceNextUp();
      return Ok(next);
    }

    /** WatchCurrentDraw. */
    method WatchCurrent(at: int, revealing: bool) returns (r: Result<(nat, Option<nat>)>)
      modifies this`movies, this`acquisitions, this`nextUp
      ensures (Rows(), r) == S.WatchCurrent(old(Rows()), at, revealing)
    {
      if S.ActiveWildcard(Rows()).Some? {
        return Err(ActiveWildcardExists);
      }
      var current := S.CurrentMovie(Rows());
      if current.None? {
        return Err(NoCurrentDraw);
      }
      var movie := current.value;
      movies := movies[movie := movies[movie].(status := S.Watched, watchedAt := Some(at))];
      var _ := RevealOpen(movie, at);
      var next: Option<nat> := None;
      if revealing {
        next := AdvanceNextUp();
      }
      return Ok((movie, next));
    }

    /** PromoteToPoolIfRoom. */
    method PromoteIfRoom(movie: nat, limit: int) returns (moved: bool)
      modifies this`movies
      ensures (Rows(), moved) == S.PromoteIfRoom(old(Rows()), movie, limit)
    {
      if movie !in movies || movies[movie].status != S.Stash {
        return false;
      }
      var taken: int := |S.PooledBy(Rows(), movies[movie].addedBy)|;
      if S.Reserves(Rows(), movies[movie].addedBy) {
        taken := taken + 1;
      }
      if taken >= limit {
        return false;
      }
      movies := movies[movie := movies[movie].(status := S.Pool)];
      return true;
    }

    /** UpdateStatusIf. */
    method MoveIf(movie: nat, to: S.MovieStatus, from: S.MovieStatus) returns (moved: bool)
      modifies this`movies
      ensures (Rows(), moved) == S.MoveIf(old(Rows()), movie, to, from)
    {
      moved := movie in movies && movies[movie].status == from;
      if moved {
        movies := movies[movie := movies[movie].(status := to)];
      }
    }

    /** Delete. */
    method DeleteMovie(movie: nat) returns (r: Result<nat>)
      modifies this`movies, this`acquisitions
      ensures (Rows(), r) == S.DeleteMovie(old(Rows()), movie)
    {
      if movie !in movies {
        return Err(NotFound);
      }
      if S.Referenced(Rows(), movie) {
        return Err(StoreFailed);
      }
      movies := movies - {movie};
      acquisitions := map a | a in acquisitions && acquisitions[a].movieId != movie :: acquisitions[a];
      return Ok(movie);
    }

    /** CorrectMovie. */
    method CorrectMovie(movie: nat, c: S.Correction, at: int) returns (r: Result<bool>)
      modifies this`movies, this`acquisitions
      ensures (Rows(), r) == S.CorrectMovie(old(Rows()), movie, c, at)
    {
      if c.tmdb.Some? && (c.tmdb.value <= 0 || A.Blank(c.title)) {
        return Err(InvalidInput);
      }
      if movie !in movies {
        return Err(NotFound);
      }
      if c.watchedAt.Some? && movies[movie].status != S.Watched {
        return Err(InvalidInput);
      }
      var identityChanged := c.tmdb.Some? && movies[movie].tmdb != Some(c.tmdb.value);
      if identityChanged {
        if S.Blocks(Rows(), movie) {
          return Err(AcquisitionLocked);
        }
        if S.TmdbTaken(Rows(), c.tmdb.value, Some(movie)) {
          return Err(Conflict);
        }
        var was := Rows();
        acquisitions := map a | a in was.acquisitions ::
          if S.OpenFor(was, movie, a)
          then A.Retargeted(was.acquisitions[a], c.title, S.UsableYear(c.year), c.tmdb.value, at)
          else was.acquisitions[a];
        movies := movies[movie := movies[movie].(title := c.title, tmdb := Some(c.tmdb.value), imdb := None, year := None)];
      }
      if c.watchedAt.Some? {
        movies := movies[movie := movies[movie].(watchedAt := c.watchedAt)];
      }
      return Ok(identityChanged);
    }

    /** CancelWildcard. */
    method CancelWildcard(actor: nat, expected: nat, at: int) returns (r: Result<nat>)
      modifies this`movies, this`wildcards, this`acquisitions
      ensures (Rows(), r) == S.CancelWildcard(old(Rows()), actor, expected, at)
    {
      var active := S.ActiveWildcard(Rows());
      if active.None? {
        return Err(NoActiveWildcard);
      }
      var w := active.value;
      if expected == 0 || w != expected {
        return Err(WildcardChanged);
      }
      var a := S.SelectionAcquisition(Rows(), w);
      if a.None? {
        return Err(NotFound);
      }
      var s := wildcards[w];
      var _ := MoveIf(s.movie, s.source, S.Wildcard);
      wildcards := wildcards[w := s.(status := S.Canceled, canceledAt := Some(at))];
      acquisitions := acquisitions[a.value := A.Canceled(acquisitions[a.value], actor, at)];
      return Ok(w);
    }

    /** WatchWildcard. */
    method WatchWildcard(expected: nat, at: int) returns (r: Result<nat>)
      modifies this`movies, this`wildcards
      ensures (Rows(), r) == S.WatchWildcard(old(Rows()), expected, at)
    {
      var active := S.ActiveWildcard(Rows());
      if active.None? {
        return Err(NoActiveWildcard);
      }
      var w := active.value;
      if expected == 0 || w != expected {
        return Err(WildcardChanged);
      }
      var s := wildcards[w];
      if s.movie !in movies || movies[s.movie].status != S.Wildcard {
        return Err(InvalidState);
      }
      movies := movies[s.movie := movies[s.movie].(status := S.Watched, watchedAt := Some(at))];
      wildcards := wildcards[w := s.(status := S.Seen, watchedAt := Some(at))];
      return Ok(w);
    }

    /** The selection of a known movie: it leaves pool or stash, and its Acquisition is visible
        at once. */
    method Select(actor: nat, host: nat, movie: nat, created: bool, at: int, poolLocked: bool) returns (error: Option<Error>)
      requires movie in movies
      modifies this
      ensures var selected := S.Selected(old(Rows()), actor, host, movie, created, at, poolLocked);
        if selected.Err? then error == Some(selected.error) && Rows() == old(Rows())
        else error == None && Rows() == selected.value
    {
      var status := movies[movie].status;
      if movie == host || (status != S.Pool && status != S.Stash && status != S.Wildcard) {
        return Some(InvalidState);
      }
      if !created && status == S.Pool && poolLocked {
        return Some(PoolLocked);
      }
      if !created && status == S.Wildcard {
        return Some(InvalidState);
      }
      if S.OpenAcquisition(Rows(), movie).Some? || A.Blank(movies[movie].title) {
        return Some(StoreFailed);
      }
      movies := movies[movie := movies[movie].(status := S.Wildcard)];
      var w := nextWildcard;
      wildcards := wildcards[w := S.Selection(
        host, movie, if created then S.Stash else status, created, S.Active, actor, at, None, None)];
      nextWildcard := nextWildcard + 1;
      InsertPending(movie, A.Wildcard, Some(w), at, at, "", true);
      return None;
    }

    /** StartWildcard: a refused selection rolls an added movie back. */
    method StartWildcard(actor: nat, choice: S.Choice, at: int, poolLocked: bool) returns (r: Result<nat>)
      modifies this
      ensures (Rows(), r) == S.StartWildcard(old(Rows()), actor, choice, at, poolLocked)
    {
      var host := S.RevealedHost(Rows());
      if host.Err? {
        return Err(host.error);
      }
      if choice.expectedHost == 0 || host.value != choice.expectedHost {
        return Err(CurrentDrawChanged);
      }
      if S.ActiveWildcard(Rows()).Some? {
        return Err(ActiveWildcardExists);
      }
      var (chosen, named, created) := S.Chosen(Rows(), actor, choice);
      if named.Err? {
        return Err(named.error);
      }
      var w, moviesBefore, nextBefore := nextWildcard, movies, nextMovie;
      movies, nextMovie := chosen.movies, chosen.nextMovie;
      assert Rows() == chosen;
      var error := Select(actor, host.value, named.value, created, at, poolLocked);
      if error.Some? {
        movies, nextMovie := moviesBefore, nextBefore;
        return Err(error.value);
      }
      return Ok(w);
    }
  }

  class Service {
    const tables: Tables
    var active: Option<D.ActiveDraw>
    var stop: Option<nat>
    var armed: bool
    var retries: nat
    var closed: bool
    var generation: nat
    var timers: map<nat, D.Timer>
    var nextTimer: nat
    var published: seq<D.ActiveDraw>

    /** NewServiceChecked: a draw that was not revealed before is held again before anything
        is served. */
    constructor (tables: Tables)
      ensures this.tables == tables && tables.Rows() == old(tables.Rows())
      ensures State() == D.Resume(tables.Rows())
    {
      this.tables := tables;
      active, stop, armed, retries, closed := None, None, false, 0, false;
      generation, timers, nextTimer, published := 0, map[], 0, [];
      new;
      var resumed := S.ConcealedCurrentDraw(tables.Rows());
      if resumed.Some? {
        generation := generation + 1;
        active := Some(D.ActiveDraw(resumed.value.movie, generation, resumed.value.drawnAt, resumed.value.revealAt,
                                    resumed.value.clientId, false));
        ArmAutoReveal(generation);
      }
    }

    function State(): D.Memory
      reads this
    {
      D.Memory(active, stop, armed, retries, closed, generation, timers, nextTimer, published)
    }

    method CancelAutoReveal()
      modifies this`stop, this`armed, this`retries, this`timers
      ensures State() == D.CancelAutoReveal(old(State()))
    {
      if stop.Some? {
        if stop.value in timers {
          timers := timers[stop.value := timers[stop.value].(stopped := true)];
        }
        stop := None;
      }
      armed := false;
      retries := 0;
    }

    method ScheduleAutoReveal(forGeneration: nat)
      modifies this`stop, this`armed, this`timers, this`nextTimer
      ensures State() == D.ScheduleAutoReveal(old(State()), forGeneration)
    {
      timers := timers[nextTimer := D.Timer(forGeneration, false)];
      stop := Some(nextTimer);
      nextTimer := nextTimer + 1;
      armed := true;
    }

    method ArmAutoReveal(forGeneration: nat)
      modifies this`stop, this`armed, this`retries, this`timers, this`nextTimer
      ensures State() == D.ArmAutoReveal(old(State()), forGeneration)
    {
      CancelAutoReveal();
      ScheduleAutoReveal(forGeneration);
    }

    method RetryAutoReveal(forGeneration: nat)
      modifies this`stop, this`armed, this`retries, this`timers, this`nextTimer
      ensures State() == D.RetryAutoReveal(old(State()), forGeneration)
    {
      stop := None;
      armed := false;
      if active.None? || active.value.revealed || active.value.generation != forGeneration ||
         generation != forGeneration || closed || retries >= D.MAX_RETRIES
      {
        return;
      }
      retries := retries + 1;
      ScheduleAutoReveal(forGeneration);
    }

    method StartAutoReveal(movie: nat, forGeneration: nat)
      modifies this`stop, this`armed, this`retries, this`timers, this`nextTimer
      ensures State() == D.StartAutoReveal(old(State()), movie, forGeneration)
    {
      if active.None? || active.value.movie != movie || active.value.generation != forGeneration ||
         generation != forGeneration || active.value.revealed || closed || armed
      {
        return;
      }
      ArmAutoReveal(forGeneration);
    }

    method Close()
      modifies this`stop, this`armed, this`retries, this`timers, this`closed
      ensures State() == D.CloseService(old(State()))
    {
      closed := true;
      CancelAutoReveal();
    }

    /** DrawRandom: `pooled` answers the pool query, `index` is the random source's choice, and
        `fails` makes the store refuse the draw. */
    method DrawRandom(pooled: seq<Entry>, index: int, clientId: string, at: int, delay: int, fails: bool)
      returns (r: Result<D.ActiveDraw>, candidates: seq<Entry>)
      requires ListsPool(pooled, tables.Rows(), None)
      modifies this`active, this`generation, tables
      ensures var pick := if 0 <= index < |pooled| then Some(pooled[index].id) else None;
        (tables.Rows(), State(), r) == D.Draw(old(tables.Rows()), old(State()), pick, clientId, at, delay, fails)
      ensures r.Ok? ==> candidates == pooled
    {
      candidates := [];
      if |pooled| == 0 {
        NothingPooled(pooled, tables.Rows());
        return Err(NotFound), candidates;
      }
      assert Pooled(tables.Rows(), None, pooled[0]);
      if S.CurrentMovie(tables.Rows()).Some? {
        return Err(CurrentDrawExists), candidates;
      }
      var i := 0;
      while i < |pooled|
        invariant 0 <= i <= |pooled| && candidates == pooled[..i]
      {
        candidates := candidates + [pooled[i]];
        i := i + 1;
      }
      if index < 0 || index >= |candidates| {
        return Err(InvalidState), candidates;
      }
      var selected := candidates[index];
      assert Pooled(tables.Rows(), None, pooled[index]);
      if fails {
        return Err(StoreFailed), candidates;
      }
      var started := tables.StartDraw(selected.id, at, at + delay, clientId);
      if started.Err? {
        return Err(started.error), candidates;
      }
      generation := generation + 1;
      var draw := D.ActiveDraw(selected.id, generation, at, at + delay, clientId, false);
      active := Some(draw);
      return Ok(draw), candidates;
    }

    /** revealActive: the durable write first; a failed timer is retried, a manual confirm is
        not. */
    method RevealActive(forGeneration: Option<nat>, at: int, fails: bool) returns (r: Result<Option<D.ActiveDraw>>)
      modifies this, tables
      ensures (tables.Rows(), State(), r) ==
        D.RevealActive(old(tables.Rows()), old(State()), forGeneration, at, fails)
    {
      if active.None? || active.value.revealed ||
         (forGeneration.Some? && (generation != forGeneration.value || closed))
      {
        return Ok(None);
      }
      var answer: Result<Option<nat>> := Err(StoreFailed);
      if !fails {
        answer := tables.RevealDrawAndAdvance(active.value.movie, at);
      }
      if answer.Err? {
        if forGeneration.Some? {
          RetryAutoReveal(forGeneration.value);
        }
        return Err(answer.error);
      }
      active := Some(active.value.(revealed := true));
      var shown := active.value;
      CancelAutoReveal();
      published := published + [shown];
      return Ok(Some(shown));
    }

    /** MarkCurrentAsWatched. */
    method MarkCurrentAsWatched(at: int, fails: bool) returns (r: Result<nat>)
      modifies this, tables
      ensures (tables.Rows(), State(), r) == D.MarkWatched(old(tables.Rows()), old(State()), at, fails)
    {
      var revealing := active.Some? && !active.value.revealed;
      var answer: Result<(nat, Option<nat>)> := Err(StoreFailed);
      if !fails {
        answer := tables.WatchCurrent(at, revealing);
      }
      if answer.Err? {
        return Err(answer.error);
      }
      if active.Some? && !active.value.revealed {
        published := published + [active.value.(revealed := true)];
      }
      active := None;
      CancelAutoReveal();
      return Ok(answer.value.0);
    }

    /** MoveToPool. */
    method MoveToPool(movie: nat) returns (r: Result<bool>)
      modifies tables
      ensures (tables.Rows(), r) == D.MoveToPool(old(tables.Rows()), State(), movie)
    {
      var limit := D.PoolLimit(tables.Rows(), State(), movie);
      if limit.Err? {
        return Err(limit.error);
      }
      var moved := tables.PromoteIfRoom(movie, limit.value);
      if moved {
        return Ok(true);
      }
      if movie !in tables.movies {
        return Err(NotFound);
      }
      match tables.movies[movie].status
      case Pool => return Ok(false);
      case Stash => return Err(PoolLimitReached);
      case Current =>
        if active.Some? && !active.value.revealed && active.value.movie == movie {
          return Ok(false);
        }
        return Err(InvalidState);
      case _ => return Err(InvalidState);
    }

    /** MoveToStash. */
    method MoveToStash(movie: nat) returns (r: Result<bool>)
      modifies tables
      ensures (tables.Rows(), r) == D.MoveToStash(old(tables.Rows()), State(), movie)
    {
      if active.Some? && !active.value.revealed {
        if movie !in tables.movies {
          return Err(NotFound);
        }
        if tables.movies[movie].status == S.Pool || movie == active.value.movie {
          return Err(DrawInProgress);
        }
      }
      var moved := tables.MoveIf(movie, S.Stash, S.Pool);
      if moved {
        return Ok(true);
      }
      if movie !in tables.movies {
        return Err(NotFound);
      }
      if tables.movies[movie].status == S.Stash {
        return Ok(false);
      }
      return Err(InvalidState);
    }

    /** Delete: the refusals come in this order. */
    method Delete(movie: nat, poolLocked: bool) returns (r: Result<nat>)
      modifies tables
      ensures (tables.Rows(), r) == D.Delete(old(tables.Rows()), State(), movie, poolLocked)
    {
      if movie !in tables.movies {
        return Err(NotFound);
      }
      var status := tables.movies[movie].status;
      if active.Some? && !active.value.revealed && (status == S.Pool || movie == active.value.movie) {
        return Err(DrawInProgress);
      }
      if poolLocked && status == S.Pool {
        return Err(PoolLocked);
      }
      if status != S.Pool && status != S.Stash {
        return Err(InvalidState);
      }
      r := tables.DeleteMovie(movie);
    }

    /** Correct. */
    method Correct(movie: nat, c: S.Correction, at: int) returns (r: Result<bool>)
      modifies tables
      ensures (tables.Rows(), r) == D.Correct(old(tables.Rows()), State(), movie, c, at)
    {
      if active.Some? && !active.value.revealed {
        return Err(DrawInProgress);
      }
      r := tables.CorrectMovie(movie, c, at);
    }
  }

  lemma NothingPooled(pooled: seq<Entry>, db: S.Db)
    requires ListsPool(pooled, db, None) && pooled == []
    ensures forall id :: id in db.movies ==> db.movies[id].status != S.Pool
  {
    forall id | id in db.movies ensures db.movies[id].status != S.Pool {
      assert Pooled(db, None, Entry(id, db.movies[id])) <==> Entry(id, db.movies[id]) in pooled;
    }
  }
}
