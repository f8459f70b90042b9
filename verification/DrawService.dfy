/** The movie service: the draw held in memory beside the tables, its auto-reveal timer, and
    every command and display read that must not give the held winner away
    (internal/movie/service.go). */
module DrawService {
  import opened Domain
  import opened MovieStore
  import opened DrawTables

  const MAX_RETRIES := 3

  datatype ActiveDraw = ActiveDraw(
    movie: nat, generation: nat, drawnAt: int, revealAt: int, clientId: string, revealed: bool)

  /** A scheduled callback. A stopped one may have fired already and still be on its way. */
  datatype Timer = Timer(generation: nat, stopped: bool)

  /** The service of one process; `published` are its OnRevealed calls. */
  datatype Memory = Memory(
    active: Option<ActiveDraw>, stop: Option<nat>, armed: bool, retries: nat, closed: bool, generation: nat,
    timers: map<nat, Timer>, nextTimer: nat, published: seq<ActiveDraw>)

  const FRESH := Memory(None, None, false, 0, false, 0, map[], 0, [])

  /** heldDraw: the active draw while nobody has seen its winner. */
  function Held(m: Memory): Option<ActiveDraw> {
    if m.active.Some? && !m.active.value.revealed then m.active else None
  }

  // ---- Timers -------------------------------------------------------------------------

  function CancelAutoReveal(m: Memory): Memory {
    var timers := if m.stop.Some? && m.stop.value in m.timers
                  then m.timers[m.stop.value := m.timers[m.stop.value].(stopped := true)]
                  else m.timers;
    m.(timers := timers, stop := None, armed := false, retries := 0)
  }

  function ScheduleAutoReveal(m: Memory, generation: nat): Memory {
    m.(timers := m.timers[m.nextTimer := Timer(generation, false)], stop := Some(m.nextTimer), armed := true,
       nextTimer := m.nextTimer + 1)
  }

  function ArmAutoReveal(m: Memory, generation: nat): Memory {
    ScheduleAutoReveal(CancelAutoReveal(m), generation)
  }

  function RetryAutoReveal(m: Memory, generation: nat): Memory {
    var retired := m.(stop := None, armed := false);
    if Held(m).None? || m.active.value.generation != generation || m.generation != generation || m.closed ||
       m.retries >= MAX_RETRIES
    then retired
    else ScheduleAutoReveal(retired.(retries := m.retries + 1), generation)
  }

  /** StartAutoReveal: stale, duplicate and late calls do nothing. */
  function StartAutoReveal(m: Memory, movie: nat, generation: nat): Memory {
    if Held(m).None? || m.active.value.movie != movie || m.active.value.generation != generation ||
       m.generation != generation || m.closed || m.armed
    then m
    else ArmAutoReveal(m, generation)
  }

  function CloseService(m: Memory): Memory {
    CancelAutoReveal(m.(closed := true))
  }

  /** resumeConcealedDraw in a fresh process. */
  function Resume(db: Db): Memory {
    match ConcealedCurrentDraw(db)
    case None => FRESH
    case Some(r) =>
      ArmAutoReveal(FRESH.(generation := 1, active := Some(ActiveDraw(r.movie, 1, r.drawnAt, r.revealAt, r.clientId, false))), 1)
  }

  // ---- Draw, reveal, watch ----------------------------------------------------------------

  /** DrawRandom. `pick` is the candidate the random index names, if it names one; `fails`
      makes the store refuse the write. */
  function Draw(db: Db, m: Memory, pick: Option<nat>, clientId: string, at: int, delay: int, fails: bool)
    : (Db, Memory, Result<ActiveDraw>)
  {
    if forall id :: id in db.movies ==> db.movies[id].status != Pool then (db, m, Err(NotFound))
    else if CurrentMovie(db).Some? then (db, m, Err(CurrentDrawExists))
    else if pick.None? || !HasStatus(db, pick.value, Pool) then (db, m, Err(InvalidState))
    else if fails then (db, m, Err(StoreFailed))
    else
      match StartDraw(db, pick.value, at, at + delay, clientId)
      case (_, Err(error)) => (db, m, Err(error))
      case (after, Ok(_)) =>
        var draw := ActiveDraw(pick.value, m.generation + 1, at, at + delay, clientId, false);
        (after, m.(generation := m.generation + 1, active := Some(draw)), Ok(draw))
  }

  /** revealActive. A timer names its generation, a manual confirm names none. */
  function RevealActive(db: Db, m: Memory, generation: Option<nat>, at: int, fails: bool)
    : (Db, Memory, Result<Option<ActiveDraw>>)
  {
    if Held(m).None? || (generation.Some? && (m.generation != generation.value || m.closed)) then (db, m, Ok(None))
    else
      var (after, answer) := if fails then (db, Err(StoreFailed)) else RevealDrawAndAdvance(db, m.active.value.movie, at);
      match answer
      case Err(error) => (db, if generation.Some? then RetryAutoReveal(m, generation.value) else m, Err(error))
      case Ok(_) =>
        var shown := m.active.value.(revealed := true);
        (after, CancelAutoReveal(m.(active := Some(shown), published := m.published + [shown])), Ok(Some(shown)))
  }

  /** The one-shot callback of a timer. */
  function FireTimer(db: Db, m: Memory, t: nat, at: int, fails: bool): (Db, Memory)
    requires t in m.timers
  {
    var (after, n, _) := RevealActive(db, m.(timers := m.timers - {t}), Some(m.timers[t].generation), at, fails);
    (after, n)
  }

  /** MarkCurrentAsWatched: watching an unrevealed draw is also its Reveal. */
  function MarkWatched(db: Db, m: Memory, at: int, fails: bool): (Db, Memory, Result<nat>) {
    var (after, answer) := if fails then (db, Err(StoreFailed)) else WatchCurrent(db, at, Held(m).Some?);
    match answer
    case Err(error) => (db, m, Err(error))
    case Ok(watched) =>
      var published := if Held(m).Some? then m.published + [m.active.value.(revealed := true)] else m.published;
      (after, CancelAutoReveal(m.(active := None, published := published)), Ok(watched.0))
  }

  // ---- Pool commands --------------------------------------------------------------------

  /** poolLimitLocked: the held winner still costs its adder a slot. */
  function PoolLimit(db: Db, m: Memory, movie: nat): Result<int> {
    if Held(m).None? || !HasStatus(db, m.active.value.movie, Current) then Ok(MAX_POOL)
    else if movie !in db.movies then Err(NotFound)
    else if db.movies[movie].addedBy != db.movies[m.active.value.movie].addedBy then Ok(MAX_POOL)
    else Ok(MAX_POOL - 1)
  }

  /** MoveToPool: whether a row moved. The held winner counts as already pooled. */
  function MoveToPool(db: Db, m: Memory, movie: nat): (Db, Result<bool>) {
    match PoolLimit(db, m, movie)
    case Err(error) => (db, Err(error))
    case Ok(limit) =>
      var (after, moved) := PromoteIfRoom(db, movie, limit);
      if moved then (after, Ok(true))
      else if movie !in db.movies then (db, Err(NotFound))
      else
        match db.movies[movie].status
        case Pool => (db, Ok(false))
        case Stash => (db, Err(PoolLimitReached))
        case Current => (db, if Held(m).Some? && m.active.value.movie == movie then Ok(false) else Err(InvalidState))
        case _ => (db, Err(InvalidState))
  }

  /** While a draw is held, every pool tile and the winner refuse alike. */
  predicate Hides(db: Db, m: Memory, movie: nat)
    requires movie in db.movies
  {
    Held(m).Some? && (db.movies[movie].status == Pool || movie == m.active.value.movie)
  }

  function MoveToStash(db: Db, m: Memory, movie: nat): (Db, Result<bool>) {
    if movie !in db.movies then (db, Err(NotFound))
    else if Hides(db, m, movie) then (db, Err(DrawInProgress))
    else
      var (after, moved) := MoveIf(db, movie, Stash, Pool);
      if moved then (after, Ok(true))
      else if db.movies[movie].status == Stash then (db, Ok(false))
      else (db, Err(InvalidState))
  }

  function Delete(db: Db, m: Memory, movie: nat, poolLocked: bool): (Db, Result<nat>) {
    if movie !in db.movies then (db, Err(NotFound))
    else if Hides(db, m, movie) then (db, Err(DrawInProgress))
    else if poolLocked && db.movies[movie].status == Pool then (db, Err(PoolLocked))
    else if db.movies[movie].status != Pool && db.movies[movie].status != Stash then (db, Err(InvalidState))
    else DeleteMovie(db, movie)
  }

  function Correct(db: Db, m: Memory, movie: nat, c: Correction, at: int): (Db, Result<bool>) {
    if Held(m).Some? then (db, Err(DrawInProgress)) else CorrectMovie(db, movie, c, at)
  }

  /** The commands members and admins send; the last five do not look at the held draw. */
  datatype Command =
    | ToPool(movie: nat)
    | ToStash(movie: nat)
    | Remove(movie: nat, poolLocked: bool)
    | Amend(movie: nat, correction: Correction, at: int)
    | Add(title: string, user: nat, tmdb: Option<nat>, imdb: Option<string>)
    | SelectWildcard(actor: nat, choice: Choice, at: int, poolLocked: bool)
    | EndWildcard(actor: nat, expected: nat, at: int)
    | SeeWildcard(expected: nat, at: int)
    | Skip(holder: nat)

  datatype Answer = Moved(moved: Result<bool>) | Named(id: Result<nat>)

  function Execute(db: Db, m: Memory, c: Command): (Db, Answer) {
    match c
    case ToPool(movie) => var (after, r) := MoveToPool(db, m, movie); (after, Moved(r))
    case ToStash(movie) => var (after, r) := MoveToStash(db, m, movie); (after, Moved(r))
    case Remove(movie, poolLocked) => var (after, r) := Delete(db, m, movie, poolLocked); (after, Named(r))
    case Amend(movie, correction, at) => var (after, r) := Correct(db, m, movie, correction, at); (after, Moved(r))
    case Add(title, user, tmdb, imdb) => var (after, r) := AddToStash(db, title, user, tmdb, imdb); (after, Named(r))
    case SelectWildcard(actor, choice, at, poolLocked) =>
      var (after, r) := StartWildcard(db, actor, choice, at, poolLocked); (after, Named(r))
    case EndWildcard(actor, expected, at) => var (after, r) := CancelWildcard(db, actor, expected, at); (after, Named(r))
    case SeeWildcard(expected, at) => var (after, r) := WatchWildcard(db, expected, at); (after, Named(r))
    case Skip(holder) => var (after, r) := SkipTurn(db, holder); (after, Named(r))
  }
}
