/** A history of the admin pages in which Radarr is asked twice to search for one movie. It
    is given event by event, as a run of the procedures, and needs no write from outside
    them (internal/server/radarr_acquisition_service.go). */
module SearchHistory {
  import opened Domain
  import opened Acquisitions
  import opened AcquisitionHistory
  import opened RemoteCalls
  import opened AcquisitionService
  import opened SearchClaims

  // ---- Scripts of one worker ----------------------------------------------------------------

  /** What a worker meets between two statements: Radarr's replies and the clock at its
      branches. */
  datatype Script = End | Says(reply: Reply, rest: Script) | Looks(now: int, rest: Script)

  const NO_WRITE := Retarget("", None, 0, 0)
  const NO_RELEASE := Release("", "", 0, 0)

  function Told(i: nat, reply: Reply): Event {
    Advance(i, Choice(reply, NO_WRITE, NO_RELEASE, 0))
  }

  function Timed(i: nat, now: int): Event {
    Advance(i, Choice(Nothing, NO_WRITE, NO_RELEASE, now))
  }

  function Writes(i: nat, w: Write): Event {
    Advance(i, Choice(Nothing, w, NO_RELEASE, 0))
  }

  function Events(i: nat, script: Script): seq<Event> {
    match script
    case End => []
    case Says(reply, rest) => [Told(i, reply)] + Events(i, rest)
    case Looks(now, rest) => [Timed(i, now)] + Events(i, rest)
  }

  /** Following the script from one instruction leads to the other. */
  ghost predicate Walks(l: Locals, code: Code, script: Script, m: Locals, end: Code)
    decreases script
  {
    match script
    case End => l == m && code == end
    case Says(reply, rest) => code.Ask? && Walks(Answered(l, reply), code.next, rest, m, end)
    case Looks(now, rest) => code.Branch? && Walks(l, if code.test(l, now) then code.yes else code.no, rest, m, end)
  }

  /** The rules of Walks, one instruction at a time. */
  lemma WalkRules()
    ensures forall l, code {:trigger Walks(l, code, End, l, code)} :: Walks(l, code, End, l, code)
    ensures forall l, request, next, reply, rest, m, end
      {:trigger Walks(l, Ask(request, next), Says(reply, rest), m, end)} ::
      Walks(Answered(l, reply), next, rest, m, end) ==> Walks(l, Ask(request, next), Says(reply, rest), m, end)
    ensures forall l, test: Test, yes, no, now, rest, m, end
      {:trigger Walks(l, Branch(test, yes, no), Looks(now, rest), m, end)} ::
      (test(l, now) && Walks(l, yes, rest, m, end)) || (!test(l, now) && Walks(l, no, rest, m, end))
      ==> Walks(l, Branch(test, yes, no), Looks(now, rest), m, end)
  {
  }

  lemma {:induction false} WalkIsRun(s: World, i: nat, script: Script, m: Locals, end: Code)
    requires i in s.workers && Walks(s.workers[i].locals, s.workers[i].code, script, m, end)
    ensures LegalRun(s, Events(i, script))
    ensures RunEvents(s, Events(i, script)) == Goes(s, i, Process(m, end, s.workers[i].armed))
    decreases script
  {
    match script
    case End =>
    case Says(reply, rest) =>
      WalkIsRun(Next(s, Told(i, reply)), i, rest, m, end);
    case Looks(now, rest) =>
      WalkIsRun(Next(s, Timed(i, now)), i, rest, m, end);
  }

  lemma {:induction false} RunsJoin(s: World, first: seq<Event>, second: seq<Event>)
    ensures RunEvents(s, first + second) == RunEvents(RunEvents(s, first), second)
    ensures LegalRun(s, first) && LegalRun(RunEvents(s, first), second) ==> LegalRun(s, first + second)
    decreases |first|
  {
    if first == [] {
      assert first + second == second;
    } else {
      assert (first + second)[1..] == first[1..] + second;
      RunsJoin(Next(s, first[0]), first[1..], second);
    }
  }

  // ---- The parts of the history ---------------------------------------------------------------

  /** An Acquisition whose previewed target is ready to be confirmed. */
  predicate Ready(row: Acquisition, tmdb: nat) {
    && row.Visible() && row.Open() && !row.Locked() && row.mutation == Idle && IsAutomatic(row)
    && row.previewedAt.Some? && !row.previewExisting && row.ResolvedTmdb() == Some(tmdb)
    && row.searchCommand.None? && row.radarrMovieId.None? && row.manualAttempts == 0
  }

  /** The movie as Radarr knows it, once it is there. */
  function RemoteMovie(tmdb: nat): Movie {
    Movie(7, tmdb, false, true, NO_EFFECTIVE)
  }

  const EMPTY := Items(0, false, "")

  function Starting(i: nat, code: Code): seq<Event> {
    [Begin(i, code), Timed(i, 0)]
  }

  lemma ProcedureStarts(s: World, i: nat, code: Code)
    requires s.row.Visible() && Disciplined(code, None)
    ensures LegalRun(s, Starting(i, code))
    ensures RunEvents(s, Starting(i, code)) == Goes(s, i, Process(Locals(s.row, NO_MOVIE, Nothing), code, None))
  {
    var begun := Next(s, Begin(i, code));
    var loaded := Next(begun, Timed(i, 0));
    assert Starting(i, code)[1..] == [Timed(i, 0)];
    assert RunEvents(begun, [Timed(i, 0)]) == RunEvents(loaded, []) == loaded;
    assert LegalRun(begun, [Timed(i, 0)]);
  }

  /** One statement, claim or command of a worker, as a run. */
  lemma OneEvent(s: World, e: Event)
    requires Legal(s, e)
    ensures LegalRun(s, [e]) && RunEvents(s, [e]) == Next(s, e)
  {
    assert RunEvents(Next(s, e), []) == Next(s, e);
  }

  /** The run leads from one world to the other. */
  ghost predicate Leads(s: World, events: seq<Event>, t: World) {
    LegalRun(s, events) && RunEvents(s, events) == t
  }

  lemma Chain(s: World, first: seq<Event>, t: World, second: seq<Event>, u: World)
    requires Leads(s, first, t) && Leads(t, second, u)
    ensures Leads(s, first + second, u)
  {
    RunsJoin(s, first, second);
  }

  // ---- The rows --------------------------------------------------------------------------------

  const LOCK := TargetLock(7, false, NO_EFFECTIVE, 1, WaitingForRadarr, None, None, 40_000)

  /** The row once its target is locked, at the steps of the history. */
  predicate Stage(a: Acquisition, tmdb: nat, revision: nat, mutation: Mutation, reason: Option<Reason>) {
    && a.Visible() && a.Open() && a.Locked() && IsAutomatic(a) && a.radarrMovieId == Some(7)
    && a.ResolvedTmdb() == Some(tmdb) && a.searchCommand.None? && a.manualAttempts == 0
    && a.revision == revision && a.mutation == mutation && a.reason == reason
  }

  /** The row while its add is claimed. */
  predicate Pending(a: Acquisition, tmdb: nat, revision: nat) {
    && a.Visible() && a.Open() && !a.Locked() && a.mutation == Adding && IsAutomatic(a)
    && a.ResolvedTmdb() == Some(tmdb) && a.searchCommand.None? && a.manualAttempts == 0
    && a.revision == revision && !Leased(a, 40_000)
  }

  lemma AddBegins(row: Acquisition, tmdb: nat)
    requires Ready(row, tmdb)
    ensures Apply(row, BeginAdd(row.revision, 0)).Written?
    ensures Pending(Attempt(row, BeginAdd(row.revision, 0)), tmdb, row.revision + 1)
  {
  }

  lemma TargetLocks(a: Acquisition, tmdb: nat, revision: nat)
    requires Pending(a, tmdb, revision)
    ensures Apply(a, LockTarget(LOCK)).Written?
    ensures Stage(Attempt(a, LockTarget(LOCK)), tmdb, revision + 1, Idle, None)
    ensures Attempt(a, LockTarget(LOCK)).status == WaitingForRadarr
  {
  }

  lemma SearchBegins(a: Acquisition, tmdb: nat, revision: nat, reason: Option<Reason>, at: int)
    requires Stage(a, tmdb, revision, Idle, reason)
    ensures Apply(a, BeginSearch(revision, at)).Written?
    ensures Stage(Attempt(a, BeginSearch(revision, at)), tmdb, revision + 1, Searching, None)
  {
  }

  lemma RowMoves(
    a: Acquisition, tmdb: nat, revision: nat, mutation: Mutation, before: Option<Reason>,
    expected: Option<nat>, reason: Reason, at: int, reset: bool)
    requires Stage(a, tmdb, revision, mutation, before) && (expected == None || expected == Some(revision))
    ensures var w := Move(expected, Doubt(reason, at), reset);
      && Apply(a, w).Written?
      && Stage(Attempt(a, w), tmdb, revision + 1, if reset then Idle else mutation, Some(reason))
  {
  }

  // ---- The walks -------------------------------------------------------------------------------

  const TO_ADD :=
    Looks(0, Looks(0, Looks(0, Says(Done, Looks(0, Says(Done, Looks(0, Looks(0, Says(Nothing, Looks(0, Looks(0, End)))))))))))

  lemma ConfirmWalk(l: Locals, tmdb: nat, lockRemote: Code, reconcileAdd: Code)
    requires Ready(l.acquisition, tmdb)
    ensures Walks(l, Confirm(lockRemote, reconcileAdd), TO_ADD, l.(reply := Nothing), ConfirmAdd(lockRemote))
  {
    WalkRules();
  }

  function ToLock(movie: Movie): Script {
    Looks(40_000, Says(Done, Looks(0, Looks(0, Says(Found(movie), Looks(0, Looks(0, Says(Done, Looks(0,
      Looks(0, Says(Done, Looks(0, Says(EMPTY, Looks(0, End))))))))))))))
  }

  lemma LockWalk(l: Locals, movie: Movie, search: Code)
    requires !Leased(l.acquisition, 40_000) && l.acquisition.ResolvedTmdb().Some? && !movie.hasFile
    ensures Walks(l, ReconcileAdd(LockRemote(search)), ToLock(movie),
                  l.(remote := movie, reply := EMPTY), Store(Lock, LockWon(search), Stop))
  {
    WalkRules();
  }

  /** The start of a retry while an add is claimed. */
  function Retried(rest: Script): Script {
    Looks(40_000, Looks(40_000, Looks(40_000, rest)))
  }

  lemma RetryAddWalk(
    l: Locals, reconcileAdd: Code, previewAndAdopt: Code, reconcile: Code, retryIdle: Code, replacement: Code,
    rest: Script, m: Locals, end: Code)
    requires l.acquisition.Open() && !l.acquisition.Locked() && l.acquisition.mutation == Adding
    requires Walks(l, reconcileAdd, rest, m, end)
    ensures Walks(l, Retry(reconcileAdd, previewAndAdopt, reconcile, retryIdle, replacement), Retried(rest), m, end)
  {
    WalkRules();
  }

  const TO_SEARCH := Looks(0, Looks(0, Looks(0, End)))

  lemma LockedWalk(l: Locals, reconcile: Code)
    requires l.reply == EMPTY && l.acquisition.status != Downloaded && IsAutomatic(l.acquisition)
    requires l.acquisition.searchCommand.None?
    ensures Walks(l, LockWon(Search(reconcile)), TO_SEARCH, l, SearchClaim())
  {
    WalkRules();
  }

  function ToSend(movie: Movie): Script {
    Looks(0, Says(Done, Looks(0, Says(Found(movie), Looks(0, Looks(0, Looks(0, Says(EMPTY, Looks(0, Looks(0, End))))))))))
  }

  lemma SearchWalk(l: Locals, tmdb: nat)
    requires l.acquisition.radarrMovieId == Some(7) && l.acquisition.ResolvedTmdb() == Some(tmdb)
    requires l.remote == RemoteMovie(tmdb)
    ensures Walks(l, SearchWon(), ToSend(RemoteMovie(tmdb)), l.(reply := EMPTY), Send(StartMoviesSearch, SearchAnswered()))
  {
    WalkRules();
  }

  function ToRetryIdle(movie: Movie): Script {
    Looks(0, Looks(0, Looks(0, Looks(0, Looks(0, Says(Done, Looks(0, Looks(0,
      Says(Found(movie), Looks(0, Looks(0, Looks(0, End))))))))))))
  }

  lemma RetryIdleWalk(
    l: Locals, movie: Movie, reconcileAdd: Code, previewAndAdopt: Code, reconcile: Code, search: Code, replacement: Code)
    requires l.acquisition.Open() && l.acquisition.Locked() && l.acquisition.mutation == Idle
    requires l.acquisition.reason != Some(MonitoringFailed)
    ensures Walks(l,
                  Retry(reconcileAdd, previewAndAdopt, reconcile, RetryIdle(reconcile, search, replacement), replacement),
                  ToRetryIdle(movie), l.(remote := movie, reply := Found(movie)), RetrySearch(reconcile, search))
  {
    WalkRules();
  }

  function ToObserve(movie: Movie): Script {
    Looks(0, Looks(0, Looks(0, Says(Done, Looks(0, Says(Found(movie), Looks(0, Looks(0, Looks(0,
      Says(EMPTY, Looks(0, Looks(0, Looks(0, Looks(0, Looks(0, End)))))))))))))))
  }

  lemma PollWalk(l: Locals, tmdb: nat, search: Code)
    requires Stage(l.acquisition, tmdb, l.acquisition.revision, Idle, l.acquisition.reason)
    requires !SearchesAgain(l)
    ensures Walks(l, RetrySearch(Reconcile(), search), ToObserve(RemoteMovie(tmdb)),
                  l.(remote := RemoteMovie(tmdb), reply := EMPTY), OBSERVED)
  {
    WalkRules();
  }

  const TO_SECOND_SEARCH := Looks(0, Looks(0, Says(EMPTY, Looks(0, Looks(0, Looks(0, End))))))

  lemma SearchAgainWalk(l: Locals, reconcile: Code)
    requires SearchesAgain(l) && l.acquisition.searchCommand.None?
    ensures Walks(l, RetrySearch(reconcile, Search(reconcile)), TO_SECOND_SEARCH, l.(reply := EMPTY), SearchClaim())
  {
    WalkRules();
  }

  // ---- The parts -------------------------------------------------------------------------------

  lemma WalkLeads(s: World, i: nat, script: Script, m: Locals, end: Code)
    requires i in s.workers && Walks(s.workers[i].locals, s.workers[i].code, script, m, end)
    ensures Leads(s, Events(i, script), Goes(s, i, Process(m, end, s.workers[i].armed)))
  {
    WalkIsRun(s, i, script, m, end);
  }

  /** A procedure begins, loads the row and follows a script. */
  function Opening(i: nat, body: Code, script: Script): seq<Event> {
    Starting(i, body) + Events(i, script)
  }

  lemma OpeningLeads(s: World, i: nat, body: Code, script: Script, m: Locals, end: Code)
    requires s.row.Visible() && Disciplined(body, None)
    requires Walks(Locals(s.row, NO_MOVIE, Nothing), body, script, m, end)
    ensures Leads(s, Opening(i, body, script), Goes(s, i, Process(m, end, None)))
  {
    ProcedureStarts(s, i, body);
    var begun := Goes(s, i, Process(Locals(s.row, NO_MOVIE, Nothing), body, None));
    WalkLeads(begun, i, script, m, end);
    assert Goes(begun, i, Process(m, end, None)) == Goes(s, i, Process(m, end, None));
    Chain(s, Starting(i, body), begun, Events(i, script), Goes(s, i, Process(m, end, None)));
  }

  function Written(s: World, i: nat, l: Locals, w: Write, done: Code): World {
    Goes(s, i, Process(l.(acquisition := Attempt(s.row, w)), done, None)).(row := Attempt(s.row, w))
  }

  lemma StatementRuns(s: World, i: nat, shape: Shape, done: Code, stale: Code, w: Write)
    requires i in s.workers && s.workers[i].code == Store(shape, done, stale)
    requires Fits(shape, s.workers[i].locals.acquisition, w) && Offered(s.row, w) && Apply(s.row, w).Written?
    ensures Leads(s, [Writes(i, w)], Written(s, i, s.workers[i].locals, w, done))
  {
    OneEvent(s, Writes(i, w));
  }

  function Claimed(s: World, i: nat, l: Locals, w: Write, kind: Kind, won: Code): World {
    var row := Attempt(s.row, w);
    Goes(s, i, Process(l.(acquisition := row), won, Some(kind)))
      .(row := row, claims := s.claims[row.revision := Claimant(kind, i)])
  }

  lemma ClaimRuns(s: World, i: nat, kind: Kind, won: Code, lost: Code, at: int)
    requires i in s.workers && s.workers[i].code == Claim(kind, won, lost)
    requires var w := ClaimWrite(kind, s.workers[i].locals.acquisition, NO_RELEASE, at);
      Offered(s.row, w) && Apply(s.row, w).Written?
    ensures var l := s.workers[i].locals;
      Leads(s, [Timed(i, at)], Claimed(s, i, l, ClaimWrite(kind, l.acquisition, NO_RELEASE, at), kind, won))
  {
    OneEvent(s, Timed(i, at));
  }

  function Commanded(s: World, i: nat, l: Locals, kind: Kind, reply: Reply, next: Code): World {
    Goes(s, i, Process(l.(reply := reply), next, None)).(calls := s.calls + [Call(kind, l.acquisition.revision)])
  }

  lemma CommandRuns(s: World, i: nat, kind: Kind, next: Code, reply: Reply)
    requires i in s.workers && s.workers[i].code == Send(kind, next) && !reply.Found?
    ensures Leads(s, [Told(i, reply)], Commanded(s, i, s.workers[i].locals, kind, reply, next))
  {
    OneEvent(s, Told(i, reply));
  }

  /** A claim, the instructions up to its command, and the command. */
  function CommandEvents(i: nat, at: int, script: Script, reply: Reply): seq<Event> {
    [Timed(i, at)] + (Events(i, script) + [Told(i, reply)])
  }

  function CommandSent(s: World, i: nat, l: Locals, w: Write, kind: Kind, reply: Reply, next: Code): World {
    var row := Attempt(s.row, w);
    Goes(s, i, Process(l.(acquisition := row, reply := reply), next, None))
      .(row := row, calls := s.calls + [Call(kind, row.revision)],
        claims := s.claims[row.revision := Claimant(kind, i)])
  }

  lemma CommandIsSent(
    s: World, i: nat, kind: Kind, won: Code, lost: Code, at: int, script: Script, before: Reply, reply: Reply, next: Code)
    requires i in s.workers && s.workers[i].code == Claim(kind, won, lost) && !reply.Found?
    requires var l := s.workers[i].locals; var w := ClaimWrite(kind, l.acquisition, NO_RELEASE, at);
      && Offered(s.row, w) && Apply(s.row, w).Written?
      && Walks(l.(acquisition := Attempt(s.row, w)), won, script,
               l.(acquisition := Attempt(s.row, w), reply := before), Send(kind, next))
    ensures var l := s.workers[i].locals; var w := ClaimWrite(kind, l.acquisition, NO_RELEASE, at);
      Leads(s, CommandEvents(i, at, script, reply), CommandSent(s, i, l, w, kind, reply, next))
  {
    var l := s.workers[i].locals;
    var w := ClaimWrite(kind, l.acquisition, NO_RELEASE, at);
    ClaimRuns(s, i, kind, won, lost, at);
    var claimed := Claimed(s, i, l, w, kind, won);
    var m := l.(acquisition := Attempt(s.row, w), reply := before);
    WalkLeads(claimed, i, script, m, Send(kind, next));
    var sending := Goes(claimed, i, Process(m, Send(kind, next), Some(kind)));
    CommandRuns(sending, i, kind, next, reply);
    var sent := Commanded(sending, i, m, kind, reply, next);
    assert sent == CommandSent(s, i, l, w, kind, reply, next);
    Chain(claimed, Events(i, script), sending, [Told(i, reply)], sent);
    Chain(s, [Timed(i, at)], claimed, Events(i, script) + [Told(i, reply)], sent);
  }

  /** A worker confirms the target, claims the add, and Radarr rejects it. */
  function AddEvents(i: nat, body: Code): seq<Event> {
    Opening(i, body, TO_ADD) + CommandEvents(i, 0, Looks(0, End), Broken(Rejected))
  }

  function AddSent(s: World, i: nat, lockRemote: Code): World {
    CommandSent(s, i, Locals(s.row, NO_MOVIE, Nothing), BeginAdd(s.row.revision, 0), AddMovie, Broken(Rejected),
                AddAnswered(lockRemote))
  }

  lemma AbsentWalk(l: Locals, yes: Code, no: Code)
    requires l.reply == Nothing
    ensures Walks(l, IfAbsent(yes, no), Looks(0, End), l, yes)
  {
    WalkRules();
  }

  lemma AddIsSent(s: World, i: nat, tmdb: nat, lockRemote: Code)
    requires Ready(s.row, tmdb) && i in s.workers
    requires s.workers[i] == Process(Locals(s.row, NO_MOVIE, Nothing), ConfirmAdd(lockRemote), None)
    ensures Leads(s, CommandEvents(i, 0, Looks(0, End), Broken(Rejected)), AddSent(s, i, lockRemote))
  {
    AddBegins(s.row, tmdb);
    var send := Send(AddMovie, AddAnswered(lockRemote));
    AbsentWalk(Locals(Attempt(s.row, BeginAdd(s.row.revision, 0)), NO_MOVIE, Nothing), send, lockRemote);
    CommandIsSent(s, i, AddMovie, IfAbsent(send, lockRemote), Stop, 0, Looks(0, End), Nothing, Broken(Rejected),
                  AddAnswered(lockRemote));
  }

  function Asking(s: World, i: nat, code: Code): World {
    Goes(s, i, Process(Locals(s.row, NO_MOVIE, Nothing), code, None))
  }

  lemma AddIsRejected(s: World, i: nat, tmdb: nat, body: Code, lockRemote: Code)
    requires Ready(s.row, tmdb) && Disciplined(body, None)
    requires var l := Locals(s.row, NO_MOVIE, Nothing); Walks(l, body, TO_ADD, l, ConfirmAdd(lockRemote))
    ensures Leads(s, AddEvents(i, body), AddSent(Asking(s, i, ConfirmAdd(lockRemote)), i, lockRemote))
  {
    OpeningLeads(s, i, body, TO_ADD, Locals(s.row, NO_MOVIE, Nothing), ConfirmAdd(lockRemote));
    var asked := Asking(s, i, ConfirmAdd(lockRemote));
    AddIsSent(asked, i, tmdb, lockRemote);
    Chain(s, Opening(i, body, TO_ADD), asked, CommandEvents(i, 0, Looks(0, End), Broken(Rejected)),
          AddSent(asked, i, lockRemote));
  }

  /** A worker at the claim of startAutomaticSearch wins it and sends its command. */
  function SearchEvents(i: nat, tmdb: nat, at: int, reply: Reply): seq<Event> {
    CommandEvents(i, at, ToSend(RemoteMovie(tmdb)), reply)
  }

  function SearchSent(s: World, i: nat, l: Locals, at: int, reply: Reply): World {
    CommandSent(s, i, l, BeginSearch(s.row.revision, at), StartMoviesSearch, reply, SearchAnswered())
  }

  lemma SearchIsSent(s: World, i: nat, l: Locals, tmdb: nat, at: int, reply: Reply)
    requires i in s.workers && s.workers[i] == Process(l, SearchClaim(), None)
    requires l.acquisition == s.row && l.remote == RemoteMovie(tmdb) && !reply.Found?
    requires Stage(s.row, tmdb, s.row.revision, Idle, s.row.reason)
    ensures Leads(s, SearchEvents(i, tmdb, at, reply), SearchSent(s, i, l, at, reply))
  {
    SearchBegins(s.row, tmdb, s.row.revision, s.row.reason, at);
    var m := l.(acquisition := Attempt(s.row, BeginSearch(s.row.revision, at)));
    SearchWalk(m, tmdb);
    CommandIsSent(s, i, StartMoviesSearch, SearchWon(), Load(Stop), at, ToSend(RemoteMovie(tmdb)), EMPTY, reply,
                  SearchAnswered());
  }

  /** After the lease of the add, a retry finds the movie in Radarr and locks the target. */
  function LockEvents(i: nat, body: Code, tmdb: nat): seq<Event> {
    Opening(i, body, Retried(ToLock(RemoteMovie(tmdb)))) + ([Writes(i, LockTarget(LOCK))] + Events(i, TO_SEARCH))
  }

  function TargetLocked(s: World, i: nat, tmdb: nat): World {
    var row := Attempt(s.row, LockTarget(LOCK));
    Goes(s, i, Process(Locals(row, RemoteMovie(tmdb), EMPTY), SearchClaim(), None)).(row := row)
  }

  lemma LockFromFound(s: World, i: nat, tmdb: nat, reconcile: Code)
    requires i in s.workers
    requires s.workers[i] == Process(Locals(s.row, RemoteMovie(tmdb), EMPTY), Store(Lock, LockWon(Search(reconcile)), Stop), None)
    requires s.row.Visible() && Apply(s.row, LockTarget(LOCK)).Written?
    requires var a := Attempt(s.row, LockTarget(LOCK));
      a.status == WaitingForRadarr && IsAutomatic(a) && a.searchCommand.None?
    ensures Leads(s, [Writes(i, LockTarget(LOCK))] + Events(i, TO_SEARCH), TargetLocked(s, i, tmdb))
  {
    var w := LockTarget(LOCK);
    var l := Locals(Attempt(s.row, w), RemoteMovie(tmdb), EMPTY);
    StatementRuns(s, i, Lock, LockWon(Search(reconcile)), Stop, w);
    var locked := Written(s, i, s.workers[i].locals, w, LockWon(Search(reconcile)));
    LockedWalk(l, reconcile);
    WalkLeads(locked, i, TO_SEARCH, l, SearchClaim());
    assert Goes(locked, i, Process(l, SearchClaim(), None)) == TargetLocked(s, i, tmdb);
    Chain(s, [Writes(i, w)], locked, Events(i, TO_SEARCH), TargetLocked(s, i, tmdb));
  }

  /** The retry has found the movie and is about to lock the target. */
  function Locking(s: World, i: nat, tmdb: nat, reconcile: Code): World {
    Goes(s, i, Process(Locals(s.row, RemoteMovie(tmdb), EMPTY), Store(Lock, LockWon(Search(reconcile)), Stop), None))
  }

  lemma RetryLocks(s: World, i: nat, tmdb: nat, body: Code, reconcile: Code)
    requires s.row.Visible() && Apply(s.row, LockTarget(LOCK)).Written?
    requires var a := Attempt(s.row, LockTarget(LOCK));
      a.status == WaitingForRadarr && IsAutomatic(a) && a.searchCommand.None?
    requires Disciplined(body, None)
    requires Walks(Locals(s.row, NO_MOVIE, Nothing), body, Retried(ToLock(RemoteMovie(tmdb))),
                   Locals(s.row, RemoteMovie(tmdb), EMPTY), Store(Lock, LockWon(Search(reconcile)), Stop))
    ensures Leads(s, LockEvents(i, body, tmdb), TargetLocked(Locking(s, i, tmdb, reconcile), i, tmdb))
  {
    var script, found := Retried(ToLock(RemoteMovie(tmdb))), Locals(s.row, RemoteMovie(tmdb), EMPTY);
    OpeningLeads(s, i, body, script, found, Store(Lock, LockWon(Search(reconcile)), Stop));
    var locking := Locking(s, i, tmdb, reconcile);
    LockFromFound(locking, i, tmdb, reconcile);
    Chain(s, Opening(i, body, script), locking, [Writes(i, LockTarget(LOCK))] + Events(i, TO_SEARCH),
          TargetLocked(locking, i, tmdb));
  }

  /** An ambiguous answer to the search is recorded, and the claim kept. */
  function DoubtEvents(i: nat, revision: nat): seq<Event> {
    [Timed(i, 0)] + [Writes(i, Move(Some(revision), Doubt(ConnectionFailed, 41_000), false))]
  }

  lemma DoubtIsRecorded(s: World, i: nat, l: Locals, tmdb: nat)
    requires i in s.workers && s.workers[i] == Process(l, SearchAnswered(), None)
    requires l.acquisition == s.row && l.reply == Broken(Ambiguous)
    requires Stage(s.row, tmdb, s.row.revision, Searching, None)
    ensures Leads(s, DoubtEvents(i, s.row.revision),
                  Written(s, i, l, Move(Some(s.row.revision), Doubt(ConnectionFailed, 41_000), false), Stop))
  {
    var w := Move(Some(s.row.revision), Doubt(ConnectionFailed, 41_000), false);
    var decided := Next(s, Timed(i, 0));
    assert decided == Goes(s, i, Process(l, PRESERVED, None));
    OneEvent(s, Timed(i, 0));
    RowMoves(s.row, tmdb, s.row.revision, Searching, None, Some(s.row.revision), ConnectionFailed, 41_000, false);
    StatementRuns(decided, i, Unknown, Stop, Load(Stop), w);
    assert Written(decided, i, l, w, Stop) == Written(s, i, l, w, Stop);
    Chain(s, [Timed(i, 0)], decided, [Writes(i, w)], Written(s, i, l, w, Stop));
  }

  /** The rejected add resets the row, whatever has become of it. */
  function ResetEvents(i: nat): seq<Event> {
    [Timed(i, 0)] + ([Timed(i, 0)] + [Writes(i, Move(None, Doubt(AddFailed, 42_000), true))])
  }

  lemma RejectedAddResets(s: World, i: nat, l: Locals, tmdb: nat, lockRemote: Code)
    requires i in s.workers && s.workers[i] == Process(l, AddAnswered(lockRemote), None)
    requires l.reply == Broken(Rejected) && Stage(s.row, tmdb, s.row.revision, Searching, s.row.reason)
    ensures Leads(s, ResetEvents(i), Written(s, i, l, Move(None, Doubt(AddFailed, 42_000), true), Stop))
  {
    var w := Move(None, Doubt(AddFailed, 42_000), true);
    var broken := IfBroken(Store(ResetAny, Stop, Stop), lockRemote);
    var first := Next(s, Timed(i, 0));
    assert first == Goes(s, i, Process(l, broken, None));
    var second := Next(first, Timed(i, 0));
    assert second == Goes(s, i, Process(l, Store(ResetAny, Stop, Stop), None));
    OneEvent(s, Timed(i, 0));
    OneEvent(first, Timed(i, 0));
    RowMoves(s.row, tmdb, s.row.revision, Searching, s.row.reason, None, AddFailed, 42_000, true);
    StatementRuns(second, i, ResetAny, Stop, Stop, w);
    assert Written(second, i, l, w, Stop) == Written(s, i, l, w, Stop);
    Chain(first, [Timed(i, 0)], second, [Writes(i, w)], Written(s, i, l, w, Stop));
    Chain(s, [Timed(i, 0)], first, [Timed(i, 0)] + [Writes(i, w)], Written(s, i, l, w, Stop));
  }

  /** A retry of an idle row asks whether to search again. */
  function Retrying(s: World, i: nat, tmdb: nat, code: Code): World {
    Goes(s, i, Process(Locals(s.row, RemoteMovie(tmdb), Found(RemoteMovie(tmdb))), code, None))
  }

  /** A failed add is not searched again; the retry polls Radarr and reports no search. */
  function PollEvents(i: nat, tmdb: nat, revision: nat): seq<Event> {
    Events(i, ToObserve(RemoteMovie(tmdb))) + [Writes(i, Move(Some(revision), Doubt(ReleaseFailed, 70_000), false))]
  }

  lemma PollIsRecorded(s: World, i: nat, l: Locals, tmdb: nat, search: Code)
    requires i in s.workers && s.workers[i] == Process(l, RetrySearch(Reconcile(), search), None)
    requires l.acquisition == s.row && l.remote == RemoteMovie(tmdb)
    requires Stage(s.row, tmdb, s.row.revision, Idle, Some(AddFailed))
    ensures var w := Move(Some(s.row.revision), Doubt(ReleaseFailed, 70_000), false);
      Leads(s, PollEvents(i, tmdb, s.row.revision), Written(s, i, l.(reply := EMPTY), w, Stop))
  {
    var w := Move(Some(s.row.revision), Doubt(ReleaseFailed, 70_000), false);
    var script := ToObserve(RemoteMovie(tmdb));
    var m := l.(reply := EMPTY);
    PollWalk(l, tmdb, search);
    WalkLeads(s, i, script, m, OBSERVED);
    var observed := Goes(s, i, Process(m, OBSERVED, None));
    RowMoves(s.row, tmdb, s.row.revision, Idle, Some(AddFailed), Some(s.row.revision), ReleaseFailed, 70_000, false);
    StatementRuns(observed, i, Observe, Stop, Load(Stop), w);
    assert Written(observed, i, m, w, Stop) == Written(s, i, m, w, Stop);
    Chain(s, Events(i, script), observed, [Writes(i, w)], Written(s, i, m, w, Stop));
  }

  /** A failed release is searched again. */
  lemma RetrySearches(s: World, i: nat, l: Locals, tmdb: nat, reconcile: Code)
    requires i in s.workers && s.workers[i] == Process(l, RetrySearch(reconcile, Search(reconcile)), None)
    requires l.acquisition == s.row && l.remote == RemoteMovie(tmdb)
    requires Stage(s.row, tmdb, s.row.revision, Idle, Some(ReleaseFailed))
    ensures Leads(s, Events(i, TO_SECOND_SEARCH) + SearchEvents(i, tmdb, 71_000, Done),
                  SearchSent(s, i, l, 71_000, Done))
  {
    SearchAgainWalk(l, reconcile);
    var m := l.(reply := EMPTY);
    WalkLeads(s, i, TO_SECOND_SEARCH, m, SearchClaim());
    var again := Goes(s, i, Process(m, SearchClaim(), None));
    SearchIsSent(again, i, m, tmdb, 71_000, Done);
    assert SearchSent(again, i, m, 71_000, Done) == SearchSent(s, i, l, 71_000, Done);
    Chain(s, Events(i, TO_SECOND_SEARCH), again, SearchEvents(i, tmdb, 71_000, Done), SearchSent(s, i, l, 71_000, Done));
  }

  // ---- The history -----------------------------------------------------------------------------

  /** Worker 0 confirms the target and its add is rejected, late. Meanwhile worker 1 has
      retried, found the movie, locked the target, and asked for a search with an unknown
      outcome. The late rejection resets the row; worker 2 retries and reports that there is
      no search; worker 3 retries and searches again. */
  function History(revision: nat, tmdb: nat): seq<Event> {
    AddEvents(0, Body(RunConfirm)) + (FirstSearch(revision, tmdb) + (ResetEvents(0) + SecondSearch(revision, tmdb)))
  }

  function FirstSearch(revision: nat, tmdb: nat): seq<Event> {
    LockEvents(1, Body(RunRetry), tmdb) +
    (SearchEvents(1, tmdb, 40_000, Broken(Ambiguous)) + DoubtEvents(1, revision + 3))
  }

  function SecondSearch(revision: nat, tmdb: nat): seq<Event> {
    (Opening(2, Body(RunRetry), ToRetryIdle(RemoteMovie(tmdb))) + PollEvents(2, tmdb, revision + 5)) +
    (Opening(3, Body(RunRetry), ToRetryIdle(RemoteMovie(tmdb))) +
     (Events(3, TO_SECOND_SEARCH) + SearchEvents(3, tmdb, 71_000, Done)))
  }

  lemma HistoryAdds(row: Acquisition, tmdb: nat) returns (t: World)
    requires Ready(row, tmdb)
    ensures Leads(World(row, map[], [], map[]), AddEvents(0, Body(RunConfirm)), t)
    ensures Pending(t.row, tmdb, row.revision + 1)
    ensures 0 in t.workers && t.workers[0] ==
      Process(Locals(t.row, NO_MOVIE, Broken(Rejected)), AddAnswered(LockBody(Reconcile())), None)
    ensures t.calls == [Call(AddMovie, row.revision + 1)]
    ensures t.claims == map[row.revision + 1 := Claimant(AddMovie, 0)]
  {
    var s := World(row, map[], [], map[]);
    var lockRemote := LockBody(Reconcile());
    BodiesAreDisciplined(RunConfirm);
    ConfirmWalk(Locals(row, NO_MOVIE, Nothing), tmdb, lockRemote, ReconcileAdd(lockRemote));
    AddIsRejected(s, 0, tmdb, Body(RunConfirm), lockRemote);
    AddBegins(row, tmdb);
    t := AddSent(Asking(s, 0, ConfirmAdd(lockRemote)), 0, lockRemote);
  }

  lemma RetryLockWalk(a: Acquisition, tmdb: nat, revision: nat)
    requires Pending(a, tmdb, revision)
    ensures Walks(Locals(a, NO_MOVIE, Nothing), Body(RunRetry), Retried(ToLock(RemoteMovie(tmdb))),
                  Locals(a, RemoteMovie(tmdb), EMPTY), Store(Lock, LockWon(Search(Reconcile())), Stop))
  {
    var l := Locals(a, NO_MOVIE, Nothing);
    var reconcile, lockRemote := Reconcile(), LockBody(Reconcile());
    var search := Search(reconcile);
    var proceed := ContinueReplacement(reconcile, search);
    var replacement := Replacement(Recreate(proceed), proceed);
    var m, end := l.(remote := RemoteMovie(tmdb), reply := EMPTY), Store(Lock, LockWon(search), Stop);
    LockWalk(l, RemoteMovie(tmdb), search);
    RetryAddWalk(l, ReconcileAdd(lockRemote), PreviewAndAdopt(lockRemote), reconcile,
                 RetryIdle(reconcile, search, replacement), replacement, ToLock(RemoteMovie(tmdb)), m, end);
  }

  lemma RetryAgainWalk(a: Acquisition, tmdb: nat)
    requires a.Open() && a.Locked() && a.mutation == Idle && a.reason != Some(MonitoringFailed)
    ensures Walks(Locals(a, NO_MOVIE, Nothing), Body(RunRetry), ToRetryIdle(RemoteMovie(tmdb)),
                  Locals(a, RemoteMovie(tmdb), Found(RemoteMovie(tmdb))), RetrySearch(Reconcile(), Search(Reconcile())))
  {
    var reconcile, lockRemote := Reconcile(), LockBody(Reconcile());
    var search := Search(reconcile);
    var proceed := ContinueReplacement(reconcile, search);
    RetryIdleWalk(Locals(a, NO_MOVIE, Nothing), RemoteMovie(tmdb), ReconcileAdd(lockRemote), PreviewAndAdopt(lockRemote),
                  reconcile, search, Replacement(Recreate(proceed), proceed));
  }

  lemma HistoryLocks(s: World, tmdb: nat, revision: nat) returns (t: World)
    requires Pending(s.row, tmdb, revision)
    ensures Leads(s, LockEvents(1, Body(RunRetry), tmdb), t)
    ensures Stage(t.row, tmdb, revision + 1, Idle, None)
    ensures 1 in t.workers && t.workers[1] == Process(Locals(t.row, RemoteMovie(tmdb), EMPTY), SearchClaim(), None)
    ensures 0 in s.workers ==> 0 in t.workers && t.workers[0] == s.workers[0]
    ensures t.calls == s.calls && t.claims == s.claims
  {
    BodiesAreDisciplined(RunRetry);
    RetryLockWalk(s.row, tmdb, revision);
    TargetLocks(s.row, tmdb, revision);
    RetryLocks(s, 1, tmdb, Body(RunRetry), Reconcile());
    t := TargetLocked(Locking(s, 1, tmdb, Reconcile()), 1, tmdb);
  }

  lemma HistorySearches(s: World, tmdb: nat, revision: nat) returns (t: World)
    requires Stage(s.row, tmdb, revision, Idle, None)
    requires 1 in s.workers && s.workers[1] == Process(Locals(s.row, RemoteMovie(tmdb), EMPTY), SearchClaim(), None)
    ensures Leads(s, SearchEvents(1, tmdb, 40_000, Broken(Ambiguous)), t)
    ensures Stage(t.row, tmdb, revision + 1, Searching, None)
    ensures 1 in t.workers && t.workers[1] ==
      Process(Locals(t.row, RemoteMovie(tmdb), Broken(Ambiguous)), SearchAnswered(), None)
    ensures 0 in s.workers ==> 0 in t.workers && t.workers[0] == s.workers[0]
    ensures t.calls == s.calls + [Call(StartMoviesSearch, revision + 1)]
    ensures t.claims == s.claims[revision + 1 := Claimant(StartMoviesSearch, 1)]
  {
    var l := Locals(s.row, RemoteMovie(tmdb), EMPTY);
    SearchIsSent(s, 1, l, tmdb, 40_000, Broken(Ambiguous));
    SearchBegins(s.row, tmdb, revision, None, 40_000);
    t := SearchSent(s, 1, l, 40_000, Broken(Ambiguous));
  }

  lemma HistoryDoubts(s: World, tmdb: nat, revision: nat) returns (t: World)
    requires Stage(s.row, tmdb, revision, Searching, None)
    requires 1 in s.workers && s.workers[1] ==
      Process(Locals(s.row, RemoteMovie(tmdb), Broken(Ambiguous)), SearchAnswered(), None)
    ensures Leads(s, DoubtEvents(1, revision), t)
    ensures Stage(t.row, tmdb, revision + 1, Searching, Some(ConnectionFailed))
    ensures 0 in s.workers ==> 0 in t.workers && t.workers[0] == s.workers[0]
    ensures t.calls == s.calls && t.claims == s.claims
  {
    var l := Locals(s.row, RemoteMovie(tmdb), Broken(Ambiguous));
    DoubtIsRecorded(s, 1, l, tmdb);
    RowMoves(s.row, tmdb, revision, Searching, None, Some(revision), ConnectionFailed, 41_000, false);
    t := Written(s, 1, l, Move(Some(revision), Doubt(ConnectionFailed, 41_000), false), Stop);
  }

  lemma HistoryResets(s: World, tmdb: nat, revision: nat, l: Locals) returns (t: World)
    requires Stage(s.row, tmdb, revision, Searching, Some(ConnectionFailed)) && l.reply == Broken(Rejected)
    requires 0 in s.workers && s.workers[0] == Process(l, AddAnswered(LockBody(Reconcile())), None)
    ensures Leads(s, ResetEvents(0), t)
    ensures Stage(t.row, tmdb, revision + 1, Idle, Some(AddFailed))
    ensures t.calls == s.calls && t.claims == s.claims
  {
    RejectedAddResets(s, 0, l, tmdb, LockBody(Reconcile()));
    RowMoves(s.row, tmdb, revision, Searching, Some(ConnectionFailed), None, AddFailed, 42_000, true);
    t := Written(s, 0, l, Move(None, Doubt(AddFailed, 42_000), true), Stop);
  }

  lemma HistoryPolls(s: World, tmdb: nat, revision: nat) returns (t: World)
    requires Stage(s.row, tmdb, revision, Idle, Some(AddFailed))
    ensures Leads(s, Opening(2, Body(RunRetry), ToRetryIdle(RemoteMovie(tmdb))) + PollEvents(2, tmdb, revision), t)
    ensures Stage(t.row, tmdb, revision + 1, Idle, Some(ReleaseFailed))
    ensures t.calls == s.calls && t.claims == s.claims
  {
    var movie, again := RemoteMovie(tmdb), RetrySearch(Reconcile(), Search(Reconcile()));
    var l := Locals(s.row, movie, Found(movie));
    BodiesAreDisciplined(RunRetry);
    RetryAgainWalk(s.row, tmdb);
    OpeningLeads(s, 2, Body(RunRetry), ToRetryIdle(movie), l, again);
    var retrying := Goes(s, 2, Process(l, again, None));
    PollIsRecorded(retrying, 2, l, tmdb, Search(Reconcile()));
    RowMoves(s.row, tmdb, revision, Idle, Some(AddFailed), Some(revision), ReleaseFailed, 70_000, false);
    t := Written(retrying, 2, l.(reply := EMPTY), Move(Some(revision), Doubt(ReleaseFailed, 70_000), false), Stop);
    Chain(s, Opening(2, Body(RunRetry), ToRetryIdle(movie)), retrying, PollEvents(2, tmdb, revision), t);
  }

  lemma HistorySearchesAgain(s: World, tmdb: nat, revision: nat) returns (t: World)
    requires Stage(s.row, tmdb, revision, Idle, Some(ReleaseFailed))
    ensures Leads(s, Opening(3, Body(RunRetry), ToRetryIdle(RemoteMovie(tmdb))) +
                     (Events(3, TO_SECOND_SEARCH) + SearchEvents(3, tmdb, 71_000, Done)), t)
    ensures t.calls == s.calls + [Call(StartMoviesSearch, revision + 1)]
    ensures t.claims == s.claims[revision + 1 := Claimant(StartMoviesSearch, 3)]
  {
    var movie, again := RemoteMovie(tmdb), RetrySearch(Reconcile(), Search(Reconcile()));
    var l := Locals(s.row, movie, Found(movie));
    BodiesAreDisciplined(RunRetry);
    RetryAgainWalk(s.row, tmdb);
    OpeningLeads(s, 3, Body(RunRetry), ToRetryIdle(movie), l, again);
    var retrying := Goes(s, 3, Process(l, again, None));
    RetrySearches(retrying, 3, l, tmdb, Reconcile());
    SearchBegins(s.row, tmdb, revision, Some(ReleaseFailed), 71_000);
    t := SearchSent(retrying, 3, l, 71_000, Done);
    Chain(s, Opening(3, Body(RunRetry), ToRetryIdle(movie)), retrying,
          Events(3, TO_SECOND_SEARCH) + SearchEvents(3, tmdb, 71_000, Done), t);
  }

  /** The retry that locks the target and asks for the first search. */
  lemma HistoryFirst(s: World, tmdb: nat, revision: nat) returns (t: World)
    requires Pending(s.row, tmdb, revision + 1)
    ensures Leads(s, FirstSearch(revision, tmdb), t)
    ensures Stage(t.row, tmdb, revision + 4, Searching, Some(ConnectionFailed))
    ensures 0 in s.workers ==> 0 in t.workers && t.workers[0] == s.workers[0]
    ensures t.calls == s.calls + [Call(StartMoviesSearch, revision + 3)]
    ensures t.claims == s.claims[revision + 3 := Claimant(StartMoviesSearch, 1)]
  {
    var locked := HistoryLocks(s, tmdb, revision + 1);
    t := HistoryAsks(locked, tmdb, revision + 2);
    Chain(s, LockEvents(1, Body(RunRetry), tmdb), locked,
          SearchEvents(1, tmdb, 40_000, Broken(Ambiguous)) + DoubtEvents(1, revision + 3), t);
  }

  lemma HistoryAsks(s: World, tmdb: nat, revision: nat) returns (t: World)
    requires Stage(s.row, tmdb, revision, Idle, None)
    requires 1 in s.workers && s.workers[1] == Process(Locals(s.row, RemoteMovie(tmdb), EMPTY), SearchClaim(), None)
    ensures Leads(s, SearchEvents(1, tmdb, 40_000, Broken(Ambiguous)) + DoubtEvents(1, revision + 1), t)
    ensures Stage(t.row, tmdb, revision + 2, Searching, Some(ConnectionFailed))
    ensures 0 in s.workers ==> 0 in t.workers && t.workers[0] == s.workers[0]
    ensures t.calls == s.calls + [Call(StartMoviesSearch, revision + 1)]
    ensures t.claims == s.claims[revision + 1 := Claimant(StartMoviesSearch, 1)]
  {
    var searched := HistorySearches(s, tmdb, revision);
    t := HistoryDoubts(searched, tmdb, revision + 1);
    Chain(s, SearchEvents(1, tmdb, 40_000, Broken(Ambiguous)), searched, DoubtEvents(1, revision + 1), t);
  }

  /** The two retries after the reset. */
  lemma HistorySecond(s: World, tmdb: nat, revision: nat) returns (t: World)
    requires Stage(s.row, tmdb, revision + 5, Idle, Some(AddFailed))
    ensures Leads(s, SecondSearch(revision, tmdb), t)
    ensures t.calls == s.calls + [Call(StartMoviesSearch, revision + 7)]
    ensures t.claims == s.claims[revision + 7 := Claimant(StartMoviesSearch, 3)]
  {
    var movie := RemoteMovie(tmdb);
    var polled := HistoryPolls(s, tmdb, revision + 5);
    t := HistorySearchesAgain(polled, tmdb, revision + 6);
    Chain(s, Opening(2, Body(RunRetry), ToRetryIdle(movie)) + PollEvents(2, tmdb, revision + 5), polled,
          Opening(3, Body(RunRetry), ToRetryIdle(movie)) +
          (Events(3, TO_SECOND_SEARCH) + SearchEvents(3, tmdb, 71_000, Done)), t);
  }

  /** The reset of the rejected add, and what follows. */
  lemma HistoryLast(s: World, tmdb: nat, revision: nat, l: Locals) returns (t: World)
    requires Stage(s.row, tmdb, revision + 4, Searching, Some(ConnectionFailed)) && l.reply == Broken(Rejected)
    requires 0 in s.workers && s.workers[0] == Process(l, AddAnswered(LockBody(Reconcile())), None)
    ensures Leads(s, ResetEvents(0) + SecondSearch(revision, tmdb), t)
    ensures t.calls == s.calls + [Call(StartMoviesSearch, revision + 7)]
    ensures t.claims == s.claims[revision + 7 := Claimant(StartMoviesSearch, 3)]
  {
    var reset := HistoryResets(s, tmdb, revision + 4, l);
    t := HistorySecond(reset, tmdb, revision);
    Chain(s, ResetEvents(0), reset, SecondSearch(revision, tmdb), t);
  }

  lemma HistoryRest(s: World, tmdb: nat, r: nat, l: Locals) returns (t: World)
    requires Pending(s.row, tmdb, r + 1) && l.reply == Broken(Rejected)
    requires 0 in s.workers && s.workers[0] == Process(l, AddAnswered(LockBody(Reconcile())), None)
    ensures Leads(s, FirstSearch(r, tmdb) + (ResetEvents(0) + SecondSearch(r, tmdb)), t)
    ensures t.calls == s.calls + [Call(StartMoviesSearch, r + 3)] + [Call(StartMoviesSearch, r + 7)]
    ensures t.claims == s.claims[r + 3 := Claimant(StartMoviesSearch, 1)]
                                [r + 7 := Claimant(StartMoviesSearch, 3)]
  {
    var doubtful := HistoryFirst(s, tmdb, r);
    t := HistoryLast(doubtful, tmdb, r, l);
    Chain(s, FirstSearch(r, tmdb), doubtful, ResetEvents(0) + SecondSearch(r, tmdb), t);
  }

  lemma TwoSearches(s: World, r: nat)
    requires s.calls == [Call(AddMovie, r + 1)] + [Call(StartMoviesSearch, r + 3)] + [Call(StartMoviesSearch, r + 7)]
    requires s.claims == map[r + 1 := Claimant(AddMovie, 0)][r + 3 := Claimant(StartMoviesSearch, 1)]
                            [r + 7 := Claimant(StartMoviesSearch, 3)]
    ensures CallsOf(s.calls, StartMoviesSearch) == 2
    ensures ClaimsOf(s, StartMoviesSearch) == {r + 3, r + 7}
  {
    var add, first := [Call(AddMovie, r + 1)], [Call(StartMoviesSearch, r + 3)];
    assert s.calls[..2] == add + first;
    assert (add + first)[..1] == add;
    assert add[..0] == [];
    assert CallsOf(add, StartMoviesSearch) == 0;
    assert CallsOf(add + first, StartMoviesSearch) == 1;
  }

  /** From any Acquisition ready to be confirmed, this run of the procedures claims two
      searches and sends both commands: the first one's claim was dropped by the reset of
      the older add, before any command was recorded. */
  lemma SecondSearchAfterBlindReset(row: Acquisition, tmdb: nat)
    requires Ready(row, tmdb)
    ensures var start := World(row, map[], [], map[]);
      var end := RunEvents(start, History(row.revision, tmdb));
      && LegalRun(start, History(row.revision, tmdb))
      && CallsOf(end.calls, StartMoviesSearch) == 2
      && ClaimsOf(end, StartMoviesSearch) == {row.revision + 3, row.revision + 7}
  {
    var r := row.revision;
    var added := HistoryAdds(row, tmdb);
    var end := HistoryRest(added, tmdb, r, added.workers[0].locals);
    Chain(World(row, map[], [], map[]), AddEvents(0, Body(RunConfirm)), added,
          FirstSearch(r, tmdb) + (ResetEvents(0) + SecondSearch(r, tmdb)), end);
    TwoSearches(end, r);
  }
}
