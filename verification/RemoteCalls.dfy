/** Service procedures as small programs, run by any number of workers against one
    Acquisition row and a Radarr that answers as it likes. A procedure keeps the row it
    last read, asks Radarr, branches, writes with the revision it holds, and may send a
    mutating command only under a claim it has just won
    (internal/server/radarr_acquisition_service.go, internal/server/radarr_reconciler.go). */
module RemoteCalls {
  import opened Domain
  import opened Acquisitions
  import opened AcquisitionHistory

  /** The commands Radarr must not receive twice for one decision. */
  datatype Kind = AddMovie | RecreateMovie | StartMoviesSearch | GrabRelease

  datatype Request =
    | OpenClient | ReadCatalog | LookupIdentity | FindMovie | GetMovie | ReadQueue | ReadHistory
    | GetCommand | FindRecentCommand | TakeCachedRelease | SetMonitored

  /** Everything but SetMonitored, which may be repeated, only reads. */
  predicate Reads(request: Request) {
    request != SetMonitored
  }

  /** Ambiguous: the request may have reached Radarr. */
  datatype RemoteError = Ambiguous | Missing | Unauthorized | Invalid | Expired | Rejected | Remote

  datatype Movie = Movie(id: nat, tmdb: nat, hasFile: bool, monitored: bool, effective: Effective)

  datatype Reply =
    | Broken(error: RemoteError)
    | Found(movie: Movie)
    | Nothing
    | Items(count: nat, failed: bool, summary: string)
    | Command(id: nat, over: bool)
    | History(grabbed: bool)
    | Done

  /** The variables of a procedure: the row it last read, the remote movie, the last reply. */
  datatype Locals = Locals(acquisition: Acquisition, remote: Movie, reply: Reply)

  type Test = (Locals, int) -> bool

  /** The store calls of the procedures, by what they check and change. */
  datatype Shape =
    | Observe      // TransitionAcquisitionAtRevision
    | ObserveAny   // TransitionAcquisition
    | ResetAt      // ResetAcquisitionMutationAtRevision
    | ResetAny     // ResetAcquisitionMutation
    | Unknown      // TransitionAcquisitionAtRevision with connection_failed
    | Record | Complete | Preview | Resolve | Lock | Replace | Check | Recreation | Reclaim | GiveUp

  datatype Code =
    | Stop
    | Load(next: Code)
    | Ask(request: Request, next: Code)
    | Claim(kind: Kind, won: Code, lost: Code)
    | Send(kind: Kind, next: Code)
    | Store(shape: Shape, done: Code, stale: Code)
    | Branch(test: Test, yes: Code, no: Code)

  /** The statement that wins a claim: adding, a renewed recreation, searching, grabbing. */
  function ClaimWrite(kind: Kind, a: Acquisition, release: Release, now: int): Write {
    match kind
    case AddMovie => BeginAdd(a.revision, now)
    case RecreateMovie => RenewRecreation(a.revision, now)
    case StartMoviesSearch => BeginSearch(a.revision, now)
    case GrabRelease => BeginRelease(a.revision, release, now)
  }

  /** Whether the statement is an instance of the store call, made with the row in hand. */
  predicate Fits(shape: Shape, a: Acquisition, w: Write) {
    match shape
    case Observe => w.Move? && w.expected == Some(a.revision) && !w.reset
    case ObserveAny => w.Move? && w.expected == None && !w.reset
    case ResetAt => w.Move? && w.expected == Some(a.revision) && w.reset
    case ResetAny => w.Move? && w.expected == None && w.reset
    case Unknown =>
      w.Move? && w.expected == Some(a.revision) && !w.reset &&
      w.transition.status == ActionNeeded && w.transition.reason == Some(ConnectionFailed)
    case Record => w.RecordSearch? && w.revision == a.revision
    case Complete => w.CompleteSearch? && w.revision == a.revision
    case Preview => w.RecordPreview? && w.revision == a.revision
    case Resolve => w.ResolveImdb? && w.revision == a.revision
    case Lock => w.LockTarget?
    case Replace => w.ReplaceMovie? && w.revision == a.revision
    case Check => w.BeginReplacementCheck? && w.revision == a.revision
    case Recreation => w.BeginRecreation? && w.revision == a.revision
    case Reclaim => w.ReclaimReplacement? && w.revision == a.revision
    case GiveUp => w.Abandon? && w.revision == a.revision
  }

  /** A procedure sends a command only under a claim of its kind, won since it last read or
      wrote the row, and at most once. */
  ghost predicate Disciplined(code: Code, armed: Option<Kind>) {
    match code
    case Stop => true
    case Load(next) => Disciplined(next, None)
    case Ask(_, next) => Disciplined(next, armed)
    case Claim(kind, won, lost) => Disciplined(won, Some(kind)) && Disciplined(lost, None)
    case Send(kind, next) => armed == Some(kind) && Disciplined(next, None)
    case Store(_, done, stale) => Disciplined(done, None) && Disciplined(stale, None)
    case Branch(_, yes, no) => Disciplined(yes, armed) && Disciplined(no, armed)
  }

  /** A running procedure. `armed` is the claim it has won and not yet used. */
  datatype Process = Process(locals: Locals, code: Code, armed: Option<Kind>)

  datatype Call = Call(kind: Kind, revision: nat)

  datatype Claimant = Claimant(kind: Kind, worker: nat)

  /** One row, its workers, the commands sent so far and the claims won so far, each under
      the revision it produced. */
  datatype World = World(row: Acquisition, workers: map<nat, Process>, calls: seq<Call>, claims: map<nat, Claimant>)

  /** What the environment chooses at one instruction: Radarr's reply, the payload of a
      statement, the selected release, the clock. */
  datatype Choice = Choice(reply: Reply, write: Write, release: Release, now: int)

  datatype Event =
    | Begin(worker: nat, code: Code)
    | Advance(worker: nat, choice: Choice)
    | Crash(worker: nat)
    | Other(write: Write)

  function Answered(l: Locals, r: Reply): Locals {
    l.(reply := r, remote := if r.Found? then r.movie else l.remote)
  }

  function Goes(s: World, i: nat, p: Process): World {
    s.(workers := s.workers[i := p])
  }

  /** One instruction of one worker. */
  function Step(s: World, i: nat, p: Process, c: Choice): World {
    var l := p.locals;
    match p.code
    case Stop => s
    case Load(next) =>
      Goes(s, i, if s.row.Visible() then Process(l.(acquisition := s.row), next, None) else Process(l, Stop, None))
    case Ask(_, next) => Goes(s, i, Process(Answered(l, c.reply), next, p.armed))
    case Claim(kind, won, lost) =>
      var w := ClaimWrite(kind, l.acquisition, c.release, c.now);
      if !Offered(s.row, w) then s
      else if Apply(s.row, w).Refused? then Goes(s, i, Process(l, lost, None))
      else
        var row := Apply(s.row, w).row;
        Goes(s, i, Process(l.(acquisition := row), won, Some(kind)))
          .(row := row, claims := s.claims[row.revision := Claimant(kind, i)])
    case Send(kind, next) =>
      Goes(s, i, Process(Answered(l, c.reply), next, None)).(calls := s.calls + [Call(kind, l.acquisition.revision)])
    case Store(shape, done, stale) =>
      if !Fits(shape, l.acquisition, c.write) || !Offered(s.row, c.write) then s
      else if Apply(s.row, c.write).Refused? then Goes(s, i, Process(l, stale, None))
      else Goes(s, i, Process(l.(acquisition := Apply(s.row, c.write).row), done, None)).(row := Apply(s.row, c.write).row)
    case Branch(test, yes, no) => Goes(s, i, Process(l, if test(l, c.now) then yes else no, p.armed))
  }

  const NO_MOVIE := Movie(0, 0, false, false, NO_EFFECTIVE)

  function Next(s: World, e: Event): World {
    match e
    case Begin(i, code) => Goes(s, i, Process(Locals(s.row, NO_MOVIE, Nothing), Load(code), None))
    case Crash(i) => s.(workers := s.workers - {i})
    case Other(w) => s.(row := Attempt(s.row, w))
    case Advance(i, c) => if i in s.workers then Step(s, i, s.workers[i], c) else s
  }

  ghost predicate Legal(s: World, e: Event) {
    match e
    case Begin(_, code) => Disciplined(code, None)
    case Other(w) => Offered(s.row, w)
    case _ => true
  }

  // ---- One command for one claim ----------------------------------------------------

  predicate Unused(calls: seq<Call>, revision: nat) {
    forall k :: 0 <= k < |calls| ==> calls[k].revision != revision
  }

  ghost predicate ProcessOk(s: World, i: nat, p: Process) {
    && Disciplined(p.code, p.armed)
    && (p.armed.Some? ==>
          var r := p.locals.acquisition.revision;
          r in s.claims && s.claims[r] == Claimant(p.armed.value, i) && Unused(s.calls, r))
  }

  ghost predicate Inv(s: World) {
    && RowOk(s.row)
    && (forall r :: r in s.claims ==> r <= s.row.revision)
    && (forall i :: i in s.workers ==> ProcessOk(s, i, s.workers[i]))
    && (forall k :: 0 <= k < |s.calls| ==>
          s.calls[k].revision in s.claims && s.claims[s.calls[k].revision].kind == s.calls[k].kind)
    && (forall k :: 0 <= k < |s.calls| ==> Unused(s.calls[..k], s.calls[k].revision))
  }

  lemma ClaimIsFresh(s: World, kind: Kind, a: Acquisition, release: Release, now: int)
    requires Inv(s)
    requires var w := ClaimWrite(kind, a, release, now); Offered(s.row, w) && Apply(s.row, w).Written?
    ensures var w := ClaimWrite(kind, a, release, now);
      && RowOk(Apply(s.row, w).row)
      && Apply(s.row, w).row.revision == s.row.revision + 1
      && Apply(s.row, w).row.revision !in s.claims
      && Unused(s.calls, Apply(s.row, w).row.revision)
  {
    var w := ClaimWrite(kind, a, release, now);
    ApplyKeepsRowOk(s.row, w);
    ApplyRaisesRevision(s.row, w);
  }

  /** A worker's own condition depends on the commands and the claims only. */
  lemma ProcessCarries(s: World, t: World, i: nat, p: Process)
    requires ProcessOk(s, i, p) && t.calls == s.calls
    requires forall r :: r in s.claims ==> r in t.claims && t.claims[r] == s.claims[r]
    ensures ProcessOk(t, i, p)
  {
  }

  lemma ClaimWon(s: World, i: nat, kind: Kind, l: Locals, won: Code, row: Acquisition)
    requires Inv(s) && i in s.workers && RowOk(row) && row.revision == s.row.revision + 1
    requires row.revision !in s.claims && Unused(s.calls, row.revision) && Disciplined(won, Some(kind))
    ensures Inv(Goes(s, i, Process(l.(acquisition := row), won, Some(kind)))
                .(row := row, claims := s.claims[row.revision := Claimant(kind, i)]))
  {
    var t := Goes(s, i, Process(l.(acquisition := row), won, Some(kind)))
             .(row := row, claims := s.claims[row.revision := Claimant(kind, i)]);
    forall j | j in t.workers ensures ProcessOk(t, j, t.workers[j]) {
      if j != i {
        ProcessCarries(s, t, j, s.workers[j]);
      }
    }
  }

  lemma ClaimKeepsInv(s: World, i: nat, p: Process, c: Choice)
    requires Inv(s) && i in s.workers && s.workers[i] == p && p.code.Claim?
    ensures Inv(Step(s, i, p, c))
  {
    var w := ClaimWrite(p.code.kind, p.locals.acquisition, c.release, c.now);
    assert ProcessOk(s, i, p);
    if Offered(s.row, w) {
      if Apply(s.row, w).Written? {
        ClaimIsFresh(s, p.code.kind, p.locals.acquisition, c.release, c.now);
        ClaimWon(s, i, p.code.kind, p.locals, p.code.won, Apply(s.row, w).row);
      } else {
        UnarmedKeepsInv(s, i, Process(p.locals, p.code.lost, None), s.row);
      }
    }
  }

  lemma SendKeepsInv(s: World, i: nat, p: Process, c: Choice)
    requires Inv(s) && i in s.workers && s.workers[i] == p && p.code.Send?
    ensures Inv(Step(s, i, p, c))
  {
    var t := Step(s, i, p, c);
    var r := p.locals.acquisition.revision;
    assert ProcessOk(s, i, p);
    forall j | j in t.workers ensures ProcessOk(t, j, t.workers[j]) {
      assert j in s.workers && ProcessOk(s, j, s.workers[j]);
    }
    forall k | 0 <= k < |t.calls| ensures Unused(t.calls[..k], t.calls[k].revision) {
      assert t.calls[..k] == s.calls[..k];
    }
  }

  /** A worker moves on without a claim, and the row may have grown. */
  lemma UnarmedKeepsInv(s: World, i: nat, p: Process, row: Acquisition)
    requires Inv(s) && RowOk(row) && s.row.revision <= row.revision && Disciplined(p.code, None) && p.armed.None?
    ensures Inv(Goes(s, i, p).(row := row))
  {
    var t := Goes(s, i, p).(row := row);
    forall j | j in t.workers ensures ProcessOk(t, j, t.workers[j]) {
      if j != i {
        ProcessCarries(s, t, j, s.workers[j]);
      }
    }
  }

  lemma StoreKeepsInv(s: World, i: nat, p: Process, c: Choice)
    requires Inv(s) && i in s.workers && s.workers[i] == p && p.code.Store?
    ensures Inv(Step(s, i, p, c))
  {
    assert ProcessOk(s, i, p);
    if Fits(p.code.shape, p.locals.acquisition, c.write) && Offered(s.row, c.write) {
      AttemptKeeps(s.row, c.write);
      if Apply(s.row, c.write).Written? {
        var row := Attempt(s.row, c.write);
        UnarmedKeepsInv(s, i, Process(p.locals.(acquisition := row), p.code.done, None), row);
      } else {
        UnarmedKeepsInv(s, i, Process(p.locals, p.code.stale, None), s.row);
      }
    }
  }

  lemma LocalStepKeepsInv(s: World, i: nat, p: Process, c: Choice)
    requires Inv(s) && i in s.workers && s.workers[i] == p && !p.code.Claim? && !p.code.Send? && !p.code.Store?
    ensures Inv(Step(s, i, p, c))
  {
    var t := Step(s, i, p, c);
    assert ProcessOk(s, i, p);
    forall j | j in t.workers ensures ProcessOk(t, j, t.workers[j]) {
      assert j in s.workers && ProcessOk(s, j, s.workers[j]);
    }
  }

  lemma NextKeepsInv(s: World, e: Event)
    requires Inv(s) && Legal(s, e)
    ensures Inv(Next(s, e))
  {
    match e
    case Begin(i, code) =>
      var t := Next(s, e);
      forall j | j in t.workers ensures ProcessOk(t, j, t.workers[j]) {
        assert j == i || ProcessOk(s, j, s.workers[j]);
      }
    case Crash(i) =>
      var t := Next(s, e);
      forall j | j in t.workers ensures ProcessOk(t, j, t.workers[j]) {
        assert ProcessOk(s, j, s.workers[j]);
      }
    case Other(w) =>
      AttemptKeeps(s.row, w);
      var t := Next(s, e);
      forall j | j in t.workers ensures ProcessOk(t, j, t.workers[j]) {
        assert ProcessOk(s, j, s.workers[j]);
      }
    case Advance(i, c) =>
      if i in s.workers {
        match s.workers[i].code
        case Claim(_, _, _) => ClaimKeepsInv(s, i, s.workers[i], c);
        case Send(_, _) => SendKeepsInv(s, i, s.workers[i], c);
        case Store(_, _, _) => StoreKeepsInv(s, i, s.workers[i], c);
        case _ => LocalStepKeepsInv(s, i, s.workers[i], c);
      }
  }

  function RunEvents(s: World, events: seq<Event>): World
    decreases |events|
  {
    if events == [] then s else RunEvents(Next(s, events[0]), events[1..])
  }

  ghost predicate LegalRun(s: World, events: seq<Event>)
    decreases |events|
  {
    events == [] || (Legal(s, events[0]) && LegalRun(Next(s, events[0]), events[1..]))
  }

  lemma {:induction false} RunKeepsInv(s: World, events: seq<Event>)
    requires Inv(s) && LegalRun(s, events)
    ensures Inv(RunEvents(s, events))
    decreases |events|
  {
    if events != [] {
      NextKeepsInv(s, events[0]);
      RunKeepsInv(Next(s, events[0]), events[1..]);
    }
  }

  function ClaimsOf(s: World, kind: Kind): set<nat> {
    set r | r in s.claims && s.claims[r].kind == kind
  }

  function CallsOf(calls: seq<Call>, kind: Kind): nat {
    if calls == [] then 0
    else CallsOf(calls[..|calls| - 1], kind) + if calls[|calls| - 1].kind == kind then 1 else 0
  }

  lemma {:induction false} CallsAreClaims(calls: seq<Call>, kind: Kind, claimed: set<nat>)
    requires forall k :: 0 <= k < |calls| && calls[k].kind == kind ==> calls[k].revision in claimed
    requires forall k :: 0 <= k < |calls| ==> Unused(calls[..k], calls[k].revision)
    ensures CallsOf(calls, kind) <= |claimed|
    decreases |calls|
  {
    if calls != [] {
      var n := |calls| - 1;
      var last, rest := calls[n], calls[..n];
      forall k | 0 <= k < n ensures Unused(rest[..k], rest[k].revision) {
        assert rest[..k] == calls[..k];
      }
      assert Unused(rest, last.revision);
      if last.kind == kind {
        CallsAreClaims(rest, kind, claimed - {last.revision});
      } else {
        CallsAreClaims(rest, kind, claimed);
      }
    }
  }

  /** Over any interleaving of procedures, crashes and other writes, Radarr receives at most
      one command of a kind for each claim of that kind that was won. */
  lemma OneCommandPerClaim(row: Acquisition, events: seq<Event>, kind: Kind)
    requires RowOk(row) && LegalRun(World(row, map[], [], map[]), events)
    ensures var end := RunEvents(World(row, map[], [], map[]), events);
      CallsOf(end.calls, kind) <= |ClaimsOf(end, kind)|
  {
    var start := World(row, map[], [], map[]);
    RunKeepsInv(start, events);
    var end := RunEvents(start, events);
    CallsAreClaims(end.calls, kind, ClaimsOf(end, kind));
  }

  lemma SearchBeginsFromIdle(row: Acquisition, revision: nat, at: int)
    requires Apply(row, BeginSearch(revision, at)).Written?
    ensures row.mutation == Idle && Apply(row, BeginSearch(revision, at)).row.mutation == Searching
  {
  }

  /** A search claim is won only from idle, and every claim won counts once. */
  lemma SearchClaimFromIdle(s: World, i: nat, c: Choice)
    requires Inv(s) && i in s.workers && s.workers[i].code.Claim? && s.workers[i].code.kind == StartMoviesSearch
    ensures var t := Next(s, Advance(i, c));
      && (t.claims != s.claims ==> s.row.mutation == Idle && t.row.mutation == Searching)
      && (t.claims != s.claims ==> |ClaimsOf(t, StartMoviesSearch)| == |ClaimsOf(s, StartMoviesSearch)| + 1)
  {
    var a := s.workers[i].locals.acquisition;
    var w := ClaimWrite(StartMoviesSearch, a, c.release, c.now);
    if Offered(s.row, w) && Apply(s.row, w).Written? {
      ClaimIsFresh(s, StartMoviesSearch, a, c.release, c.now);
      SearchBeginsFromIdle(s.row, a.revision, c.now);
      ClaimCounts(s, Next(s, Advance(i, c)), Apply(s.row, w).row.revision, Claimant(StartMoviesSearch, i));
    }
  }

  lemma ClaimCounts(s: World, t: World, revision: nat, claimant: Claimant)
    requires revision !in s.claims && t.claims == s.claims[revision := claimant]
    ensures |ClaimsOf(t, claimant.kind)| == |ClaimsOf(s, claimant.kind)| + 1
  {
    assert ClaimsOf(t, claimant.kind) == ClaimsOf(s, claimant.kind) + {revision};
  }
}
