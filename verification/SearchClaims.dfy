/** What becomes of an automatic search whose outcome is unknown: the claim is kept, later
    procedures only read, and the one way to lose it unseen
    (internal/server/radarr_acquisition_service.go). */
module SearchClaims {
  import opened Domain
  import opened Acquisitions
  import opened AcquisitionHistory
  import opened RemoteCalls
  import opened AcquisitionService

  // ---- Later procedures only read -------------------------------------------------------

  /** Statements that match no locked row. */
  predicate NeedsUnlocked(shape: Shape) {
    shape == Preview || shape == Resolve || shape == Lock
  }

  /** On a locked row: wins no claim, sends no command, changes nothing in Radarr, and names
      the revision of every reset. */
  ghost predicate Harmless(code: Code) {
    match code
    case Stop => true
    case Load(next) => Harmless(next)
    case Ask(request, next) => Reads(request) && Harmless(next)
    case Claim(_, _, _) => false
    case Send(_, _) => false
    case Store(shape, done, stale) => shape != ResetAny && (NeedsUnlocked(shape) || Harmless(done)) && Harmless(stale)
    case Branch(_, yes, no) => Harmless(yes) && Harmless(no)
  }

  /** Run from these variables against a locked row, the code only reads Radarr, whatever
      Radarr answers and whenever it runs. */
  ghost predicate ReadsOnly(code: Code, l: Locals) {
    match code
    case Stop => true
    case Load(next) => Harmless(next)
    case Ask(request, next) => Reads(request) && forall r: Reply :: ReadsOnly(next, Answered(l, r))
    case Claim(_, _, _) => false
    case Send(_, _) => false
    case Store(shape, done, stale) => shape != ResetAny && (NeedsUnlocked(shape) || Harmless(done)) && Harmless(stale)
    case Branch(test, yes, no) => forall now: int :: ReadsOnly(if test(l, now) then yes else no, l)
  }

  lemma {:induction false} HarmlessReadsOnly(code: Code, l: Locals)
    requires Harmless(code)
    ensures ReadsOnly(code, l)
    decreases code
  {
    match code
    case Ask(_, next) =>
      forall r: Reply ensures ReadsOnly(next, Answered(l, r)) {
        HarmlessReadsOnly(next, Answered(l, r));
      }
    case Branch(test, yes, no) =>
      HarmlessReadsOnly(yes, l);
      HarmlessReadsOnly(no, l);
    case _ =>
  }

  lemma ReadingRules()
    ensures forall request, next, l {:trigger ReadsOnly(Ask(request, next), l)} ::
      Reads(request) && (forall r: Reply :: ReadsOnly(next, Answered(l, r))) ==> ReadsOnly(Ask(request, next), l)
    ensures forall test: Test, yes, no, l {:trigger ReadsOnly(Branch(test, yes, no), l)} ::
      (forall now: int :: test(l, now) ==> ReadsOnly(yes, l)) && (forall now: int :: !test(l, now) ==> ReadsOnly(no, l))
      ==> ReadsOnly(Branch(test, yes, no), l)
    ensures forall shape, done, stale, l {:trigger ReadsOnly(Store(shape, done, stale), l)} ::
      shape != ResetAny && (NeedsUnlocked(shape) || Harmless(done)) && Harmless(stale) ==>
      ReadsOnly(Store(shape, done, stale), l)
    ensures Harmless(OBSERVED) && Harmless(RESET) && Harmless(PRESERVED)
  {
    forall test: Test, yes, no, l |
      (forall now: int :: test(l, now) ==> ReadsOnly(yes, l)) && (forall now: int :: !test(l, now) ==> ReadsOnly(no, l))
      ensures ReadsOnly(Branch(test, yes, no), l)
    {
      forall now: int ensures ReadsOnly(if test(l, now) then yes else no, l) {
      }
    }
  }

  lemma HarmlessRules()
    ensures forall request, next {:trigger Harmless(Ask(request, next))} ::
      Reads(request) && Harmless(next) ==> Harmless(Ask(request, next))
    ensures forall test: Test, yes, no {:trigger Harmless(Branch(test, yes, no))} ::
      Harmless(yes) && Harmless(no) ==> Harmless(Branch(test, yes, no))
    ensures forall shape, done, stale {:trigger Harmless(Store(shape, done, stale))} ::
      shape != ResetAny && (NeedsUnlocked(shape) || Harmless(done)) && Harmless(stale) ==>
      Harmless(Store(shape, done, stale))
    ensures Harmless(OBSERVED) && Harmless(RESET) && Harmless(PRESERVED)
  {
  }

  lemma RecoverReadsOnly(l: Locals)
    ensures ReadsOnly(Recover(), l)
  {
    HarmlessRules();
    HarmlessReadsOnly(Recover(), l);
  }

  lemma ReconcileReadsOnly(l: Locals)
    requires l.acquisition.mutation == Searching
    ensures ReadsOnly(Reconcile(), l)
  {
    ReadingRules();
    RecoverReadsOnly(l);
  }

  lemma RetryReadsOnly(
    l: Locals, reconcileAdd: Code, previewAndAdopt: Code, reconcile: Code, retryIdle: Code, replacement: Code)
    requires l.acquisition.mutation == Searching && l.acquisition.Locked()
    ensures ReadsOnly(Retry(reconcileAdd, previewAndAdopt, reconcile, retryIdle, replacement), l)
  {
    ReadingRules();
    RecoverReadsOnly(l);
  }

  lemma ConfirmReadsOnly(l: Locals, lockRemote: Code, reconcileAdd: Code)
    requires l.acquisition.Locked()
    ensures ReadsOnly(Confirm(lockRemote, reconcileAdd), l)
  {
    ReadingRules();
  }

  lemma PreviewReadsOnly(l: Locals, lockRemote: Code)
    ensures ReadsOnly(PreviewAndAdopt(lockRemote), l)
  {
    HarmlessRules();
    HarmlessReadsOnly(PreviewAndAdopt(lockRemote), l);
  }

  lemma GrabReadsOnly(l: Locals)
    requires l.acquisition.mutation == Searching
    ensures ReadsOnly(Grab(), l)
  {
    ReadingRules();
  }

  lemma NoteReadsOnly(l: Locals, next: Code)
    requires Harmless(next) && ReadsOnly(next, l)
    ensures ReadsOnly(Note(next), l) && ReadsOnly(Settle(next), l)
  {
    ReadingRules();
  }

  lemma ReviewMovieReadsOnly(l: Locals, next: Code, note: Code, settled: Code)
    requires Harmless(next) && forall l': Locals :: ReadsOnly(note, l') && ReadsOnly(settled, l')
    ensures ReadsOnly(ReviewMovie(next, note, settled), l)
  {
    ReadingRules();
  }

  lemma ReviewRemoteReadsOnly(l: Locals, note: Code, settled: Code, reviewMovie: Code)
    requires forall l': Locals :: ReadsOnly(note, l') && ReadsOnly(settled, l') && ReadsOnly(reviewMovie, l')
    ensures ReadsOnly(ReviewRemote(note, settled, reviewMovie), l)
  {
    ReadingRules();
  }

  lemma ReviewReadsOnly(l: Locals, next: Code)
    requires Harmless(next) && forall l': Locals :: ReadsOnly(next, l')
    ensures ReadsOnly(Review(next), l)
  {
    var note, settled := Note(next), Settle(next);
    forall l': Locals ensures ReadsOnly(note, l') && ReadsOnly(settled, l') {
      NoteReadsOnly(l', next);
    }
    forall l': Locals ensures ReadsOnly(ReviewMovie(next, note, settled), l') {
      ReviewMovieReadsOnly(l', next, note, settled);
    }
    ReviewRemoteReadsOnly(l, note, settled, ReviewMovie(next, note, settled));
    ReadingRules();
  }

  /** While a search is claimed, every procedure only reads Radarr: a retry, a poll, a review
      or an abandonment cannot start a second search. */
  lemma ProceduresReadOnly(p: Procedure, l: Locals)
    requires RowOk(l.acquisition) && l.acquisition.mutation == Searching
    ensures ReadsOnly(Body(p), l)
  {
    match p
    case RunConfirm => ConfirmReadsOnly(l, LockBody(Reconcile()), ReconcileAdd(LockBody(Reconcile())));
    case RunPreview => PreviewReadsOnly(l, LockBody(Reconcile()));
    case RunRetry =>
      var reconcile, lockRemote := Reconcile(), LockBody(Reconcile());
      var search := Search(reconcile);
      var proceed := ContinueReplacement(reconcile, search);
      var replacement := Replacement(Recreate(proceed), proceed);
      RetryReadsOnly(l, ReconcileAdd(lockRemote), PreviewAndAdopt(lockRemote), reconcile,
                     RetryIdle(reconcile, search, replacement), replacement);
    case RunReconcile => ReconcileReadsOnly(l);
    case RunGrab => GrabReadsOnly(l);
    case RunReview => ReviewReadsOnly(l, Stop);
    case RunAbandon =>
      var giveUp := Branch((l: Locals, now: int) => !l.acquisition.Open(), Stop, Store(GiveUp, Stop, Stop));
      ReadingRules();
      ReviewReadsOnly(l, giveUp);
  }

  // ---- An ambiguous answer keeps the claim ------------------------------------------------

  /** The answer to StartMoviesSearch is ambiguous: the next two instructions record the
      doubt and leave the claim, or find the row changed and write nothing. */
  lemma AmbiguousAnswerKeepsClaim(s: World, i: nat, p: Process, decide: Choice, write: Choice)
    requires i in s.workers && s.workers[i] == p
    requires p.code == SearchAnswered() && p.locals.reply == Broken(Ambiguous)
    ensures var t := Next(Next(s, Advance(i, decide)), Advance(i, write));
      && t.row.mutation == s.row.mutation && t.row.searchClaimedAt == s.row.searchClaimedAt
      && t.calls == s.calls && i in t.workers && Harmless(t.workers[i].code)
      && (t.row != s.row ==> t.row.reason == Some(ConnectionFailed) && t.row.revision == s.row.revision + 1)
  {
    var decided := Goes(s, i, Process(p.locals, PRESERVED, p.armed));
    assert Next(s, Advance(i, decide)) == decided;
    DoubtKeepsClaim(decided, i, write);
  }

  lemma DoubtKeepsClaim(s: World, i: nat, write: Choice)
    requires i in s.workers && s.workers[i].code == PRESERVED
    ensures var t := Next(s, Advance(i, write));
      && t.row.mutation == s.row.mutation && t.row.searchClaimedAt == s.row.searchClaimedAt
      && t.calls == s.calls && i in t.workers && Harmless(t.workers[i].code)
      && (t.row != s.row ==> t.row.reason == Some(ConnectionFailed) && t.row.revision == s.row.revision + 1)
  {
    if Fits(Unknown, s.workers[i].locals.acquisition, write.write) {
      DoubtMoves(s.row, write.write);
    }
  }

  lemma DoubtMoves(a: Acquisition, w: Write)
    requires w.Move? && !w.reset && w.transition.reason == Some(ConnectionFailed)
    ensures Attempt(a, w).mutation == a.mutation && Attempt(a, w).searchClaimedAt == a.searchClaimedAt
    ensures Apply(a, w).Written? ==>
      Attempt(a, w).reason == Some(ConnectionFailed) && Attempt(a, w).revision == a.revision + 1
  {
  }

  /** An observation that asks an admin to act. */
  function Doubt(reason: Reason, at: int): Transition {
    Transition(ActionNeeded, Some(reason), "", NoQueue, "", None, at)
  }

  // ---- When the claim ends ----------------------------------------------------------------

  /** The guards of the statements that end a search claim: recording its command, a reset,
      an abandonment, a wildcard's cancellation. */
  predicate Drops(a: Acquisition, w: Write) {
    match w
    case RecordSearch(revision, _, _) => Current(a, revision)
    case Move(expected, t, reset) =>
      reset && a.Open() && (expected.None? || expected.value == a.revision) && t.status != Abandoned
    case Abandon(revision, _, abandonment, _) => Current(a, revision) && !Blank(abandonment)
    case CancelWildcard(_, _) => true
    case _ => false
  }

  /** A statement ends the search claim exactly when its guard among these holds. */
  lemma SearchEndsExactly(a: Acquisition, w: Write)
    requires RowOk(a) && Offered(a, w) && a.mutation == Searching
    ensures Attempt(a, w).mutation != Searching <==> Drops(a, w)
    ensures Drops(a, w) ==> Apply(a, w).Written?
  {
  }

  /** The next event ends the search claim: a worker's statement, or one from outside the
      procedures, whose guard holds of the row. */
  predicate EndsNow(s: World, e: Event) {
    match e
    case Other(w) => Drops(s.row, w)
    case Advance(i, c) =>
      && i in s.workers && s.workers[i].code.Store?
      && Fits(s.workers[i].code.shape, s.workers[i].locals.acquisition, c.write)
      && Offered(s.row, c.write) && Drops(s.row, c.write)
    case _ => false
  }

  lemma StepEndsExactly(s: World, e: Event)
    requires Inv(s) && Legal(s, e) && s.row.mutation == Searching
    ensures Next(s, e).row.mutation != Searching <==> EndsNow(s, e)
  {
    match e
    case Other(w) => SearchEndsExactly(s.row, w);
    case Advance(i, c) =>
      if i in s.workers {
        var p := s.workers[i];
        match p.code
        case Store(_, _, _) =>
          if Offered(s.row, c.write) {
            SearchEndsExactly(s.row, c.write);
          }
        case Claim(kind, _, _) =>
          var w := ClaimWrite(kind, p.locals.acquisition, c.release, c.now);
          if Offered(s.row, w) {
            SearchEndsExactly(s.row, w);
          }
        case _ =>
      }
    case _ =>
  }

  /** The row stays claimed by a search in every state of the run. */
  predicate Lasts(s: World, events: seq<Event>)
    decreases |events|
  {
    s.row.mutation == Searching && (events == [] || Lasts(Next(s, events[0]), events[1..]))
  }

  predicate SomeoneEnds(s: World, events: seq<Event>)
    decreases |events|
  {
    events != [] && (EndsNow(s, events[0]) || SomeoneEnds(Next(s, events[0]), events[1..]))
  }

  /** Over any run, a search claim lasts exactly when no event of the run ends it. */
  lemma {:induction false} ClaimStaysUntilEnded(s: World, events: seq<Event>)
    requires Inv(s) && LegalRun(s, events) && s.row.mutation == Searching
    ensures Lasts(s, events) <==> !SomeoneEnds(s, events)
    decreases |events|
  {
    if events != [] {
      StepEndsExactly(s, events[0]);
      if Next(s, events[0]).row.mutation == Searching {
        NextKeepsInv(s, events[0]);
        ClaimStaysUntilEnded(Next(s, events[0]), events[1..]);
      } else {
        assert !Lasts(Next(s, events[0]), events[1..]);
      }
    }
  }

  /** A worker about to write holds the revision the row has now: it has read the claim. */
  predicate HasReadClaim(s: World, i: nat) {
    i in s.workers && s.workers[i].locals.acquisition.revision == s.row.revision
  }

  /** A worker that has not read the claim ends it exactly when it stands at a reset that
      names no revision and the row is open. */
  lemma UnseenLossExactly(s: World, i: nat, c: Choice)
    requires Inv(s) && s.row.mutation == Searching && i in s.workers && !HasReadClaim(s, i)
    ensures var p := s.workers[i];
      Next(s, Advance(i, c)).row.mutation != Searching <==>
      && p.code.Store? && p.code.shape == ResetAny && s.row.Visible() && s.row.Open()
      && Fits(ResetAny, p.locals.acquisition, c.write) && Offered(s.row, c.write)
      && c.write.transition.status != Abandoned
  {
    StepEndsExactly(s, Advance(i, c));
  }

  /** So such a worker can end the claim with its next statement exactly when that
      statement is such a reset and the row is open. */
  lemma UnseenLossGuard(s: World, i: nat)
    requires Inv(s) && s.row.mutation == Searching && i in s.workers && !HasReadClaim(s, i)
    ensures (exists c: Choice :: Next(s, Advance(i, c)).row.mutation != Searching) <==>
      s.workers[i].code.Store? && s.workers[i].code.shape == ResetAny && s.row.Visible() && s.row.Open()
  {
    var c := Choice(Nothing, Move(None, Doubt(AddFailed, 0), true), Release("", "", 0, 0), 0);
    UnseenLossExactly(s, i, c);
    forall c: Choice | Next(s, Advance(i, c)).row.mutation != Searching
      ensures s.workers[i].code.Store? && s.workers[i].code.shape == ResetAny && s.row.Visible() && s.row.Open()
    {
      UnseenLossExactly(s, i, c);
    }
  }

  // ---- Runs in which later procedures only read ---------------------------------------------

  /** A worker that only reads, or is about to load the row for a procedure. */
  ghost predicate Reader(p: Process) {
    ReadsOnly(p.code, p.locals) || exists q: Procedure :: p.code == Load(Body(q))
  }

  lemma LoadStep(s: World, i: nat, c: Choice, next: Code)
    requires RowOk(s.row) && s.row.mutation == Searching && i in s.workers && s.workers[i].code == Load(next)
    requires ReadsOnly(next, s.workers[i].locals.(acquisition := s.row))
    ensures var t := Next(s, Advance(i, c));
      && t.calls == s.calls && t.claims == s.claims && t.workers.Keys == s.workers.Keys
      && ReadsOnly(t.workers[i].code, t.workers[i].locals)
  {
  }

  lemma LockedRefuses(a: Acquisition, held: Acquisition, shape: Shape, w: Write)
    requires a.Locked() && NeedsUnlocked(shape) && Fits(shape, held, w)
    ensures Apply(a, w).Refused?
  {
  }

  lemma ReadingStore(s: World, i: nat, c: Choice)
    requires s.row.Locked() && i in s.workers && s.workers[i].code.Store?
    requires ReadsOnly(s.workers[i].code, s.workers[i].locals)
    ensures var t := Next(s, Advance(i, c));
      && t.calls == s.calls && t.claims == s.claims && t.workers.Keys == s.workers.Keys
      && ReadsOnly(t.workers[i].code, t.workers[i].locals)
  {
    var l, shape := s.workers[i].locals, s.workers[i].code.shape;
    HarmlessReadsOnly(s.workers[i].code.stale, l);
    if !NeedsUnlocked(shape) {
      HarmlessReadsOnly(s.workers[i].code.done, l.(acquisition := Attempt(s.row, c.write)));
    } else if Fits(shape, l.acquisition, c.write) {
      LockedRefuses(s.row, l.acquisition, shape, c.write);
    }
  }

  lemma ReadingStep(s: World, i: nat, c: Choice)
    requires s.row.Locked() && i in s.workers && ReadsOnly(s.workers[i].code, s.workers[i].locals)
    ensures var t := Next(s, Advance(i, c));
      && t.calls == s.calls && t.claims == s.claims && t.workers.Keys == s.workers.Keys
      && ReadsOnly(t.workers[i].code, t.workers[i].locals)
  {
    match s.workers[i].code
    case Load(next) => HarmlessReadsOnly(next, s.workers[i].locals.(acquisition := s.row));
    case Store(_, _, _) => ReadingStore(s, i, c);
    case _ =>
  }

  /** A reader's step sends no command, wins no claim, and leaves a reader behind. */
  lemma ReaderStep(s: World, i: nat, c: Choice)
    requires Inv(s) && s.row.mutation == Searching && i in s.workers && Reader(s.workers[i])
    ensures var t := Next(s, Advance(i, c));
      && t.calls == s.calls && t.claims == s.claims && t.workers.Keys == s.workers.Keys && Reader(t.workers[i])
  {
    if ReadsOnly(s.workers[i].code, s.workers[i].locals) {
      ReadingStep(s, i, c);
    } else {
      var q: Procedure :| s.workers[i].code == Load(Body(q));
      ProceduresReadOnly(q, s.workers[i].locals.(acquisition := s.row));
      LoadStep(s, i, c, Body(q));
    }
  }

  /** A worker's instruction leaves the other workers where they are. */
  lemma OthersStay(s: World, e: Event, j: nat)
    requires j in s.workers && (e.Other? || e.worker != j)
    ensures j in Next(s, e).workers && Next(s, e).workers[j] == s.workers[j]
  {
  }

  /** The workers that began since, as a run goes on. */
  function Joined(newcomers: set<nat>, e: Event): set<nat> {
    match e
    case Begin(i, _) => newcomers + {i}
    case Crash(i) => newcomers - {i}
    case _ => newcomers
  }

  /** No step of a worker that began since sends a command or wins a claim. */
  ghost predicate NewcomersRead(s: World, events: seq<Event>, newcomers: set<nat>)
    decreases |events|
  {
    events == [] ||
    (var t := Next(s, events[0]);
     && (events[0].Advance? && events[0].worker in newcomers ==> t.calls == s.calls && t.claims == s.claims)
     && NewcomersRead(t, events[1..], Joined(newcomers, events[0])))
  }

  /** Workers begin the procedures of the service. */
  ghost predicate Starts(events: seq<Event>) {
    forall k :: 0 <= k < |events| && events[k].Begin? ==>
      exists q: Procedure :: events[k].code == Body(q)
  }

  lemma ReadersRemain(s: World, e: Event, newcomers: set<nat>)
    requires Inv(s) && s.row.mutation == Searching
    requires e.Begin? ==> exists q: Procedure :: e.code == Body(q)
    requires forall i :: i in newcomers ==> i in s.workers && Reader(s.workers[i])
    ensures forall i :: i in Joined(newcomers, e) ==> i in Next(s, e).workers && Reader(Next(s, e).workers[i])
    ensures e.Advance? && e.worker in newcomers ==> Next(s, e).calls == s.calls && Next(s, e).claims == s.claims
  {
    var t := Next(s, e);
    if e.Advance? && e.worker in newcomers {
      ReaderStep(s, e.worker, e.choice);
    }
    forall i | i in Joined(newcomers, e) ensures i in t.workers && Reader(t.workers[i]) {
      if e.Other? || e.worker != i {
        OthersStay(s, e, i);
      } else if e.Begin? {
        assert t.workers[i].code == Load(e.code);
      }
    }
  }

  /** While a search claim lasts, no procedure begun since sends a command or wins a claim,
      in any run, whatever older workers, other writers and Radarr do. */
  lemma {:induction false} NewcomersOnlyRead(s: World, events: seq<Event>, newcomers: set<nat>)
    requires Inv(s) && LegalRun(s, events) && Starts(events) && Lasts(s, events)
    requires forall i :: i in newcomers ==> i in s.workers && Reader(s.workers[i])
    ensures NewcomersRead(s, events, newcomers)
    decreases |events|
  {
    if events != [] {
      NextKeepsInv(s, events[0]);
      ReadersRemain(s, events[0], newcomers);
      assert forall k :: 0 <= k < |events[1..]| ==> events[1..][k] == events[k + 1];
      NewcomersOnlyRead(Next(s, events[0]), events[1..], Joined(newcomers, events[0]));
    }
  }

  /** No worker is left over from an earlier decision: each one only reads. */
  ghost predicate AllRead(s: World) {
    forall i :: i in s.workers ==> Reader(s.workers[i])
  }

  lemma AllReadRemains(s: World, e: Event)
    requires Inv(s) && s.row.mutation == Searching && AllRead(s)
    requires e.Begin? ==> exists q: Procedure :: e.code == Body(q)
    ensures AllRead(Next(s, e)) && Next(s, e).calls == s.calls && Next(s, e).claims == s.claims
  {
    var t := Next(s, e);
    ReadersRemain(s, e, s.workers.Keys);
    forall i | i in t.workers ensures Reader(t.workers[i]) {
      assert i in Joined(s.workers.Keys, e);
    }
  }

  /** A reader ends the claim only with the revision the row has. */
  lemma ReadersEndKnowingly(s: World, e: Event)
    requires AllRead(s) && EndsNow(s, e)
    ensures e.Other? || HasReadClaim(s, e.worker)
  {
    if e.Advance? {
      var p := s.workers[e.worker];
      assert Reader(p) && p.code.shape != ResetAny;
    }
  }

  /** Every event of the run that ends the claim comes from outside the procedures, or from
      a worker that has read the claim. */
  predicate EndedKnowingly(s: World, events: seq<Event>)
    decreases |events|
  {
    events == [] || s.row.mutation != Searching ||
    ((EndsNow(s, events[0]) ==> events[0].Other? || HasReadClaim(s, events[0].worker))
     && EndedKnowingly(Next(s, events[0]), events[1..]))
  }

  /** When a search is claimed and no worker is left over from an earlier decision, as after
      a restart or once the answer of every older add has been recorded, Radarr receives no
      command while the claim lasts, and the claim is never lost unseen. */
  lemma {:induction false} QuietSearchIsSafe(s: World, events: seq<Event>)
    requires Inv(s) && LegalRun(s, events) && Starts(events) && s.row.mutation == Searching && AllRead(s)
    ensures EndedKnowingly(s, events)
    ensures Lasts(s, events) ==> RunEvents(s, events).calls == s.calls && RunEvents(s, events).claims == s.claims
    decreases |events|
  {
    if events != [] {
      var t := Next(s, events[0]);
      AllReadRemains(s, events[0]);
      if EndsNow(s, events[0]) {
        ReadersEndKnowingly(s, events[0]);
      }
      if t.row.mutation == Searching {
        NextKeepsInv(s, events[0]);
        assert forall k :: 0 <= k < |events[1..]| ==> events[1..][k] == events[k + 1];
        QuietSearchIsSafe(t, events[1..]);
      } else {
        assert !Lasts(t, events[1..]);
      }
    }
  }

  // ---- The blind reset ----------------------------------------------------------------------

  /** An add that fails definitely resets the row whatever has happened to it since: here it
      drops a search claim that another worker won meanwhile. */
  lemma StaleAddDropsSearchClaim(s: World, i: nat, p: Process, lockRemote: Code, c: Choice, error: RemoteError)
    requires Inv(s) && i in s.workers && s.workers[i] == p && p.code == AddAnswered(lockRemote)
    requires p.locals.reply == Broken(error) && error != Ambiguous
    requires s.row.mutation == Searching && s.row.Open()
    requires c.write.Move? && c.write.expected == None && c.write.reset
    requires c.write.transition.status == ActionNeeded && c.write.transition.reason == Some(AddFailed)
    ensures var t := Next(Next(Next(s, Advance(i, c)), Advance(i, c)), Advance(i, c));
      t.row.mutation == Idle && t.row.reason == Some(AddFailed) && t.calls == s.calls
  {
    var reset := Process(p.locals, Store(ResetAny, Stop, Stop), p.armed);
    AddFailureIsReset(s, i, p, lockRemote, c, error);
    var second := Goes(s, i, reset);
    assert Next(Next(s, Advance(i, c)), Advance(i, c)) == second;
    ResetDrops(second, i, reset, c);
  }

  lemma AddFailureIsReset(s: World, i: nat, p: Process, lockRemote: Code, c: Choice, error: RemoteError)
    requires i in s.workers && s.workers[i] == p && p.code == AddAnswered(lockRemote)
    requires p.locals.reply == Broken(error) && error != Ambiguous
    ensures Next(Next(s, Advance(i, c)), Advance(i, c)) ==
      Goes(s, i, Process(p.locals, Store(ResetAny, Stop, Stop), p.armed))
  {
    var after := IfBroken(Store(ResetAny, Stop, Stop), lockRemote);
    assert Next(s, Advance(i, c)) == Goes(s, i, Process(p.locals, after, p.armed));
  }

  lemma ResetDrops(s: World, i: nat, p: Process, c: Choice)
    requires i in s.workers && s.workers[i] == p && p.code == Store(ResetAny, Stop, Stop)
    requires RowOk(s.row) && s.row.mutation == Searching && s.row.Open()
    requires c.write.Move? && c.write.expected == None && c.write.reset
    requires c.write.transition.status == ActionNeeded && c.write.transition.reason == Some(AddFailed)
    ensures var t := Next(s, Advance(i, c));
      t.row.mutation == Idle && t.row.reason == Some(AddFailed) && t.calls == s.calls
  {
  }
}
