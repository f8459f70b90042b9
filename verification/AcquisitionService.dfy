/** The Acquisition procedures of the admin pages and the reconciler, instruction by
    instruction (internal/server/radarr_acquisition_service.go and
    internal/server/radarr_reconciler.go), and what they may do to Radarr while the
    outcome of an automatic search is unknown. */
module AcquisitionService {
  import opened Domain
  import opened Acquisitions
  import opened RemoteCalls

  // ---- Endings ------------------------------------------------------------------------

  /** transitionAdminRemoteObservation: a stale writer reads the row instead. */
  const OBSERVED := Store(Observe, Stop, Load(Stop))

  /** resetAutomaticSearchClaim. */
  const RESET := Store(ResetAt, Stop, Load(Stop))

  /** preserveUnknownAutomaticSearch. */
  const PRESERVED := Store(Unknown, Stop, Load(Stop))

  /** reconcileTransition: a poll result ends a grab claim and leaves any other alone. */
  const RECONCILED := Branch((l: Locals, now: int) => l.acquisition.mutation == Grabbing, RESET, OBSERVED)

  function IfBroken(yes: Code, no: Code): Code {
    Branch((l: Locals, now: int) => l.reply.Broken?, yes, no)
  }

  function IfAmbiguous(yes: Code, no: Code): Code {
    Branch((l: Locals, now: int) => l.reply == Broken(Ambiguous), yes, no)
  }

  function IfMissing(yes: Code, no: Code): Code {
    Branch((l: Locals, now: int) => l.reply == Broken(Missing), yes, no)
  }

  function IfQueued(yes: Code, no: Code): Code {
    Branch((l: Locals, now: int) => l.reply.Items? && l.reply.count > 0, yes, no)
  }

  function IfAbsent(yes: Code, no: Code): Code {
    Branch((l: Locals, now: int) => l.reply == Nothing, yes, no)
  }

  predicate Matches(l: Locals) {
    l.acquisition.ResolvedTmdb() == Some(l.remote.tmdb)
  }

  predicate IsAutomatic(a: Acquisition) {
    a.target.Some? && a.target.value.mode == Mode.Automatic
  }

  /** The lease another worker may still hold. */
  predicate Leased(a: Acquisition, now: int) {
    a.nextCheckAt.Some? && now < a.nextCheckAt.value
  }

  /** shouldRestoreManualMonitoring. */
  predicate RestoresMonitoring(l: Locals) {
    && l.acquisition.target.Some? && !IsAutomatic(l.acquisition) && !l.acquisition.adopted && !l.remote.monitored
    && (l.acquisition.mutation == Grabbing || l.acquisition.reason == Some(MonitoringFailed))
  }

  function RestoreMonitoring(next: Code): Code {
    Branch((l: Locals, now: int) => RestoresMonitoring(l), Ask(SetMonitored, next), next)
  }

  // ---- Automatic search ---------------------------------------------------------------

  /** observeAutomaticSearchTarget: the movie is gone, is another one, has its file, or is
      already queued. */
  function ObserveTarget(failed: Code, observed: Code, idle: Code): Code {
    Ask(GetMovie,
      IfMissing(observed,
      IfBroken(failed,
      Branch((l: Locals, now: int) => !Matches(l) || l.remote.hasFile, observed,
      Ask(ReadQueue, IfBroken(failed, IfQueued(observed, idle)))))))
  }

  /** recoverAutomaticSearch. */
  function Recover(): Code {
    Branch((l: Locals, now: int) => l.acquisition.mutation != Searching || l.acquisition.radarrMovieId.None?, Stop,
    Branch((l: Locals, now: int) => l.acquisition.reason.None? && Leased(l.acquisition, now), Stop,
    Ask(OpenClient, IfBroken(PRESERVED,
    ObserveTarget(PRESERVED, RESET,
    Ask(FindRecentCommand, IfBroken(PRESERVED, IfAbsent(PRESERVED, Store(Record, Stop, Stop)))))))))
  }

  /** reconcileAutomaticSearchCommand and reconcileFinishedAutomaticSearch. */
  function FollowCommand(): Code {
    Branch((l: Locals, now: int) => l.reply.Command? && l.reply.over,
      Branch((l: Locals, now: int) => l.acquisition.searchCompletedAt.None?,
        Store(Complete, Load(Ask(ReadHistory, RECONCILED)), Load(Stop)),
        Ask(ReadHistory, RECONCILED)),
      RECONCILED)
  }

  /** The poll of a locked target whose search, if any, is not the claim in question. */
  function Poll(): Code {
    Ask(OpenClient, IfBroken(RECONCILED,
    Ask(GetMovie, IfBroken(RECONCILED,
    Branch((l: Locals, now: int) => !Matches(l), RECONCILED,
    Branch((l: Locals, now: int) => l.remote.hasFile, RestoreMonitoring(RECONCILED),
    Ask(ReadQueue, IfBroken(RECONCILED,
    IfQueued(RestoreMonitoring(RECONCILED),
    Branch((l: Locals, now: int) => l.acquisition.searchCommand.Some?,
      Ask(GetCommand,
        IfMissing(
          Branch((l: Locals, now: int) => l.acquisition.searchCompletedAt.Some?, RECONCILED,
          Ask(FindRecentCommand, IfBroken(PRESERVED, IfAbsent(PRESERVED, FollowCommand())))),
        IfBroken(RECONCILED, FollowCommand()))),
    Branch((l: Locals, now: int) => l.acquisition.manualAttempts == 0, RECONCILED,
    Branch((l: Locals, now: int) => GrabIsFresh(l.acquisition, now), OBSERVED,
    Branch((l: Locals, now: int) => l.acquisition.mutation == Idle && l.acquisition.reason == Some(ReleaseRequired),
      RECONCILED,
    Ask(ReadHistory, IfBroken(RECONCILED,
    Branch((l: Locals, now: int) => l.acquisition.mutation == Grabbing && l.reply.History? && l.reply.grabbed,
      RestoreMonitoring(RECONCILED), RECONCILED))))))))))))))))
  }

  const GRAB_OBSERVATION := 120_000

  predicate GrabIsFresh(a: Acquisition, now: int) {
    a.mutation == Grabbing && a.release.Some? && now - a.release.value.selectedAt < GRAB_OBSERVATION
  }

  /** reconcileOne. */
  function Reconcile(): Code {
    Branch((l: Locals, now: int) =>
      !l.acquisition.Open() || !l.acquisition.Locked() || l.acquisition.radarrMovieId.None?, Stop,
    Branch((l: Locals, now: int) => l.acquisition.mutation == Searching, Recover(), Poll()))
  }

  /** What startAutomaticSearch does with Radarr's answer. */
  function SearchAnswered(): Code {
    IfAmbiguous(PRESERVED, IfBroken(RESET, Store(Record, Stop, Stop)))
  }

  /** startAutomaticSearch once its claim is won. */
  function SearchWon(): Code {
    Branch((l: Locals, now: int) => l.acquisition.radarrMovieId != Some(l.remote.id), RESET,
    Ask(OpenClient, IfBroken(RESET,
    ObserveTarget(RESET, RESET, Send(StartMoviesSearch, SearchAnswered())))))
  }

  function SearchClaim(): Code {
    Claim(StartMoviesSearch, SearchWon(), Load(Stop))
  }

  /** startAutomaticSearch. */
  function Search(reconcile: Code): Code {
    Branch((l: Locals, now: int) => l.acquisition.searchCommand.Some? && l.acquisition.searchCompletedAt.None?,
      reconcile, SearchClaim())
  }

  // ---- Target confirmation ------------------------------------------------------------

  /** lockRemoteMovie once the target is locked. */
  function LockWon(search: Code): Code {
    Branch((l: Locals, now: int) => l.reply.Items? && l.reply.summary != "", Store(ObserveAny, Stop, Stop),
    Branch((l: Locals, now: int) => l.acquisition.status == Downloaded || !IsAutomatic(l.acquisition), Stop, search))
  }

  /** lockRemoteMovie. */
  function LockRemote(search: Code): Code {
    var locking := Store(Lock, LockWon(search), Stop);
    Branch((l: Locals, now: int) => l.remote.hasFile, locking,
    Ask(OpenClient, IfBroken(OBSERVED,
    Ask(ReadQueue, IfBroken(OBSERVED, locking)))))
  }

  /** reconcileAmbiguousAdd: its last two resets name no revision. */
  function ReconcileAdd(lockRemote: Code): Code {
    Branch((l: Locals, now: int) => l.acquisition.mutation == Adding && Leased(l.acquisition, now), Stop,
    Ask(OpenClient, IfBroken(OBSERVED,
    Branch((l: Locals, now: int) => l.acquisition.ResolvedTmdb().None?, Store(ResetAny, Stop, Stop),
    Ask(FindMovie, IfBroken(OBSERVED,
    IfAbsent(Store(ResetAny, Stop, Stop),
    Ask(ReadCatalog, IfBroken(OBSERVED, lockRemote)))))))))
  }

  /** resolveAcquisitionIdentity. */
  function ResolveIdentity(next: Code): Code {
    Branch((l: Locals, now: int) => l.acquisition.ResolvedTmdb().Some?, next,
    Branch((l: Locals, now: int) => l.acquisition.imdb.None?, OBSERVED,
    Ask(LookupIdentity, IfBroken(OBSERVED, Store(Resolve, next, Stop)))))
  }

  /** previewAndAdoptExistingAcquisitionTarget. */
  function PreviewAndAdopt(lockRemote: Code): Code {
    Ask(OpenClient, IfBroken(OBSERVED,
    Ask(ReadCatalog, IfBroken(OBSERVED,
    ResolveIdentity(
    Ask(FindMovie, IfBroken(OBSERVED,
    Store(Preview, IfAbsent(Stop, Claim(AddMovie, lockRemote, Load(Stop))), Load(Stop)))))))))
  }

  /** What confirmAcquisitionTarget does with Radarr's answer to the add. A definite failure
      resets the claim without naming the revision it was won under. */
  function AddAnswered(lockRemote: Code): Code {
    IfAmbiguous(Store(Unknown, Stop, Load(Stop)),
    IfBroken(Store(ResetAny, Stop, Stop), lockRemote))
  }

  /** The remote movie is still what the preview recorded. */
  predicate AsPreviewed(l: Locals) {
    if l.reply == Nothing then !l.acquisition.previewExisting
    else l.acquisition.previewExisting && l.remote.effective == l.acquisition.effective
  }

  /** confirmAcquisitionTarget. */
  function Confirm(lockRemote: Code, reconcileAdd: Code): Code {
    Branch((l: Locals, now: int) =>
      !l.acquisition.Open() || l.acquisition.Locked() || l.acquisition.target.None?, Stop,
    Branch((l: Locals, now: int) => l.acquisition.mutation != Idle, reconcileAdd,
    Branch((l: Locals, now: int) => l.acquisition.previewedAt.None?, Stop,
    Ask(OpenClient, IfBroken(OBSERVED,
    Ask(ReadCatalog, IfBroken(OBSERVED,
    ResolveIdentity(
    Ask(FindMovie, IfBroken(OBSERVED,
    Branch((l: Locals, now: int) => !AsPreviewed(l),
      Store(Preview, IfAbsent(Stop, ConfirmAdd(lockRemote)), Load(Stop)),
      ConfirmAdd(lockRemote))))))))))))
  }

  function ConfirmAdd(lockRemote: Code): Code {
    Claim(AddMovie, IfAbsent(Send(AddMovie, AddAnswered(lockRemote)), lockRemote), Stop)
  }

  // ---- Retry and recreation -----------------------------------------------------------

  /** continueLockedReplacement. */
  function ContinueReplacement(reconcile: Code, search: Code): Code {
    Branch((l: Locals, now: int) =>
      l.remote.hasFile || !IsAutomatic(l.acquisition) || l.acquisition.manualAttempts != 0, reconcile,
    Ask(ReadQueue, IfBroken(OBSERVED, IfQueued(reconcile, search))))
  }

  /** recreateLockedAcquisition. */
  function Recreate(proceed: Code): Code {
    Branch((l: Locals, now: int) =>
      l.acquisition.ResolvedTmdb().None? || l.acquisition.mutation != Recreating, Stop,
    Claim(RecreateMovie,
      Send(RecreateMovie,
        IfAmbiguous(Store(Unknown, Stop, Load(Stop)),
        IfBroken(Store(ResetAt, Stop, Stop),
        Store(Replace, Load(proceed), Stop)))),
      Load(Stop)))
  }

  /** The replacement of a locked movie that Radarr no longer has. */
  function Replacement(recreate: Code, proceed: Code): Code {
    Ask(ReadCatalog, IfBroken(OBSERVED,
    Branch((l: Locals, now: int) => l.acquisition.ResolvedTmdb().None?, Stop,
    Ask(FindMovie, IfBroken(OBSERVED,
    IfAbsent(
      Branch((l: Locals, now: int) => l.acquisition.mutation == CheckingReplacement,
        Store(Recreation, recreate, Stop), recreate),
      Store(Replace, Load(proceed), Stop)))))))
  }

  predicate SearchesAgain(l: Locals) {
    && !l.remote.hasFile && IsAutomatic(l.acquisition) && l.acquisition.manualAttempts == 0
    && (l.acquisition.reason == Some(ConnectionFailed) || l.acquisition.reason == Some(NoReleases) ||
        l.acquisition.reason == Some(ReleaseFailed))
  }

  function RetrySearch(reconcile: Code, search: Code): Code {
    Branch((l: Locals, now: int) => SearchesAgain(l),
      Branch((l: Locals, now: int) => l.acquisition.searchCommand.Some? && l.acquisition.searchCompletedAt.None?,
        reconcile,
      Ask(ReadQueue, IfBroken(OBSERVED, IfQueued(reconcile, search)))),
      reconcile)
  }

  function RetryIdle(reconcile: Code, search: Code, replacement: Code): Code {
    var again := RetrySearch(reconcile, search);
    Ask(GetMovie,
      IfMissing(Store(Check, replacement, Stop),
      IfBroken(OBSERVED,
      Branch((l: Locals, now: int) => l.acquisition.reason == Some(MonitoringFailed) && !l.acquisition.adopted,
        Ask(SetMonitored, IfBroken(Store(ObserveAny, Stop, Stop), again)),
        again))))
  }

  /** retryAcquisition, from the row it loaded. */
  function Retry(reconcileAdd: Code, previewAndAdopt: Code, reconcile: Code, retryIdle: Code, replacement: Code): Code {
    var fetch := Ask(OpenClient, IfBroken(OBSERVED,
      Branch((l: Locals, now: int) => l.acquisition.mutation == Idle, retryIdle, replacement)));
    Branch((l: Locals, now: int) => !l.acquisition.Open(), Stop,
    Branch((l: Locals, now: int) => !l.acquisition.Locked(),
      Branch((l: Locals, now: int) => l.acquisition.mutation != Idle, reconcileAdd,
      Branch((l: Locals, now: int) => l.acquisition.target.None?, Stop, previewAndAdopt)),
    Branch((l: Locals, now: int) => l.acquisition.mutation == Searching, Recover(),
    Branch((l: Locals, now: int) => l.acquisition.mutation == Grabbing, reconcile,
    Branch((l: Locals, now: int) => l.acquisition.mutation == Idle, fetch,
    Branch((l: Locals, now: int) => Leased(l.acquisition, now), Stop,
    Store(Reclaim, fetch, Load(Stop))))))))
  }

  // ---- Releases and abandonment -------------------------------------------------------

  /** grabRelease. */
  function Grab(): Code {
    Branch((l: Locals, now: int) =>
      !l.acquisition.Open() || !l.acquisition.Locked() || l.acquisition.radarrMovieId.None? ||
      l.acquisition.mutation != Idle, Stop,
    Ask(OpenClient, IfBroken(Stop,
    Ask(GetMovie, IfBroken(Stop,
    Branch((l: Locals, now: int) => !Matches(l) || l.remote.hasFile, OBSERVED,
    Ask(ReadQueue, IfBroken(Stop, IfQueued(OBSERVED,
    Ask(TakeCachedRelease, IfBroken(Stop,
    Claim(GrabRelease,
      Send(GrabRelease,
        IfAmbiguous(OBSERVED, IfBroken(RESET,
        Branch((l: Locals, now: int) => !l.acquisition.adopted, Ask(SetMonitored, RESET), RESET)))),
      Stop))))))))))))
  }

  /** transitionAbandonmentObservation without a reset: a claimed row is left alone. */
  function Note(next: Code): Code {
    Branch((l: Locals, now: int) => l.acquisition.mutation != Idle, next, Store(Observe, next, Stop))
  }

  /** The queue of the reviewed movie is known: a search claim is settled by it. */
  function Settle(next: Code): Code {
    Branch((l: Locals, now: int) => l.acquisition.mutation == Searching, Store(ResetAt, next, Stop), Note(next))
  }

  /** The review of a movie that Radarr still has. */
  function ReviewMovie(next: Code, note: Code, settled: Code): Code {
    Branch((l: Locals, now: int) => Matches(l) && l.remote.hasFile,
      Branch((l: Locals, now: int) => l.acquisition.mutation != Idle,
        Store(ResetAt, next, Stop), Store(Observe, next, Stop)),
    Ask(ReadQueue, IfBroken(note,
    Branch((l: Locals, now: int) =>
      l.acquisition.mutation == Searching && !(l.reply.Items? && l.reply.count > 0) && Matches(l),
      note, settled))))
  }

  function ReviewRemote(note: Code, settled: Code, reviewMovie: Code): Code {
    Ask(OpenClient, IfBroken(note,
    Ask(GetMovie,
      IfMissing(Ask(ReadQueue, IfBroken(note, settled)),
      IfBroken(note, reviewMovie)))))
  }

  /** reviewAbandonment. */
  function Review(next: Code): Code {
    Branch((l: Locals, now: int) => l.acquisition.status == Downloaded, next,
    Branch((l: Locals, now: int) => l.acquisition.status == Abandoned, Stop,
    Branch((l: Locals, now: int) => !l.acquisition.Locked() || l.acquisition.radarrMovieId.None?, next,
    ReviewRemote(Note(next), Settle(next), ReviewMovie(next, Note(next), Settle(next))))))
  }

  /** abandonAcquisition, once the admin has acknowledged the reported activity. */
  function AbandonReviewed(): Code {
    Review(Branch((l: Locals, now: int) => !l.acquisition.Open(), Stop, Store(GiveUp, Stop, Stop)))
  }

  // ---- The procedures -----------------------------------------------------------------

  datatype Procedure = RunConfirm | RunPreview | RunRetry | RunReconcile | RunGrab | RunReview | RunAbandon

  function LockBody(reconcile: Code): Code {
    LockRemote(Search(reconcile))
  }

  function ConfirmBody(lockRemote: Code): Code {
    Confirm(lockRemote, ReconcileAdd(lockRemote))
  }

  function RetryBody(reconcile: Code, lockRemote: Code): Code {
    var search := Search(reconcile);
    var proceed := ContinueReplacement(reconcile, search);
    var replacement := Replacement(Recreate(proceed), proceed);
    Retry(ReconcileAdd(lockRemote), PreviewAndAdopt(lockRemote), reconcile,
          RetryIdle(reconcile, search, replacement), replacement)
  }

  function Body(p: Procedure): Code {
    match p
    case RunConfirm => ConfirmBody(LockBody(Reconcile()))
    case RunPreview => PreviewAndAdopt(LockBody(Reconcile()))
    case RunRetry => RetryBody(Reconcile(), LockBody(Reconcile()))
    case RunReconcile => Reconcile()
    case RunGrab => Grab()
    case RunReview => Review(Stop)
    case RunAbandon => AbandonReviewed()
  }

  /** The rules of Disciplined, one constructor at a time. */
  lemma Rules()
    ensures forall next, armed {:trigger Disciplined(Load(next), armed)} ::
      Disciplined(next, None) ==> Disciplined(Load(next), armed)
    ensures forall request, next, armed {:trigger Disciplined(Ask(request, next), armed)} ::
      Disciplined(next, armed) ==> Disciplined(Ask(request, next), armed)
    ensures forall kind, won, lost, armed {:trigger Disciplined(Claim(kind, won, lost), armed)} ::
      Disciplined(won, Some(kind)) && Disciplined(lost, None) ==> Disciplined(Claim(kind, won, lost), armed)
    ensures forall kind, next {:trigger Disciplined(Send(kind, next), Some(kind))} ::
      Disciplined(next, None) ==> Disciplined(Send(kind, next), Some(kind))
    ensures forall shape, done, stale, armed {:trigger Disciplined(Store(shape, done, stale), armed)} ::
      Disciplined(done, None) && Disciplined(stale, None) ==> Disciplined(Store(shape, done, stale), armed)
    ensures forall test, yes, no, armed {:trigger Disciplined(Branch(test, yes, no), armed)} ::
      Disciplined(yes, armed) && Disciplined(no, armed) ==> Disciplined(Branch(test, yes, no), armed)
  {
  }

  /** Code that sends nothing without its own claim may also run under an unused one. */
  lemma {:induction false} Unarmed(code: Code, armed: Option<Kind>)
    requires Disciplined(code, None)
    ensures Disciplined(code, armed)
    decreases code
  {
    match code
    case Ask(_, next) => Unarmed(next, armed);
    case Branch(_, yes, no) =>
      Unarmed(yes, armed);
      Unarmed(no, armed);
    case _ =>
  }

  lemma ReconcileIsDisciplined()
    ensures Disciplined(Reconcile(), None)
  {
    Rules();
  }

  lemma SearchIsDisciplined(reconcile: Code)
    requires Disciplined(reconcile, None)
    ensures Disciplined(Search(reconcile), None)
  {
    Rules();
  }

  lemma LockRemoteIsDisciplined(search: Code)
    requires Disciplined(search, None)
    ensures Disciplined(LockRemote(search), None)
  {
    Rules();
  }

  lemma ReconcileAddIsDisciplined(lockRemote: Code)
    requires Disciplined(lockRemote, None)
    ensures Disciplined(ReconcileAdd(lockRemote), None)
  {
    Rules();
  }

  lemma PreviewIsDisciplined(lockRemote: Code)
    requires Disciplined(lockRemote, None)
    ensures Disciplined(PreviewAndAdopt(lockRemote), None)
  {
    Rules();
    Unarmed(lockRemote, Some(AddMovie));
  }

  lemma ConfirmIsDisciplined(lockRemote: Code, reconcileAdd: Code)
    requires Disciplined(lockRemote, None) && Disciplined(reconcileAdd, None)
    ensures Disciplined(Confirm(lockRemote, reconcileAdd), None)
  {
    Rules();
    Unarmed(lockRemote, Some(AddMovie));
    assert Disciplined(ConfirmAdd(lockRemote), None);
  }

  lemma ReplacementIsDisciplined(reconcile: Code, search: Code)
    requires Disciplined(reconcile, None) && Disciplined(search, None)
    ensures var proceed := ContinueReplacement(reconcile, search);
      Disciplined(proceed, None) && Disciplined(Replacement(Recreate(proceed), proceed), None)
  {
    Rules();
    assert Disciplined(ContinueReplacement(reconcile, search), None);
    assert Disciplined(Recreate(ContinueReplacement(reconcile, search)), None);
  }

  lemma RetryIdleIsDisciplined(reconcile: Code, search: Code, replacement: Code)
    requires Disciplined(reconcile, None) && Disciplined(search, None) && Disciplined(replacement, None)
    ensures Disciplined(RetryIdle(reconcile, search, replacement), None)
  {
    Rules();
    assert Disciplined(RetrySearch(reconcile, search), None);
  }

  lemma RetryIsDisciplined(
    reconcileAdd: Code, previewAndAdopt: Code, reconcile: Code, retryIdle: Code, replacement: Code)
    requires Disciplined(reconcileAdd, None) && Disciplined(previewAndAdopt, None) && Disciplined(reconcile, None)
    requires Disciplined(retryIdle, None) && Disciplined(replacement, None)
    ensures Disciplined(Retry(reconcileAdd, previewAndAdopt, reconcile, retryIdle, replacement), None)
  {
    Rules();
  }

  lemma ReviewIsDisciplined(next: Code)
    requires Disciplined(next, None)
    ensures Disciplined(Review(next), None)
  {
    Rules();
  }

  lemma GrabIsDisciplined()
    ensures Disciplined(Grab(), None)
  {
    Rules();
  }

  lemma LockBodyIsDisciplined(reconcile: Code)
    requires Disciplined(reconcile, None)
    ensures Disciplined(LockBody(reconcile), None)
  {
    SearchIsDisciplined(reconcile);
    LockRemoteIsDisciplined(Search(reconcile));
  }

  lemma ConfirmBodyIsDisciplined(lockRemote: Code)
    requires Disciplined(lockRemote, None)
    ensures Disciplined(ConfirmBody(lockRemote), None)
  {
    ReconcileAddIsDisciplined(lockRemote);
    ConfirmIsDisciplined(lockRemote, ReconcileAdd(lockRemote));
  }

  lemma RetryBodyIsDisciplined(reconcile: Code, lockRemote: Code)
    requires Disciplined(reconcile, None) && Disciplined(lockRemote, None)
    ensures Disciplined(RetryBody(reconcile, lockRemote), None)
  {
    var search := Search(reconcile);
    var proceed := ContinueReplacement(reconcile, search);
    SearchIsDisciplined(reconcile);
    ReconcileAddIsDisciplined(lockRemote);
    PreviewIsDisciplined(lockRemote);
    ReplacementIsDisciplined(reconcile, search);
    var replacement := Replacement(Recreate(proceed), proceed);
    RetryIdleIsDisciplined(reconcile, search, replacement);
    RetryIsDisciplined(ReconcileAdd(lockRemote), PreviewAndAdopt(lockRemote), reconcile,
                       RetryIdle(reconcile, search, replacement), replacement);
  }

  lemma AbandonIsDisciplined()
    ensures Disciplined(AbandonReviewed(), None)
  {
    ReviewIsDisciplined(Branch((l: Locals, now: int) => !l.acquisition.Open(), Stop, Store(GiveUp, Stop, Stop)));
  }

  lemma LockingBodyIsDisciplined(p: Procedure)
    requires p == RunConfirm || p == RunPreview || p == RunRetry
    ensures Disciplined(Body(p), None)
  {
    var reconcile := Reconcile();
    ReconcileIsDisciplined();
    LockBodyIsDisciplined(reconcile);
    match p
    case RunConfirm => ConfirmBodyIsDisciplined(LockBody(reconcile));
    case RunPreview => PreviewIsDisciplined(LockBody(reconcile));
    case RunRetry => RetryBodyIsDisciplined(reconcile, LockBody(reconcile));
  }

  /** Every procedure sends a command only under a fresh claim of its kind, so
      OneCommandPerClaim covers any number of them at once. */
  lemma BodiesAreDisciplined(p: Procedure)
    ensures Disciplined(Body(p), None)
  {
    match p
    case RunReconcile => ReconcileIsDisciplined();
    case RunGrab => GrabIsDisciplined();
    case RunReview => ReviewIsDisciplined(Stop);
    case RunAbandon => AbandonIsDisciplined();
    case _ => LockingBodyIsDisciplined(p);
  }
}
