/** One row of radarr_acquisitions and every statement that writes it: an UPDATE whose
    WHERE clause is the guard and whose SET list is the new row
    (internal/repository/radarr_acquisition.go, sqlite.go and wildcard.go). */
module Acquisitions {
  import opened Domain

  datatype Status =
    | NeedsPreset | NeedsRelease | WaitingForRadarr | Queued | Downloading | Importing
    | Downloaded | ActionNeeded | Abandoned

  datatype Reason =
    | PresetRequired | IdentityRequired | ReleaseRequired | ConfigurationInvalid | ConnectionFailed
    | AddFailed | NoReleases | ReleaseFailed | ImportFailed | MonitoringFailed

  /** The durable claim on a remote mutation. */
  datatype Mutation = Idle | Adding | CheckingReplacement | Recreating | Searching | Grabbing

  datatype QueueStatus = NoQueue | QueueQueued | QueueDownloading | QueueImporting | QueueFailed

  datatype IdentitySource = FromTmdb | FromImdb | FromOverride

  datatype Source = Draw | Wildcard

  datatype Mode = Manual | Automatic

  /** The preset snapshot. Its columns are written together and never apart. */
  datatype Target = Target(
    presetId: nat, presetName: string, instanceId: nat, instanceName: string,
    rootFolderId: nat, rootFolderPath: string, qualityProfileId: nat, qualityProfileName: string,
    tags: seq<nat>, minimumAvailability: string, mode: Mode, selectedAt: int, selectedBy: nat)

  datatype Effective = Effective(
    rootFolderPath: string, qualityProfileId: nat, qualityProfileName: string,
    tags: seq<nat>, minimumAvailability: string, monitored: bool)

  const NO_EFFECTIVE := Effective("", 0, "", [], "", false)

  datatype Release = Release(title: string, quality: string, selectedAt: int, selectedBy: nat)

  datatype Acquisition = Acquisition(
    movieId: nat,
    revision: nat,
    status: Status,
    reason: Option<Reason>,
    version: nat,
    actionStartedAt: Option<int>,
    title: string,
    year: Option<int>,
    tmdb: Option<nat>,
    imdb: Option<string>,
    identitySource: Option<IdentitySource>,
    overrideTmdb: Option<nat>,
    drawnAt: int,
    revealAt: int,
    clientId: string,
    revealedAt: Option<int>,
    target: Option<Target>,
    lockedAt: Option<int>,
    lockedBy: Option<nat>,
    radarrMovieId: Option<nat>,
    adopted: bool,
    effective: Effective,
    previewExisting: bool,
    previewedAt: Option<int>,
    mutation: Mutation,
    searchClaimedAt: Option<int>,
    searchCommand: Option<nat>,
    searchCompletedAt: Option<int>,
    release: Option<Release>,
    manualAttempts: nat,
    failure: Option<string>,
    failureAt: Option<int>,
    queueStatus: QueueStatus,
    queueSummary: string,
    lastCheckedAt: Option<int>,
    nextCheckAt: Option<int>,
    queuedAt: Option<int>,
    downloadingAt: Option<int>,
    importingAt: Option<int>,
    downloadedAt: Option<int>,
    abandonedAt: Option<int>,
    abandonedBy: Option<nat>,
    abandonmentReason: Option<string>,
    source: Source,
    wildcardId: Option<nat>,
    canceledAt: Option<int>,
    canceledBy: Option<nat>,
    createdAt: int,
    updatedAt: int)
  {
    predicate Open() {
      status != Downloaded && status != Abandoned
    }

    predicate Visible() {
      revealedAt.Some?
    }

    predicate Locked() {
      lockedAt.Some?
    }

    function ResolvedTmdb(): Option<nat> {
      if overrideTmdb.Some? then overrideTmdb else tmdb
    }
  }

  /** The lease a handoff to Radarr holds before a reconciler may look at it, in ms. */
  const HANDOFF_LEASE := 30_000

  datatype Transition = Transition(
    status: Status, reason: Option<Reason>, failure: string, queueStatus: QueueStatus,
    queueSummary: string, nextCheckAt: Option<int>, at: int)

  datatype TargetLock = TargetLock(
    radarrMovieId: nat, existing: bool, effective: Effective, lockedBy: nat, status: Status,
    reason: Option<Reason>, command: Option<nat>, at: int)

  /** Every statement that updates one row. `revision` is the caller's expected revision. */
  datatype Write =
    | SelectPreset(target: Target, usable: bool)
    | OverrideIdentity(revision: nat, tmdb: nat, at: int)
    | RecordPreview(revision: nat, existing: bool, effective: Effective, at: int)
    | ResolveImdb(revision: nat, tmdb: nat, at: int)
    | BeginAdd(revision: nat, at: int)
    | BeginReplacementCheck(revision: nat, at: int)
    | BeginRecreation(revision: nat, at: int)
    | ReclaimReplacement(revision: nat, state: Mutation, at: int)
    | RenewRecreation(revision: nat, at: int)
    | ReplaceMovie(revision: nat, radarrMovieId: nat, existing: bool, effective: Effective, actor: nat, at: int)
    | LockTarget(lock: TargetLock)
    | Move(expected: Option<nat>, transition: Transition, reset: bool)
    | BeginSearch(revision: nat, at: int)
    | RecordSearch(revision: nat, command: nat, at: int)
    | CompleteSearch(revision: nat, command: nat, at: int)
    | BeginRelease(revision: nat, release: Release, at: int)
    | Abandon(revision: nat, actor: nat, abandonment: string, at: int)
    | Retarget(title: string, year: Option<int>, tmdb: nat, at: int)
    | CancelWildcard(actor: nat, at: int)
    | Reveal(at: int)

  /** A statement either matches no row, or writes one. `announce` asks the same
      transaction to queue the new action for the webhook destinations. */
  datatype Outcome = Refused(error: Error) | Written(row: Acquisition, announce: bool)

  /** nextActionVersion: a new action needs a new version, a repeated one keeps it. */
  function NextAction(a: Acquisition, status: Status, reason: Option<Reason>, at: int): (nat, Option<int>, bool) {
    if reason.None? then (a.version, None, false)
    else if a.status == status && a.reason == reason then (a.version, Coalesce(a.actionStartedAt, at), false)
    else (a.version + 1, Some(at), true)
  }

  /** The SET list every claim shares. */
  function Waiting(a: Acquisition, mutation: Mutation, at: int): Acquisition {
    a.(mutation := mutation, status := WaitingForRadarr, reason := None, actionStartedAt := None,
       nextCheckAt := Some(at + HANDOFF_LEASE), revision := a.revision + 1, updatedAt := at)
  }

  function Locking(a: Acquisition, lock: TargetLock): Outcome {
    if !(a.Visible() && a.target.Some? && !a.Locked() && (a.mutation == Adding || a.mutation == Recreating) && a.Open())
    then Refused(NotFound)
    else if lock.status == Abandoned then Refused(StoreFailed)
    else
      var (version, startedAt, announce) := NextAction(a, lock.status, lock.reason, lock.at);
      Written(a.(lockedAt := Some(lock.at), lockedBy := Some(lock.lockedBy), radarrMovieId := Some(lock.radarrMovieId),
                 adopted := lock.existing, effective := lock.effective, mutation := Idle,
                 searchCommand := lock.command, status := lock.status, reason := lock.reason,
                 version := version, actionStartedAt := startedAt,
                 downloadedAt := if lock.status == Downloaded then Some(lock.at) else None,
                 nextCheckAt := Some(lock.at + HANDOFF_LEASE), revision := a.revision + 1, updatedAt := lock.at),
              announce)
  }

  function Moving(a: Acquisition, expected: Option<nat>, t: Transition, reset: bool): Outcome {
    if !a.Open() then Refused(Conflict)
    else if expected.Some? && expected.value != a.revision then Refused(StaleRevision)
    else if t.status == Abandoned then Refused(StoreFailed)
    else
      var (version, startedAt, announce) := NextAction(a, t.status, t.reason, t.at);
      Written(a.(status := t.status, reason := t.reason, version := version, actionStartedAt := startedAt,
                 failure := if t.failure == "" then a.failure else Some(t.failure),
                 failureAt := if t.failure == "" then a.failureAt else Some(t.at),
                 queueStatus := t.queueStatus, queueSummary := t.queueSummary,
                 lastCheckedAt := Some(t.at), nextCheckAt := t.nextCheckAt,
                 queuedAt := if t.status == Queued then Coalesce(a.queuedAt, t.at) else a.queuedAt,
                 downloadingAt := if t.status == Downloading then Coalesce(a.downloadingAt, t.at) else a.downloadingAt,
                 importingAt := if t.status == Importing then Coalesce(a.importingAt, t.at) else a.importingAt,
                 downloadedAt := if t.status == Downloaded then Coalesce(a.downloadedAt, t.at) else a.downloadedAt,
                 mutation := if reset then Idle else a.mutation,
                 searchClaimedAt := if reset then None else a.searchClaimedAt,
                 revision := a.revision + 1, updatedAt := t.at),
              announce)
  }

  function Blank(s: string): bool {
    forall i :: 0 <= i < |s| ==> s[i] == ' '
  }

  /** The compare-and-swap guard of a statement that names its expected revision. */
  predicate Current(a: Acquisition, revision: nat) {
    a.Open() && a.revision == revision
  }

  /** retargetOpenAcquisitionsTx on one open row; a locked or claimed row blocks it. */
  function Retargeted(a: Acquisition, title: string, year: Option<int>, tmdb: nat, at: int): Acquisition {
    var waits := a.reason == Some(IdentityRequired);
    a.(title := title, year := year, tmdb := Some(tmdb), imdb := None,
       identitySource := Some(FromTmdb), overrideTmdb := None,
       status := if waits then WaitingForRadarr else a.status,
       actionStartedAt := if waits then None else a.actionStartedAt,
       reason := if waits then None else a.reason,
       previewExisting := false, previewedAt := None, effective := NO_EFFECTIVE,
       revision := a.revision + 1, updatedAt := at)
  }

  /** CancelWildcard's update, which also matches terminal rows. */
  function Canceled(a: Acquisition, actor: nat, at: int): Acquisition {
    var done := a.status == Downloaded;
    a.(status := if done then Downloaded else Abandoned, reason := None, actionStartedAt := None,
       abandonedAt := if done then a.abandonedAt else Coalesce(a.abandonedAt, at),
       abandonedBy := if done then a.abandonedBy else Coalesce(a.abandonedBy, actor),
       abandonmentReason := if done then a.abandonmentReason else Coalesce(a.abandonmentReason, "Wildcard canceled"),
       mutation := Idle, searchClaimedAt := None, nextCheckAt := None,
       canceledAt := Some(at), canceledBy := Some(actor), revision := a.revision + 1, updatedAt := at)
  }

  /** revealAcquisitionTx: a first Reveal announces the action; a repeated one may only put
      a cleared reason back. */
  function Revealed(a: Acquisition, at: int): Acquisition {
    var first := a.revealedAt.None?;
    a.(revealedAt := Coalesce(a.revealedAt, at), reason := Coalesce(a.reason, PresetRequired),
       version := if first then a.version + 1 else a.version,
       actionStartedAt := Coalesce(a.actionStartedAt, at),
       revision := if first then a.revision + 1 else a.revision,
       updatedAt := if first then at else a.updatedAt)
  }

  /** One statement against one row. */
  function Apply(a: Acquisition, w: Write): Outcome {
    match w
    case SelectPreset(target, usable) =>
      if !a.Visible() then Refused(NotFound)
      else if a.Locked() || a.mutation != Idle || !a.Open() || !usable then Refused(Conflict)
      else Written(a.(target := Some(target), status := WaitingForRadarr, reason := None, actionStartedAt := None,
                      previewExisting := false, previewedAt := None, effective := NO_EFFECTIVE,
                      revision := a.revision + 1, updatedAt := target.selectedAt), false)
    case OverrideIdentity(revision, tmdb, at) =>
      if !(a.Visible() && !a.Locked() && a.mutation == Idle && a.tmdb.None? && Current(a, revision))
      then Refused(StaleRevision)
      else Written(a.(overrideTmdb := Some(tmdb), identitySource := Some(FromOverride), status := WaitingForRadarr,
                      reason := None, actionStartedAt := None, previewExisting := false, previewedAt := None,
                      effective := NO_EFFECTIVE, revision := a.revision + 1, updatedAt := at), false)
    case RecordPreview(revision, existing, effective, at) =>
      if !(a.Visible() && !a.Locked() && a.mutation == Idle && Current(a, revision)) then Refused(StaleRevision)
      else Written(a.(previewExisting := existing, previewedAt := Some(at), effective := effective,
                      status := WaitingForRadarr, reason := None, actionStartedAt := None,
                      revision := a.revision + 1, updatedAt := at), false)
    case ResolveImdb(revision, tmdb, at) =>
      if !(a.tmdb.None? && a.imdb.Some? && !a.Locked() && Current(a, revision)) then Refused(StaleRevision)
      else Written(a.(overrideTmdb := Some(tmdb), identitySource := Some(FromImdb),
                      revision := a.revision + 1, updatedAt := at), false)
    case BeginAdd(revision, at) =>
      if !(a.Visible() && a.target.Some? && !a.Locked() && a.mutation == Idle && Current(a, revision))
      then Refused(StaleRevision)
      else Written(Waiting(a, Adding, at), false)
    case BeginReplacementCheck(revision, at) =>
      if !(a.Visible() && a.Locked() && a.mutation == Idle && Current(a, revision)) then Refused(StaleRevision)
      else Written(Waiting(a, CheckingReplacement, at), false)
    case BeginRecreation(revision, at) =>
      if !(a.Visible() && a.Locked() && a.mutation == CheckingReplacement && Current(a, revision))
      then Refused(StaleRevision)
      else Written(Waiting(a, Recreating, at), false)
    case ReclaimReplacement(revision, state, at) =>
      if state != CheckingReplacement && state != Recreating then Refused(Conflict)
      else if !(a.Visible() && a.Locked() && a.mutation == state && Current(a, revision) &&
                (a.nextCheckAt.None? || a.nextCheckAt.value <= at)) then Refused(StaleRevision)
      else Written(Waiting(a, state, at), false)
    case RenewRecreation(revision, at) =>
      if !(a.Visible() && a.Locked() && a.mutation == Recreating && Current(a, revision)) then Refused(StaleRevision)
      else Written(Waiting(a, Recreating, at), false)
    case ReplaceMovie(revision, radarrMovieId, existing, effective, actor, at) =>
      if !(a.Locked() && a.mutation == (if existing then CheckingReplacement else Recreating) && Current(a, revision))
      then Refused(StaleRevision)
      else Written(Waiting(a, Idle, at).(radarrMovieId := Some(radarrMovieId), adopted := existing,
                      effective := effective, searchClaimedAt := None, searchCommand := None,
                      searchCompletedAt := None, lockedBy := Some(actor)), false)
    case LockTarget(lock) => Locking(a, lock)
    case Move(expected, t, reset) => Moving(a, expected, t, reset)
    case BeginSearch(revision, at) =>
      if !(a.Locked() && a.radarrMovieId.Some? && a.target.Some? && a.target.value.mode == Automatic &&
           a.mutation == Idle && Current(a, revision)) then Refused(StaleRevision)
      else Written(Waiting(a, Searching, at).(searchClaimedAt := Some(at), searchCommand := None,
                      searchCompletedAt := None, queueStatus := NoQueue, queueSummary := ""), false)
    case RecordSearch(revision, command, at) =>
      if !(a.Locked() && a.mutation == Searching && Current(a, revision)) then Refused(StaleRevision)
      else Written(Waiting(a, Idle, at).(searchCommand := Some(command), searchCompletedAt := None,
                      queueStatus := NoQueue, queueSummary := ""), false)
    case CompleteSearch(revision, command, at) =>
      if !(a.searchCommand == Some(command) && Current(a, revision)) then Refused(StaleRevision)
      else Written(a.(searchCompletedAt := Some(at), revision := a.revision + 1, updatedAt := at), false)
    case BeginRelease(revision, release, at) =>
      if !(a.Visible() && a.Locked() && a.mutation == Idle && Current(a, revision)) then Refused(StaleRevision)
      else Written(Waiting(a, Grabbing, at).(release := Some(release), manualAttempts := a.manualAttempts + 1,
                      queueStatus := NoQueue, queueSummary := ""), false)
    case Abandon(revision, actor, abandonment, at) =>
      if !(a.Visible() && Current(a, revision)) then Refused(StaleRevision)
      else if Blank(abandonment) then Refused(StoreFailed)
      else Written(a.(status := Abandoned, reason := None, actionStartedAt := None, abandonedAt := Some(at),
                      abandonedBy := Some(actor), abandonmentReason := Some(abandonment), mutation := Idle,
                      searchClaimedAt := None, nextCheckAt := None, revision := a.revision + 1, updatedAt := at), false)
    case Retarget(title, year, tmdb, at) =>
      if !a.Open() then Refused(NotFound)
      else if a.Locked() || a.mutation != Idle then Refused(AcquisitionLocked)
      else Written(Retargeted(a, title, year, tmdb, at), false)
    case CancelWildcard(actor, at) => Written(Canceled(a, actor, at), false)
    case Reveal(at) =>
      if !a.Open() then Refused(NotFound)
      else Written(Revealed(a, at), true)
  }

  /** The row a draw or a wildcard selection inserts. */
  function Inserted(
    movieId: nat, title: string, year: Option<int>, tmdb: Option<nat>, imdb: Option<string>,
    source: Source, wildcardId: Option<nat>, drawnAt: int, revealAt: int, clientId: string, visible: bool
  ): Acquisition {
    Acquisition(movieId, 1, NeedsPreset, Some(PresetRequired), if visible then 1 else 0,
                if visible then Some(revealAt) else None,
                title, year, tmdb, imdb,
                if tmdb.Some? then Some(FromTmdb) else if imdb.Some? then Some(FromImdb) else None, None,
                drawnAt, revealAt, clientId, if visible then Some(revealAt) else None,
                None, None, None, None, false, NO_EFFECTIVE, false, None,
                Idle, None, None, None, None, 0, None, None, NoQueue, "", None, None,
                None, None, None, None, None, None, None, source, wildcardId, None, None, drawnAt, drawnAt)
  }

  /** What every stored row satisfies: the table's CHECK constraints, and which claims are
      legal before and after target lock. */
  ghost predicate RowOk(a: Acquisition) {
    && a.revision >= 1
    && (a.status == Downloaded <==> a.downloadedAt.Some?)
    && (a.status == Abandoned <==> a.abandonedAt.Some?)
    && (a.Locked() ==> a.target.Some? && a.Visible())
    && (a.radarrMovieId.Some? <==> a.Locked())
    && (a.mutation == Adding ==> !a.Locked() && a.target.Some?)
    && (a.mutation != Idle && a.mutation != Adding ==> a.Locked())
    && (a.status == Abandoned ==> a.mutation == Idle && a.reason.None?)
    && (a.Visible() ==> a.version >= 1)
    && (!a.Visible() ==> a.version == 0 && a.target.None? && a.mutation == Idle && a.searchCommand.None?)
  }

  lemma InsertedIsOk(
    movieId: nat, title: string, year: Option<int>, tmdb: Option<nat>, imdb: Option<string>,
    source: Source, wildcardId: Option<nat>, drawnAt: int, revealAt: int, clientId: string, visible: bool)
    ensures RowOk(Inserted(movieId, title, year, tmdb, imdb, source, wildcardId, drawnAt, revealAt, clientId, visible))
  {
  }

  /** The writes the services attempt. A concealed row reaches only Reveal and a Movie
      correction, because every admin path loads visible rows first; a finished download
      is recorded without a reason. */
  predicate Offered(a: Acquisition, w: Write) {
    && (a.Visible() || w.Reveal? || w.Retarget?)
    && (w.Move? && w.transition.status == Downloaded ==> w.transition.reason.None?)
    && (w.LockTarget? && w.lock.status == Downloaded ==> w.lock.reason.None?)
  }

  /** Statements that prepare an unlocked row. */
  predicate Prepares(w: Write) {
    w.SelectPreset? || w.OverrideIdentity? || w.RecordPreview? || w.ResolveImdb? || w.BeginAdd? || w.Retarget?
  }

  /** Statements that replace the movie of a locked row. */
  predicate Replaces(w: Write) {
    w.BeginReplacementCheck? || w.BeginRecreation? || w.ReclaimReplacement? || w.RenewRecreation? || w.ReplaceMovie?
  }

  /** Statements around a search or a grabbed release. */
  predicate Fetches(w: Write) {
    w.BeginSearch? || w.RecordSearch? || w.CompleteSearch? || w.BeginRelease?
  }

  lemma PreparingKeepsRowOk(a: Acquisition, w: Write)
    requires RowOk(a) && Offered(a, w) && Apply(a, w).Written? && Prepares(w)
    ensures RowOk(Apply(a, w).row)
  {
  }

  lemma ReplacingKeepsRowOk(a: Acquisition, w: Write)
    requires RowOk(a) && Offered(a, w) && Apply(a, w).Written? && Replaces(w)
    ensures RowOk(Apply(a, w).row)
  {
  }

  lemma FetchingKeepsRowOk(a: Acquisition, w: Write)
    requires RowOk(a) && Offered(a, w) && Apply(a, w).Written? && Fetches(w)
    ensures RowOk(Apply(a, w).row)
  {
  }

  lemma MovingKeepsRowOk(a: Acquisition, w: Write)
    requires RowOk(a) && Offered(a, w) && Apply(a, w).Written? && (w.Move? || w.LockTarget?)
    ensures RowOk(Apply(a, w).row)
  {
  }

  lemma EndingKeepsRowOk(a: Acquisition, w: Write)
    requires RowOk(a) && Offered(a, w) && Apply(a, w).Written? && (w.Abandon? || w.CancelWildcard? || w.Reveal?)
    ensures RowOk(Apply(a, w).row)
  {
  }

  lemma ApplyKeepsRowOk(a: Acquisition, w: Write)
    requires RowOk(a) && Offered(a, w) && Apply(a, w).Written?
    ensures RowOk(Apply(a, w).row)
  {
    if Prepares(w) {
      PreparingKeepsRowOk(a, w);
    } else if Replaces(w) {
      ReplacingKeepsRowOk(a, w);
    } else if Fetches(w) {
      FetchingKeepsRowOk(a, w);
    } else if w.Move? || w.LockTarget? {
      MovingKeepsRowOk(a, w);
    } else {
      EndingKeepsRowOk(a, w);
    }
  }
}
