# Verified model of the movie picker

This project models the parts of the movie picker in which several actors change shared state, and
proves what they may rely on. It is written for Dafny 4.11; `dafny verify dfyconfig.toml` checks all
of it.

## What is modelled

**The draw lifecycle.** Movies move between stash, pool, current, wildcard and watched. A draw is a
`current` movie with a concealed Acquisition, and a held draw with a timer in the running process.
`MovieStore` gives every transaction as a function from tables to tables, `DrawService` gives every
critical section of the service, and `DrawLifecycle` interleaves them with timers, shutdowns, failed
store calls and crashes, also crashes between a commit and the memory update that follows it.
`MovieService` holds the same transactions and commands as objects that change their fields.

- Pool cap: pooled movies, a wildcard taken from the pool and a held winner share three slots
  (`DrawTables`, `DrawTransactions`, `DrawGuarantees.PoolCap`).
- Crash refinement: a process holds exactly the draw the tables conceal, and a restart rebuilds it
  (`DrawGuarantees.RestartRebuildsHeldDraw`).
- Exactly-once reveal: one turn for a draw over all processes, one notification for a draw in a
  process, timers that reveal only their own draw, three retries.
- Winner independence: while a draw is held every command and listing is a function of the view in
  which the winner is still pooled (`WinnerIndependence`, `Listings`), so two winners of one pool
  cannot be told apart before the reveal.

**The Acquisition protocol.** `Acquisitions` gives every statement that writes one row of
`radarr_acquisitions`, `AcquisitionHistory` what every history of a row keeps. `RemoteCalls` runs
service procedures, written as small programs in `AcquisitionService`, on any number of workers
against one row and a Radarr that may answer anything; a command to Radarr needs a claim, and each
claim pays for one command. `SearchClaims` follows an automatic search with an unknown outcome over
every run of the procedures, and `SearchHistory` gives one run, event by event, that searches twice.

**The webhook outbox.** `Outbox` gives destinations, deliveries and the trigger that supersedes them,
`OutboxHistory` what every run keeps, `RadarrStore` the same transactions on fields and the
dispatcher's loop, interleaved with other workers. `WebhookCalls` counts the requests the endpoint
receives from racing dispatchers.

**Satellites.** The enrichment queue, the turn order, credentials and invites, the event stream with
the client's gap detection, the stats cache key, and the run history's pages.

## Assumptions

- One writer: a transaction is one step, and a store call that answers an error changed nothing.
- Unique indexes, CHECK constraints, foreign keys and the supersede trigger are those of
  `internal/db/migrations`. The tables start empty.
- Clocks are integer inputs. A stopped timer may still fire once.
- Radarr and the webhook endpoint may answer anything at any time.

## Where the code does not do what it promises

- **A cleared reason can come back.** Watching a revealed draw reveals its Acquisition again
  (`internal/repository/sqlite.go:1089-1093`), and `COALESCE` puts `preset_required` back under an
  unchanged action version and revision. `ReRevealReinstates` says exactly when,
  `ClearedReasonComesBack` gives a history, `ApplyMovesVersion` says that no other write does so, and
  `VersionNamesAction` holds for every history in which it does not happen.
- **An ambiguous search can lose its claim.** `confirmAcquisitionTarget` and `reconcileAmbiguousAdd`
  reset the claim without naming a revision, so an add that fails late drops a search claim another
  worker won meanwhile, and a second search may start. `SearchHistory.SecondSearchAfterBlindReset` is
  such a run from a freshly previewed Acquisition: one confirmation, three retries, two searches.
  `ClaimStaysUntilEnded` says exactly when the claim lasts, over any run: while the guard of none of
  the statements that end it holds. `UnseenLossExactly` and `UnseenLossGuard` say when a worker that
  has not read the claim ends it: exactly when it stands at a reset that names no revision and the
  row is open. `QuietSearchIsSafe` says that with no worker left over from an earlier decision the
  claim is never lost unseen and Radarr receives no further command, and `NewcomersOnlyRead` that no
  procedure begun since sends one even so. Commands still never outnumber claims
  (`OneCommandPerClaim`).
- **A heartbeat can report a gap that is none.** The stream empties its buffer before a heartbeat, but
  an event broadcast between that and the reading of the head number makes the client resync.
  `HeartbeatAlarmsExactly` gives the exact condition, `FalseAlarmHappens` an example.

## Model

| member | source | states |
|---|---|---|
| `WinnerIndependence.CommandAsSeen` | internal/movie/service.go:276-430 | during a held draw every command answers, and changes what clients see, as a reference semantics on the view with the winner pooled says |
| `WinnerIndependence.TwinsAnswerAlike` | internal/movie/service.go:276-430 | two states that look alike give equal answers to any sequence of commands and stay alike |
| `WinnerIndependence.WinnerStaysSecret` | internal/movie/service.go:652-710 | after any two draws from the same tables, with whatever winners, every sequence of commands is answered alike |
| `WinnerIndependence.DrawnView` | internal/movie/service.go:652-710 | right after a draw clients see the tables as they were before it |
| `WinnerIndependence.DrawStarts` | internal/movie/service.go:652-710 | every draw the service answers is such a started draw, of the movie that was picked |
| `WinnerIndependence.ToPoolAsSeen` | internal/movie/service.go:276-344 | a promotion is granted exactly when the pool as shown has room, whoever's winner is held |
| `Listings.PoolListingShowsView` | internal/movie/service.go:576-615 | a pool listing with the held winner put back is a pool listing of the view, in title order, without repeats |
| `Listings.MovieListShowsView` | internal/movie/service.go:460-473 | the movie list during a draw is a movie list of the view |
| `Listings.GetShowsView` | internal/movie/service.go:440-452 | a single movie is answered from the view |
| `Listings.TwinsListAlike` | internal/movie/service.go:576-639 | two states that look alike list the same pool rows, in the same order when titles are distinct |
| `Listings.TwinsShowAlike` | internal/movie/service.go:440-473 | the same for the list of all movies and for one movie |
| `Listings.Reads.InsertHeld` | internal/movie/service.go:596-615 | the two loops insert the winner before the first greater title, or not at all when it is listed |
| `Listings.Reads.ShowAll` | internal/movie/service.go:460-473 | the loop shows each movie as clients may see it |
| `DrawGuarantees.PoolCap` | internal/movie/service.go:276-344 | in every reachable state pooled movies plus a wildcard from the pool plus a held winner number at most three for each member |
| `DrawGuarantees.CancelNeverOverfills` | internal/repository/wildcard.go:313-377 | after a cancellation the pool and a held winner still fit in three slots |
| `DrawGuarantees.RestartRebuildsHeldDraw` | internal/movie/service.go:181-203 | at any point the held draw is the concealed one, and crash plus restart holds it again with the same deadline, armed |
| `DrawGuarantees.CommittedCrashIsRebuilt` | internal/movie/service.go:181-203 | a process started after a crash between commit and memory update holds what the tables conceal |
| `DrawGuarantees.EachDrawTurnsOnce` | internal/repository/sqlite.go:842-867 | over every run exactly the revealed draws have advanced the turn, each once |
| `DrawGuarantees.OnlyRevealsTurn` | internal/movie/service.go:733-833 | a step moves the turn only for one newly revealed draw, and then to the next participant |
| `DrawGuarantees.PublishedOncePerDraw` | internal/movie/service.go:753-833 | one process notifies a reveal at most once for a draw |
| `DrawGuarantees.TimerRevealsItsOwnDraw` | internal/movie/service.go:229-252 | a timer of one generation reveals no other, and nothing after the service closed |
| `DrawGuarantees.ArmedMeansOneLiveTimer` | internal/movie/service.go:221-262 | an armed deadline is one pending callback for the current unrevealed draw, and retries stay within three |
| `DrawGuarantees.RetriesRunOut` | internal/movie/service.go:239-252 | however often the store fails, an arming schedules at most three more timers |
| `DrawLifecycle.NextKeepsInv` | internal/movie/service.go:124-833 | every step, crash and restart keeps tables, memory, timers and the log of turns in agreement |
| `DrawLifecycle.ExecuteKeeps` | internal/movie/service.go:276-572 | every command keeps the tables sound and leaves the draw on stage alone |
| `DrawLifecycle.PoolLimitIsOk` | internal/movie/service.go:319-344 | the limit the service passes is the one the cap needs |
| `DrawTables.SlotsCount` | internal/repository/sqlite.go:1004-1030 | the count of a promotion is the number of slots in use |
| `DrawTables.ConcealedIs` | internal/repository/sqlite.go:965-989 | a concealed row is the one open draw of the one current movie |
| `DrawTables.NoOpenOffScreen` | internal/repository/wildcard.go:24-76 | pooled and stashed movies have no open Acquisition, so a draw or selection can always insert one |
| `DrawTransactions.StartDrawKeepsOk` | internal/repository/sqlite.go:789-837 | starting a draw keeps one current movie, sound rows and the cap |
| `DrawTransactions.RevealAndAdvanceKeepsOk` | internal/repository/sqlite.go:842-961 | revealing keeps the tables sound |
| `DrawTransactions.RevealLeavesNoneConcealed` | internal/repository/sqlite.go:871-911 | revealing the current movie leaves nothing concealed |
| `DrawTransactions.WatchKeepsOk` | internal/repository/sqlite.go:1054-1114 | watching keeps the tables sound |
| `DrawTransactions.PromotionKeepsOk` | internal/repository/sqlite.go:1004-1030 | a promotion under the right limit keeps the cap |
| `DrawTransactions.DemotionKeepsOk` | internal/repository/sqlite.go:991-1000 | a demotion keeps the tables sound |
| `DrawTransactions.DeleteCascadesNothing` | internal/repository/sqlite.go:1183-1200 | deleting a stashed or pooled movie cascades to no Acquisition |
| `DrawTransactions.CorrectKeepsOk` | internal/repository/sqlite.go:648-757 | a correction keeps statuses, adders, draws and selections sound |
| `DrawTransactions.StartWildcardKeepsOk` | internal/repository/wildcard.go:181-311 | selecting a wildcard keeps one active selection and the cap |
| `DrawTransactions.CancelKeepsOk` | internal/repository/wildcard.go:313-377 | cancelling returns the movie and closes its Acquisition, and keeps the cap |
| `DrawTransactions.WatchWildcardKeepsOk` | internal/repository/wildcard.go:379-428 | watching a wildcard keeps the tables sound |
| `MovieService.Tables.StartDraw` | internal/repository/sqlite.go:789-837 | the statements commit the draw of MovieStore.StartDraw, with its refusals in order |
| `MovieService.Tables.RevealDrawAndAdvance` | internal/repository/sqlite.go:842-867 | reveal and rotation in one transaction, or neither |
| `MovieService.Tables.RevealOpen` | internal/repository/sqlite.go:871-911 | the newest open Acquisition of the movie is revealed, if there is one |
| `MovieService.Tables.WatchCurrent` | internal/repository/sqlite.go:1054-1114 | watch, reveal and, for an unrevealed draw, rotation |
| `MovieService.Tables.PromoteIfRoom` | internal/repository/sqlite.go:1004-1030 | a stashed movie moves when pool count and reservation stay below the limit |
| `MovieService.Tables.CorrectMovie` | internal/repository/sqlite.go:648-757 | the correction and its refusals, open Acquisitions retargeted |
| `MovieService.Tables.DeleteMovie` | internal/repository/sqlite.go:1183-1200 | deletion, refused while a wildcard refers to the movie |
| `MovieService.Tables.StartWildcard` | internal/repository/wildcard.go:181-311 | the selection with its refusals, an added movie rolled back with it |
| `MovieService.Tables.CancelWildcard` | internal/repository/wildcard.go:313-377 | movie, selection and Acquisition change together |
| `MovieService.Tables.WatchWildcard` | internal/repository/wildcard.go:379-428 | the active wildcard becomes watched |
| `MovieService.Service.constructor` | internal/movie/service.go:156-203 | a new process holds and arms the concealed draw |
| `MovieService.Service.DrawRandom` | internal/movie/service.go:652-710 | the draw of the candidate at the random index, its refusals in order, and the candidates published |
| `MovieService.Service.StartAutoReveal` | internal/movie/service.go:715-729 | arms once, for the current unrevealed draw of an open service |
| `MovieService.Service.RetryAutoReveal` | internal/movie/service.go:239-252 | the spent timer is retired and at most three retries are scheduled |
| `MovieService.Service.RevealActive` | internal/movie/service.go:805-833 | the durable reveal first; a failure leaves the draw held, and only a timer retries |
| `MovieService.Service.MarkCurrentAsWatched` | internal/movie/service.go:733-764 | a failed watch changes nothing, a committed one ends the draw and notifies an unrevealed one |
| `MovieService.Service.MoveToPool` | internal/movie/service.go:276-314 | promotion under the service's limit, and its answers |
| `MovieService.Service.MoveToStash` | internal/movie/service.go:349-381 | demotion, refused alike for every pool tile during a draw |
| `MovieService.Service.Delete` | internal/movie/service.go:385-416 | deletion with its refusals in order |
| `MovieService.Service.Correct` | internal/movie/service.go:420-432 | refused while a draw is held |
| `MovieService.Service.Close` | internal/movie/service.go:212-217 | no deadline is armed afterwards |
| `Acquisitions.ApplyKeepsRowOk` | internal/repository/radarr_acquisition.go:245-863 | every statement keeps the CHECK constraints and the claims a row may carry |
| `AcquisitionHistory.RunEvolves` | internal/repository/radarr_acquisition.go:245-863 | over every history terminal states absorb, stage stamps are set once, and a locked target, its snapshot and its identity never change |
| `AcquisitionHistory.ApplyRaisesRevision` | internal/repository/radarr_acquisition.go:399-863 | every write raises the revision by one, except revealing a revealed row, which may only put a reason back |
| `AcquisitionHistory.OneWinnerPerRevision` | internal/repository/radarr_acquisition.go:399-863 | of all writers holding one revision at most one succeeds, in any history |
| `AcquisitionHistory.ClaimedAddKeepsTarget` | internal/repository/radarr_acquisition.go:245-316 | while an add is claimed the preset snapshot stays |
| `AcquisitionHistory.ApplyFollowsClaims` | internal/repository/radarr_acquisition.go:399-863 | claims start from idle and end at idle; a search claim starts only by its statement and ends only by a command or a reset |
| `AcquisitionHistory.ApplyMovesVersion` | internal/repository/radarr_acquisition.go:1007-1024 | versions grow by at most one, and a write changes the action under its version exactly when it re-reveals a row whose reason was cleared |
| `AcquisitionHistory.VersionNamesAction` | internal/repository/radarr_acquisition.go:1007-1024 | in every history without such a re-reveal an action version names one reason |
| `AcquisitionHistory.ReRevealReinstates` | internal/repository/sqlite.go:871-911 | revealing a revealed row changes the action under its version exactly when the reason had been cleared |
| `AcquisitionHistory.ClearedReasonComesBack` | internal/repository/sqlite.go:1089-1093 | a history in which a cleared reason comes back |
| `AcquisitionHistory.AnnouncementIsNew` | internal/repository/radarr_acquisition.go:1007-1053 | an announced action has a reason and a version the row did not have before, except on a repeated reveal |
| `RemoteCalls.OneCommandPerClaim` | internal/server/radarr_acquisition_service.go:437-495 | over any interleaving Radarr receives at most one command of a kind for each claim won |
| `RemoteCalls.SearchClaimFromIdle` | internal/repository/radarr_acquisition.go:742-765 | a search claim is won only from idle, and each counts once |
| `AcquisitionService.BodiesAreDisciplined` | internal/server/radarr_acquisition_service.go:159-1329 | every procedure sends a command only under a claim of its kind it has just won |
| `SearchClaims.ProceduresReadOnly` | internal/server/radarr_acquisition_service.go:497-537 | while a search is claimed every procedure only reads Radarr, on every path |
| `SearchClaims.ReaderStep` | internal/server/radarr_acquisition_service.go:497-537 | a step of such a procedure sends no command, wins no claim, and leaves it one that only reads |
| `SearchClaims.NewcomersOnlyRead` | internal/server/radarr_acquisition_service.go:497-537 | over any run, while the claim lasts, no procedure begun since sends a command or wins a claim |
| `SearchClaims.QuietSearchIsSafe` | internal/server/radarr_acquisition_service.go:595-627 | with no worker left over from an earlier decision, no command is sent while the claim lasts, and only a writer that has read it, or one from outside, ends it |
| `SearchClaims.ReconcileReadsOnly` | internal/server/radarr_reconciler.go:38-47 | a poll of a claimed search only reads |
| `SearchClaims.ReviewReadsOnly` | internal/server/radarr_acquisition_service.go:1213-1329 | an abandonment review only reads |
| `SearchClaims.AmbiguousAnswerKeepsClaim` | internal/server/radarr_acquisition_service.go:474-478 | an ambiguous answer leaves the claim and records the doubt, or writes nothing on a changed row |
| `SearchClaims.SearchEndsExactly` | internal/repository/radarr_acquisition.go:616-863 | a statement ends a search claim exactly when the guard of a recording, a reset, an abandonment or a cancellation holds |
| `SearchClaims.StepEndsExactly` | internal/server/radarr_acquisition_service.go:595-627 | which events of a run end a search claim, both ways |
| `SearchClaims.ClaimStaysUntilEnded` | internal/server/radarr_acquisition_service.go:595-627 | over any run a search claim lasts exactly when no event of the run ends it |
| `SearchClaims.UnseenLossExactly` | internal/server/radarr_acquisition_service.go:365-374 | a worker that has not read the claim ends it exactly when it stands at a reset without a revision and the row is open |
| `SearchClaims.UnseenLossGuard` | internal/server/radarr_acquisition_service.go:365-374 | such a worker can end the claim with its next statement exactly under that guard |
| `SearchClaims.StaleAddDropsSearchClaim` | internal/server/radarr_acquisition_service.go:365-374 | a definite failure of an add resets the row whatever happened to it meanwhile |
| `SearchHistory.SecondSearchAfterBlindReset` | internal/server/radarr_acquisition_service.go:365-374 | a run of the confirmation and three retries, event by event, that wins two search claims and sends both commands |
| `OutboxHistory.ExecKeepsInv` | internal/repository/radarr_webhook.go:110-530 | every step keeps deliveries current, counted, bounded and accounted for by warnings |
| `OutboxHistory.WarningsAreAccurate` | internal/repository/radarr_webhook.go:139-522 | in every reachable state an unarchived destination carries a warning exactly when it owns an unresolved terminal failure |
| `OutboxHistory.ClaimableIsPendingAndDue` | internal/repository/radarr_webhook.go:306-360 | a delivery is claimable exactly when pending and due, and the claim carries its count and describes the current action |
| `OutboxHistory.VersionsGrow` | internal/repository/radarr_acquisition.go:1007-1024 | action versions never decrease |
| `OutboxHistory.OutdatedIsNeverClaimed` | internal/repository/radarr_webhook.go:306-360 | once the action version has moved on the delivery is not claimed in any later state |
| `OutboxHistory.LeaseBoundary` | internal/repository/radarr_webhook.go:362-471 | at any moment a sending delivery is recoverable or completable, never both |
| `OutboxHistory.StaleClaimantChangesNothing` | internal/repository/radarr_webhook.go:415-501 | a claimant whose claim is gone changes nothing |
| `OutboxHistory.DeliveryTerminates` | internal/repository/radarr_webhook.go:306-501 | a delivery changes its status at most ten times, and a final one never again |
| `OutboxHistory.SendsAreBounded` | internal/repository/radarr_webhook.go:306-360 | a delivery is claimed for sending at most five times, once for each claim version |
| `WebhookCalls.EndpointIsCalledAtMostFiveTimes` | internal/server/radarr_webhooks.go:256-318 | over any run of racing and crashing dispatchers the endpoint is called at most five times for a delivery, at most once for each claim |
| `OutboxHistory.OneEndingPerClaim` | internal/repository/radarr_webhook.go:362-501 | of all completions and recoveries of one claim at most one takes effect |
| `RadarrStore.PassIsLegal` | internal/server/radarr_webhooks.go:256-318 | a dispatcher pass, interleaved with other workers, gives up exactly at the fifth attempt and keeps the outbox sound |
| `RadarrStore.TransitionedRow` | internal/repository/radarr_acquisition.go:648-740 | the computed columns are those of the transition statement |
| `RadarrStore.LockedRow` | internal/repository/radarr_acquisition.go:559-614 | the computed columns are those of the target lock |
| `RadarrStore.NextActionVersion` | internal/repository/radarr_acquisition.go:1007-1024 | a new version and an announcement exactly when a reason comes with a changed status or reason |
| `RadarrStore.Store.TransitionAcquisition` | internal/repository/radarr_acquisition.go:648-740 | row, trigger and announcement in one transaction, and the refusals |
| `RadarrStore.Store.LockAcquisitionTarget` | internal/repository/radarr_acquisition.go:559-614 | the target lock with its trigger and announcement |
| `RadarrStore.Store.SupersedeDeliveries` | internal/db/migrations/016_radarr.sql:324-341 | live deliveries the new row no longer describes are superseded |
| `RadarrStore.Store.UpdateDestination` | internal/repository/radarr_webhook.go:139-186 | the edit ends live deliveries of the old revision |
| `RadarrStore.Store.VerifyDestination` | internal/repository/radarr_webhook.go:188-221 | verification clears the warning and resolves failures |
| `RadarrStore.Store.ArchiveDestination` | internal/repository/radarr_webhook.go:223-264 | archiving ends and resolves deliveries |
| `RadarrStore.Store.Claim` | internal/repository/radarr_webhook.go:306-360 | the conditional claim |
| `RadarrStore.Store.RecoverExpiredClaims` | internal/repository/radarr_webhook.go:362-413 | expired claims return, or fail with a warning after the fifth attempt |
| `RadarrStore.Store.MarkDelivered` | internal/repository/radarr_webhook.go:415-456 | completion by the current claimant resolves earlier failures |
| `RadarrStore.Store.MarkFailed` | internal/repository/radarr_webhook.go:458-501 | failure by the current claimant, with a warning when terminal |
| `RadarrStore.Store.DeliverDue` | internal/server/radarr_webhooks.go:256-318 | the loop performs the pass and counts what it processed |
| `EnrichQueue.InFlightInOnePlace` | internal/server/enrich_worker.go:317-440 | each movie in flight is in exactly one place, queued at most once, in a queue within its capacity |
| `EnrichQueue.EveryEnqueueIsAnswered` | internal/server/enrich_worker.go:337-356 | at rest every enqueue, also during an attempt, has been followed by an attempt that started after it or by a drop or cancellation |
| `EnrichQueue.GivenUpOnlyWhenFullOrCanceled` | internal/server/enrich_worker.go:322-333 | a movie is given up only by a full queue or a canceled attempt |
| `EnrichQueue.AtMostOneInlineRerun` | internal/server/enrich_worker.go:515-539 | one dequeue makes at most two attempts |
| `EnrichQueue.Runner.TryEnqueue` | internal/server/enrich_worker.go:337-354 | claims a new movie, or asks for a rerun of one under attempt |
| `EnrichQueue.Runner.TryClaim` | internal/server/enrich_worker.go:358-366 | a drain leaves a movie in flight alone |
| `EnrichQueue.Runner.MarkProcessing` | internal/server/enrich_worker.go:368-375 | the attempt starts with the claim's trigger |
| `EnrichQueue.Runner.FinishAttempt` | internal/server/enrich_worker.go:388-413 | consumes one rerun or releases the claim |
| `Turn.DemotionIsRotation` | internal/repository/sqlite.go:343-444 | demoting the holder hands the turn to the member a rotation of the old roster would choose |
| `Turn.RotationsVisitEveryoneOnce` | internal/repository/sqlite.go:1118-1181 | n rotations over a roster of n visit everyone once and return to the start |
| `Turn.TurnStore.AdvanceNextUp` | internal/repository/sqlite.go:1118-1181 | the scan passes the turn to the next participant, and rests below two |
| `Turn.TurnStore.Skip` | internal/repository/sqlite.go:1278-1326 | a skip by the holder moves the turn, and not during an unrevealed draw |
| `Turn.TurnStore.SetFirstEligible` | internal/repository/sqlite.go:1247-1276 | the first participant gets the turn |
| `Turn.TurnStore.SetRole` | internal/repository/sqlite.go:343-444 | role and turn change together, and an admin remains |
| `Turn.Handoff` | internal/repository/sqlite.go:400-444 | the first participant after the seat, around the ring |
| `CredentialHistory.CredentialsAreClosed` | internal/repository/auth_transition.go:35-581 | over every run sessions imply credentials, an identity alone has no current invite, archived members own nothing, and no invite is both used and revoked |
| `CredentialHistory.ExecKeepsInv` | internal/repository/auth_transition.go:81-581 | every transition keeps owners, invites and the one current invite of a member |
| `CredentialHistory.InvitesSettleOnce` | internal/repository/invite.go:77-169 | over any run that does not delete it an invite is used or revoked at most once, for good, and keeps its member and handle |
| `CredentialHistory.StepSettles` | internal/repository/auth_transition.go:35-581 | each transition leaves an invite alone or settles a current one |
| `CredentialHistory.InviteIsClaimedOnce` | internal/repository/auth_transition.go:35-146 | of two claims of one invite at most one succeeds |
| `AuthStore.Store.RedeemPasswordInvite` | internal/repository/auth_transition.go:81-146 | credential, sessions and invite change together |
| `AuthStore.Store.SetLocalCredential` | internal/repository/auth_transition.go:148-215 | a password set retires the current invite |
| `AuthStore.Store.ChangeVerifiedPassword` | internal/repository/auth_transition.go:217-275 | a change against the verified hash rotates the sessions |
| `AuthStore.Store.CompleteLocalLogin` | internal/repository/auth_transition.go:277-327 | a session for the verified hash only |
| `AuthStore.Store.DeleteLocalCredential` | internal/repository/auth_transition.go:329-373 | the last credential takes the sessions with it, and not one's own |
| `AuthStore.Store.RedeemOidcInvite` | internal/repository/auth_transition.go:375-421 | links an identity, never by a reset invite |
| `AuthStore.Store.LinkOidcAndRetireInvite` | internal/repository/auth_transition.go:466-503 | links for a live session and retires the invite |
| `AuthStore.Store.DeleteOidcIdentity` | internal/repository/auth_transition.go:505-549 | the counterpart for identities |
| `AuthStore.Store.ReplaceCurrent` | internal/repository/invite.go:77-128 | one generation gives way to the next, or nothing changes |
| `AuthStore.Store.CreateMemberWithInvite` | internal/repository/member_invite_transition.go:15-73 | member, open turn and first invite together |
| `AuthStore.Store.RestoreMemberWithInvite` | internal/repository/member_invite_transition.go:77-122 | a restored member starts with nothing but the new invite |
| `EventBroker.QuietHeartbeatMeansComplete` | web/src/hooks/sseConnection.ts:45-101 | a client that has not resynced by a heartbeat has every event up to its head number |
| `EventBroker.LossIsDetected` | internal/server/events_handlers.go:49-145 | whatever the buffer dropped, the client has resynced by the first heartbeat that covers it |
| `EventBroker.FramesIncrease` | internal/server/events.go:74-87 | the event frames of a subscriber carry strictly increasing numbers |
| `EventBroker.HeartbeatAlarmsExactly` | internal/server/events_handlers.go:121-140 | without loss a heartbeat alarms exactly when an event came between drain and head |
| `EventBroker.FalseAlarmHappens` | internal/server/events_handlers.go:121-140 | a run with nothing lost and an alarm |
| `EventBroker.Broker.Subscribe` | internal/server/events.go:36-46 | an empty buffer and the head number, or nothing once closed |
| `EventBroker.Broker.Broadcast` | internal/server/events.go:74-87 | every subscriber is offered the next number |
| `EventBroker.BrokerRunsStreams` | internal/server/events.go:36-87 | the broker's operations are the steps of its subscribers' streams |
| `EventBroker.Broker.Unsubscribe` | internal/server/events.go:61-69 | one subscriber leaves |
| `EventBroker.Broker.Close` | internal/server/events.go:90-102 | all streams end |
| `EventBroker.DrainBufferedEvents` | internal/server/events_handlers.go:151-165 | the queued events are written in order |
| `StatsCacheKey.EqualKeysSelectAlike` | internal/server/stats_handlers.go:120-131 | requests with one key have the same window, zone, dates and members and select the same movies |
| `StatsCacheKey.EqualKeysAgree` | internal/server/stats_filters.go:79-83 | one key means one request up to the case of the genre, though a genre may contain the separator |
| `StatsCacheKey.ParseInvertsJoin` | internal/server/stats_filters.go:146-179 | reading a joined canonical list gives it back |
| `StatsCacheKey.ParsedIsCanonical` | internal/server/stats_filters.go:146-167 | reading gives a sorted list without repeats holding exactly the ids named |
| `StatsCacheKey.JoinIsInjective` | internal/server/stats_filters.go:170-179 | different lists join differently |
| `StatsCacheKey.ParseIdList` | internal/server/stats_filters.go:146-167 | the loop reads the list or refuses it |
| `StatsCacheKey.JoinIds` | internal/server/stats_filters.go:170-179 | the loop joins the ids |
| `StatsCacheKey.BinarySearch` | internal/server/stats_filters.go:183-191 | the search agrees with membership |
| `StatsCacheKey.CreditsContainPerson` | internal/server/stats_filters.go:183-191 | a credit of the kind names one of the ids |
| `StatsCacheKey.Cache.Get` | internal/server/stats_handlers.go:133-148 | an unexpired entry under its own key, or nothing |
| `StatsCacheKey.Cache.Set` | internal/server/stats_handlers.go:150-164 | stores within the bound, emptying a full cache |
| `StatsCacheKey.Cache.Invalidate` | internal/server/stats_handlers.go:166-173 | empties the cache |
| `RunHistory.FollowingListsAll` | internal/repository/integration_run.go:241-317 | following the cursors ends and lists every matching run, for every limit and filter |
| `RunHistory.WalkIsExact` | internal/repository/integration_run.go:241-317 | the walk is in descending order and lists each matching run exactly once |
| `RunHistory.NextPageContinues` | internal/repository/integration_run.go:260-267 | the next page continues exactly where a page ended |
| `RunHistory.List` | internal/repository/integration_run.go:241-268 | one row beyond the limit decides whether there is a cursor |

## Left out

- Deliveries are keyed by destination, Acquisition and version, their unique index; row ids, and a
  delivery created anew after its row was pruned, are not told apart.
- The dispatcher's query for due deliveries is an input: each row is checked again by its claim.
- Procedures run against one Acquisition row; the release cache, presets, instances and catalogs are
  answers of the environment, and the payloads of observations are arbitrary.
- SetMonitored may be repeated and is not counted as a command.
- The draw lifecycle and the outbox are separate tables: the announcement of a reveal is proved in
  `Outbox` only.
- EndpointIsCalledAtMostFiveTimes: covers runs that keep the delivery, because a pruned one may be
  announced anew and starts a new count.
- Reads that fail, and transactions that fail although they committed.
- Enrichment of titles, metadata, credits and the client-side reel.
- The TMDB and IMDb lookups behind a selection, an addition and a correction; titles arrive trimmed.
- Foreign keys that set a column to null when a member is deleted.
- Usernames compare by ASCII case; the Unicode comparison of the username check is not modelled.
- Login throttling, password hashing, token generation, the OIDC exchange and session expiry sweeps.
- Case folding of genres is any function that empties no text.
- Spaces are the ASCII ones; Unicode spaces in id lists are not modelled.
- The timeout and retry ladder of the event client, authentication of the stream, and SSE framing.
- HTTP handlers, routing, cookies, JSON, posters, backups, migrations, configuration and the web pages.
- The TMDB run controller, its scheduler, and the pruning of runs.
