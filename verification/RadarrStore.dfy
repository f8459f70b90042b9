/** The Acquisition, destination and delivery tables as the repository changes them, one
    transaction at a time, and the dispatcher's delivery loop over them
    (internal/repository/radarr_acquisition.go, internal/repository/radarr_webhook.go and
    internal/server/radarr_webhooks.go). */
module RadarrStore {
  import opened Domain
  import opened Acquisitions
  import opened Outbox
  import opened OutboxHistory

  /** How long a dispatcher may hold a claimed delivery, in seconds. */
  const CLAIM_LEASE := 30

  const UNDECRYPTABLE := "Stored webhook URL cannot be decrypted."

  /** radarrWebhookBackoff, in seconds. */
  function Backoff(attempt: nat): int {
    match attempt
    case 1 => 60
    case 2 => 5 * 60
    case 3 => 30 * 60
    case _ => 2 * 60 * 60
  }

  /** What happens after one claim: the stored URL cannot be read, or the endpoint answers. */
  datatype Answer = Undecryptable | Accepted | Failed(summary: string)

  /** One selected delivery of a dispatcher pass. `between` are the transactions of other
      workers that commit while the request is under way. */
  datatype Visit = Visit(c: Condition, claimedAt: int, between: seq<Step>, answer: Answer, doneAt: int)

  /** The completion a dispatcher attempts for its claim. */
  function Completion(v: Visit, claimed: Delivery): Step {
    match v.answer
    case Undecryptable => Fail(v.c, claimed.claimVersion, UNDECRYPTABLE, v.doneAt, true, v.doneAt)
    case Accepted => Succeed(v.c, claimed.claimVersion, v.doneAt)
    case Failed(summary) =>
      Fail(v.c, claimed.claimVersion, summary, v.doneAt + Backoff(claimed.attempts),
           claimed.attempts >= MAX_ATTEMPTS, v.doneAt)
  }

  function Claiming(v: Visit): Step {
    Step.Claim(v.c, v.claimedAt, v.claimedAt + CLAIM_LEASE)
  }

  function VisitSteps(t: Tables, v: Visit): seq<Step> {
    var claimed := ClaimForSend(t, v.c, v.claimedAt, v.claimedAt + CLAIM_LEASE).1;
    if claimed.None? then [Claiming(v)] else [Claiming(v)] + v.between + [Completion(v, claimed.value)]
  }

  /** The transactions of one pass, those of other workers included. */
  function PassSteps(t: Tables, visits: seq<Visit>): seq<Step>
    decreases |visits|
  {
    if visits == [] then []
    else
      var steps := VisitSteps(t, visits[0]);
      steps + PassSteps(RunSteps(t, steps), visits[1..])
  }

  predicate Takes(t: Tables, v: Visit) {
    ClaimForSend(t, v.c, v.claimedAt, v.claimedAt + CLAIM_LEASE).1.Some?
  }

  /** How many deliveries the pass takes on. */
  function Processed(t: Tables, visits: seq<Visit>): nat
    decreases |visits|
  {
    if visits == [] then 0
    else
      var v := visits[0];
      (if Takes(t, v) then 1 else 0) +
      Processed(RunSteps(t, VisitSteps(t, v)), visits[1..])
  }

  lemma {:induction false} RunSplits(t: Tables, first: seq<Step>, rest: seq<Step>)
    ensures RunSteps(t, first + rest) == RunSteps(RunSteps(t, first), rest)
    ensures LegalRun(t, first + rest) <==> LegalRun(t, first) && LegalRun(RunSteps(t, first), rest)
    decreases |first|
  {
    if first == [] {
      assert first + rest == rest;
    } else {
      assert (first + rest)[1..] == first[1..] + rest;
      RunSplits(Exec(t, first[0]), first[1..], rest);
    }
  }

  lemma OneStep(t: Tables, s: Step)
    ensures RunSteps(t, [s]) == Exec(t, s)
    ensures LegalRun(t, [s]) <==> Legal(t, s)
  {
    assert [s][1..] == [];
  }

  /** The other workers' transactions are legal where they commit. */
  ghost predicate OthersLegal(t: Tables, visits: seq<Visit>)
    decreases |visits|
  {
    visits == [] ||
    (var v := visits[0];
     && LegalRun(ClaimForSend(t, v.c, v.claimedAt, v.claimedAt + CLAIM_LEASE).0, v.between)
     && OthersLegal(RunSteps(t, VisitSteps(t, v)), visits[1..]))
  }

  lemma RunBetween(t: Tables, first: Step, middle: seq<Step>, last: Step)
    ensures RunSteps(t, [first] + middle + [last]) == Exec(RunSteps(Exec(t, first), middle), last)
    ensures LegalRun(t, [first] + middle + [last]) <==>
      Legal(t, first) && LegalRun(Exec(t, first), middle) && Legal(RunSteps(Exec(t, first), middle), last)
  {
    assert [first] + middle + [last] == [first] + (middle + [last]);
    RunSplits(t, [first], middle + [last]);
    OneStep(t, first);
    RunSplits(Exec(t, first), middle, [last]);
    OneStep(RunSteps(Exec(t, first), middle), last);
  }

  lemma CompletionIsLegal(t: Tables, v: Visit, claimed: Delivery)
    requires claimed.attempts == claimed.claimVersion
    ensures Legal(t, Completion(v, claimed))
  {
  }

  lemma ClaimCounts(t: Tables, v: Visit)
    requires Inv(t) && Takes(t, v)
    ensures var claimed := ClaimForSend(t, v.c, v.claimedAt, v.claimedAt + CLAIM_LEASE).1.value;
      claimed.attempts == claimed.claimVersion
  {
    ClaimableIsPendingAndDue(t, v.c, v.claimedAt, v.claimedAt + CLAIM_LEASE);
  }

  lemma ClaimExecutes(t: Tables, v: Visit)
    ensures Exec(t, Claiming(v)) == ClaimForSend(t, v.c, v.claimedAt, v.claimedAt + CLAIM_LEASE).0
    ensures Legal(t, Claiming(v))
  {
  }

  lemma VisitSplits(t: Tables, v: Visit)
    ensures var (after, claimed) := ClaimForSend(t, v.c, v.claimedAt, v.claimedAt + CLAIM_LEASE);
      && (claimed.None? ==> LegalRun(t, VisitSteps(t, v)))
      && (claimed.Some? ==>
            (LegalRun(t, VisitSteps(t, v)) <==>
             LegalRun(after, v.between) && Legal(RunSteps(after, v.between), Completion(v, claimed.value))))
  {
    var claimed := ClaimForSend(t, v.c, v.claimedAt, v.claimedAt + CLAIM_LEASE).1;
    ClaimExecutes(t, v);
    if claimed.None? {
      OneStep(t, Claiming(v));
    } else {
      RunBetween(t, Claiming(v), v.between, Completion(v, claimed.value));
    }
  }

  lemma VisitIsLegal(t: Tables, v: Visit)
    requires Inv(t) && LegalRun(ClaimForSend(t, v.c, v.claimedAt, v.claimedAt + CLAIM_LEASE).0, v.between)
    ensures LegalRun(t, VisitSteps(t, v))
  {
    VisitSplits(t, v);
    if Takes(t, v) {
      ClaimCounts(t, v);
      var (after, claimed) := ClaimForSend(t, v.c, v.claimedAt, v.claimedAt + CLAIM_LEASE);
      CompletionIsLegal(RunSteps(after, v.between), v, claimed.value);
    }
  }

  lemma VisitKeepsInv(t: Tables, v: Visit)
    requires Inv(t) && LegalRun(ClaimForSend(t, v.c, v.claimedAt, v.claimedAt + CLAIM_LEASE).0, v.between)
    ensures LegalRun(t, VisitSteps(t, v)) && Inv(RunSteps(t, VisitSteps(t, v)))
  {
    VisitIsLegal(t, v);
    RunKeepsInv(t, VisitSteps(t, v));
  }

  lemma LegalRunsJoin(t: Tables, first: seq<Step>, rest: seq<Step>)
    requires LegalRun(t, first) && LegalRun(RunSteps(t, first), rest) && Inv(RunSteps(RunSteps(t, first), rest))
    ensures LegalRun(t, first + rest) && Inv(RunSteps(t, first + rest))
  {
    RunSplits(t, first, rest);
  }

  /** A dispatcher pass takes legal steps only: it gives up exactly at the fifth attempt, so
      every guarantee of OutboxHistory covers any number of interleaved passes. */
  lemma {:induction false} PassIsLegal(t: Tables, visits: seq<Visit>)
    requires Inv(t) && OthersLegal(t, visits)
    ensures LegalRun(t, PassSteps(t, visits)) && Inv(RunSteps(t, PassSteps(t, visits)))
    decreases |visits|
  {
    if visits == [] {
      assert PassSteps(t, visits) == [];
    } else {
      var steps := VisitSteps(t, visits[0]);
      var rest := PassSteps(RunSteps(t, steps), visits[1..]);
      VisitKeepsInv(t, visits[0]);
      PassIsLegal(RunSteps(t, steps), visits[1..]);
      LegalRunsJoin(t, steps, rest);
      assert PassSteps(t, visits) == steps + rest;
    }
  }

  /** nextActionVersion, read off the row's current action. */
  method NextActionVersion(a: Acquisition, status: Status, reason: Option<Reason>, at: int)
    returns (version: nat, startedAt: Option<int>, enqueue: bool)
    ensures (version, startedAt, enqueue) == NextAction(a, status, reason, at)
    ensures enqueue <==> reason.Some? && (a.status, a.reason) != (status, reason)
    ensures version == if enqueue then a.version + 1 else a.version
  {
    version, startedAt, enqueue := a.version, None, false;
    if reason.Some? {
      if a.status == status && a.reason == reason {
        startedAt := Coalesce(a.actionStartedAt, at);
      } else {
        version, startedAt, enqueue := a.version + 1, Some(at), true;
      }
    }
  }

  /** The SET list of transitionAcquisition. */
  method TransitionedRow(a: Acquisition, expected: Option<nat>, t: Transition, reset: bool)
    returns (row: Acquisition, enqueue: bool)
    requires a.Open() && (expected.Some? ==> expected.value == a.revision) && t.status != Abandoned
    ensures Moving(a, expected, t, reset) == Written(row, enqueue)
  {
    var version, startedAt;
    version, startedAt, enqueue := NextActionVersion(a, t.status, t.reason, t.at);
    var failure, failureAt := a.failure, a.failureAt;
    if t.failure != "" {
      failure, failureAt := Some(t.failure), Some(t.at);
    }
    var queuedAt, downloadingAt, importingAt, downloadedAt := a.queuedAt, a.downloadingAt, a.importingAt, a.downloadedAt;
    match t.status {
      case Queued => queuedAt := Coalesce(queuedAt, t.at);
      case Downloading => downloadingAt := Coalesce(downloadingAt, t.at);
      case Importing => importingAt := Coalesce(importingAt, t.at);
      case Downloaded => downloadedAt := Coalesce(downloadedAt, t.at);
      case _ =>
    }
    var mutation, searchClaimedAt := a.mutation, a.searchClaimedAt;
    if reset {
      mutation, searchClaimedAt := Idle, None;
    }
    row := a.(status := t.status, reason := t.reason, version := version, actionStartedAt := startedAt,
              failure := failure, failureAt := failureAt, queueStatus := t.queueStatus, queueSummary := t.queueSummary,
              lastCheckedAt := Some(t.at), nextCheckAt := t.nextCheckAt, queuedAt := queuedAt,
              downloadingAt := downloadingAt, importingAt := importingAt, downloadedAt := downloadedAt,
              mutation := mutation, searchClaimedAt := searchClaimedAt, revision := a.revision + 1, updatedAt := t.at);
  }

  /** The SET list of LockAcquisitionTarget. */
  method LockedRow(a: Acquisition, lock: TargetLock) returns (row: Acquisition, enqueue: bool)
    requires a.Visible() && a.target.Some? && !a.Locked() && (a.mutation == Adding || a.mutation == Recreating) && a.Open()
    requires lock.status != Abandoned
    ensures Locking(a, lock) == Written(row, enqueue)
  {
    var version, startedAt;
    version, startedAt, enqueue := NextActionVersion(a, lock.status, lock.reason, lock.at);
    row := a.(lockedAt := Some(lock.at), lockedBy := Some(lock.lockedBy), radarrMovieId := Some(lock.radarrMovieId),
              adopted := lock.existing, effective := lock.effective, mutation := Idle,
              searchCommand := lock.command, status := lock.status, reason := lock.reason,
              version := version, actionStartedAt := startedAt,
              downloadedAt := if lock.status == Downloaded then Some(lock.at) else None,
              nextCheckAt := Some(lock.at + HANDOFF_LEASE), revision := a.revision + 1, updatedAt := lock.at);
  }

  /** The tables after an UPDATE, its trigger and, when there is a new action, its announcement. */
  function Saved(t: Tables, id: nat, row: Acquisition, enqueue: bool, now: int): Tables {
    var updated := Updated(t, id, true, row, now);
    if enqueue && row.Visible() && row.reason.Some?
    then Enqueue(updated, id, row.reason.value, row.version, ActionLabel(row), now)
    else updated
  }

  lemma WriteIsSaved(t: Tables, id: nat, w: Write, now: int, row: Acquisition, enqueue: bool)
    requires id in t.acquisitions && Apply(t.acquisitions[id], w) == Written(row, enqueue) && (w.Move? || w.LockTarget?)
    ensures WriteTx(t, id, w, now) == (Saved(t, id, row, enqueue, now), Ok(row))
  {
  }

  lemma TransitionIsSaved(
    t: Tables, id: nat, expected: Option<nat>, transition: Transition, reset: bool, now: int, row: Acquisition, enqueue: bool)
    requires id in t.acquisitions && Moving(t.acquisitions[id], expected, transition, reset) == Written(row, enqueue)
    ensures WriteTx(t, id, Move(expected, transition, reset), now) == (Saved(t, id, row, enqueue, now), Ok(row))
  {
    WriteIsSaved(t, id, Move(expected, transition, reset), now, row, enqueue);
  }

  lemma LockIsSaved(t: Tables, id: nat, lock: TargetLock, now: int, row: Acquisition, enqueue: bool)
    requires id in t.acquisitions && Locking(t.acquisitions[id], lock) == Written(row, enqueue)
    ensures WriteTx(t, id, LockTarget(lock), now) == (Saved(t, id, row, enqueue, now), Ok(row))
  {
    WriteIsSaved(t, id, LockTarget(lock), now, row, enqueue);
  }

  lemma WriteRefused(t: Tables, id: nat, w: Write, now: int, error: Error)
    requires id in t.acquisitions && Apply(t.acquisitions[id], w) == Refused(error)
    ensures WriteTx(t, id, w, now) == (t, Err(error))
  {
  }

  /** The refusals of a transition. */
  lemma TransitionRefused(t: Tables, id: nat, expected: Option<nat>, transition: Transition, reset: bool, now: int, error: Error)
    requires id in t.acquisitions && Moving(t.acquisitions[id], expected, transition, reset) == Refused(error)
    ensures WriteTx(t, id, Move(expected, transition, reset), now) == (t, Err(error))
  {
    WriteRefused(t, id, Move(expected, transition, reset), now, error);
  }

  class Store {
    var acquisitions: map<nat, Acquisition>
    var destinations: map<nat, Destination>
    var nextDestination: nat
    var deliveries: Deliveries

    constructor ()
      ensures Rows() == EMPTY
    {
      acquisitions, destinations, nextDestination, deliveries := map[], map[], 1, map[];
    }

    function Rows(): Tables
      reads this
    {
      Tables(acquisitions, destinations, nextDestination, deliveries)
    }

    /** The trigger that runs after an UPDATE of status, reason or version. */
    method SupersedeDeliveries(id: nat, now: int)
      requires id in acquisitions
      modifies this`deliveries
      ensures deliveries == map c | c in old(deliveries) :: Retire(c, old(deliveries)[c], id, acquisitions[id], now)
    {
      var row := acquisitions[id];
      deliveries := map c | c in deliveries ::
        if c.acquisition == id && deliveries[c].Live() && !Describes(c, deliveries[c], row)
        then deliveries[c].(status := Superseded, claimExpiresAt := None, resolvedAt := Some(now),
                            summary := "action condition resolved")
        else deliveries[c];
    }

    /** enqueueAcquisitionAction. */
    method EnqueueAction(id: nat, version: nat, reason: Reason, now: int)
      requires id in acquisitions && acquisitions[id].Visible()
      modifies this`deliveries
      ensures Rows() == Enqueue(old(Rows()), id, reason, version, ActionLabel(acquisitions[id]), now)
    {
      var a := acquisitions[id];
      var target := if a.target.None? then ""
                   else if a.target.value.presetName != "" then a.target.value.presetName
                   else a.target.value.instanceName;
      deliveries := Announced(Rows(), id, reason, version, target, now) + deliveries;
    }

    /** The statements a transition or a target lock commits together. */
    method Save(id: nat, row: Acquisition, enqueue: bool, now: int)
      requires id in acquisitions
      modifies this`acquisitions, this`deliveries
      ensures Rows() == Saved(old(Rows()), id, row, enqueue, now)
    {
      acquisitions := acquisitions[id := row];
      SupersedeDeliveries(id, now);
      if enqueue && row.Visible() && row.reason.Some? {
        EnqueueAction(id, row.version, row.reason.value, now);
      }
    }

    /** transitionAcquisition: with or without an expected revision, with or without ending
        the claim. */
    method TransitionAcquisition(id: nat, expected: Option<nat>, transition: Transition, reset: bool, now: int)
      returns (r: Result<Acquisition>)
      modifies this`acquisitions, this`deliveries
      ensures (Rows(), r) == WriteTx(old(Rows()), id, Move(expected, transition, reset), now)
    {
      if id !in acquisitions {
        return Err(NotFound);
      }
      var row := acquisitions[id];
      if row.status == Downloaded || row.status == Abandoned {
        TransitionRefused(Rows(), id, expected, transition, reset, now, Conflict);
        return Err(Conflict);
      }
      if expected.Some? && row.revision != expected.value {
        TransitionRefused(Rows(), id, expected, transition, reset, now, StaleRevision);
        return Err(StaleRevision);
      }
      if transition.status == Abandoned {
        TransitionRefused(Rows(), id, expected, transition, reset, now, StoreFailed);
        return Err(StoreFailed);
      }
      var enqueue;
      row, enqueue := TransitionedRow(row, expected, transition, reset);
      TransitionIsSaved(Rows(), id, expected, transition, reset, now, row, enqueue);
      Save(id, row, enqueue, now);
      return Ok(row);
    }

    /** LockAcquisitionTarget. */
    method LockAcquisitionTarget(id: nat, lock: TargetLock, now: int) returns (r: Result<Acquisition>)
      modifies this`acquisitions, this`deliveries
      ensures (Rows(), r) == WriteTx(old(Rows()), id, LockTarget(lock), now)
    {
      if id !in acquisitions {
        return Err(NotFound);
      }
      var row := acquisitions[id];
      if !(row.Visible() && row.target.Some? && !row.Locked() && (row.mutation == Adding || row.mutation == Recreating) &&
           row.Open()) {
        return Err(NotFound);
      }
      if lock.status == Abandoned {
        return Err(StoreFailed);
      }
      var enqueue;
      row, enqueue := LockedRow(row, lock);
      LockIsSaved(Rows(), id, lock, now, row, enqueue);
      Save(id, row, enqueue, now);
      return Ok(row);
    }

    /** UpdateWebhookDestination. */
    method UpdateDestination(id: nat, revision: nat, save: DestinationSave, now: int) returns (r: Result<nat>)
      modifies this`destinations, this`deliveries
      ensures (Rows(), r) == Outbox.UpdateDestination(old(Rows()), id, revision, save, now)
    {
      if id !in destinations || destinations[id].revision != revision || destinations[id].archivedAt.Some? {
        return Err(StaleRevision);
      }
      if save.enabled && save.verifiedAt.None? {
        return Err(StoreFailed);
      }
      destinations := destinations[id := destinations[id].(
        config := save.config, filters := save.filters, enabled := save.enabled, verifiedAt := save.verifiedAt,
        revision := destinations[id].revision + 1)];
      RetireLive(id, now, "destination configuration changed");
      return Ok(id);
    }

    method RetireLive(id: nat, at: int, summary: string)
      modifies this`deliveries
      ensures deliveries == map c | c in old(deliveries) :: EndLive(c, old(deliveries)[c], id, at, summary)
    {
      deliveries := map c | c in deliveries ::
        if c.destination == id && (deliveries[c].status == Pending || deliveries[c].status == Sending)
        then deliveries[c].(status := TerminalFailed, claimExpiresAt := None, resolvedAt := Some(at), summary := summary)
        else deliveries[c];
    }

    method ResolveFailures(id: nat, at: int)
      modifies this`deliveries
      ensures deliveries == map c | c in old(deliveries) :: Resolve(c, old(deliveries)[c], id, at)
    {
      deliveries := map c | c in deliveries ::
        if c.destination == id && deliveries[c].status == TerminalFailed
        then deliveries[c].(resolvedAt := Coalesce(deliveries[c].resolvedAt, at))
        else deliveries[c];
    }

    /** VerifyWebhookDestination. */
    method VerifyDestination(id: nat, revision: nat, at: int) returns (r: Result<nat>)
      modifies this`destinations, this`deliveries
      ensures (Rows(), r) == Outbox.VerifyDestination(old(Rows()), id, revision, at)
    {
      if id !in destinations || destinations[id].revision != revision || destinations[id].archivedAt.Some? {
        return Err(StaleRevision);
      }
      destinations := destinations[id := destinations[id].(verifiedAt := Some(at), warningAt := None, warningReason := "")];
      ResolveFailures(id, at);
      return Ok(id);
    }

    /** ArchiveWebhookDestination. */
    method ArchiveDestination(id: nat, at: int) returns (r: Result<nat>)
      modifies this`destinations, this`deliveries
      ensures (Rows(), r) == Outbox.ArchiveDestination(old(Rows()), id, at)
    {
      if id !in destinations || destinations[id].archivedAt.Some? {
        return Err(NotFound);
      }
      destinations := destinations[id := destinations[id].(
        enabled := false, warningAt := None, warningReason := "", archivedAt := Some(at))];
      ghost var was := deliveries;
      RetireLive(id, at, "destination archived");
      ResolveFailures(id, at);
      assert deliveries == map c | c in was :: Resolve(c, EndLive(c, was[c], id, at, "destination archived"), id, at);
      return Ok(id);
    }

    /** ClaimWebhookDeliveryForSend. */
    method Claim(c: Condition, now: int, expiresAt: int) returns (r: Option<Delivery>)
      modifies this`deliveries
      ensures (Rows(), r) == ClaimForSend(old(Rows()), c, now, expiresAt)
    {
      if c !in deliveries {
        return None;
      }
      var q := deliveries[c];
      if q.status != Pending || q.nextAttemptAt > now || q.attempts >= MAX_ATTEMPTS || !Sendable(Rows(), c, q) {
        return None;
      }
      q := q.(status := Sending, claimVersion := q.claimVersion + 1, claimExpiresAt := Some(expiresAt),
              attempts := q.attempts + 1, lastAttemptAt := Some(now));
      deliveries := deliveries[c := q];
      return Some(q);
    }

    /** RecoverExpiredWebhookDeliveryClaims: warn, end the last attempts, return the others. */
    method RecoverExpiredClaims(now: int)
      modifies this`destinations, this`deliveries
      ensures Rows() == RecoverExpired(old(Rows()), now)
    {
      var was := Rows();
      destinations := map d | d in was.destinations ::
        if was.destinations[d].archivedAt.None? && Interrupts(was, d, now)
        then was.destinations[d].(warningAt := Some(now), warningReason := INTERRUPTED)
        else was.destinations[d];
      EndInterrupted(now);
      ReturnExpired(now);
    }

    method EndInterrupted(now: int)
      modifies this`deliveries
      ensures deliveries == map c | c in old(deliveries) ::
        if old(deliveries)[c].attempts >= MAX_ATTEMPTS then Recover(old(deliveries)[c], now) else old(deliveries)[c]
    {
      deliveries := map c | c in deliveries ::
        if Expired(deliveries[c], now) && deliveries[c].attempts >= MAX_ATTEMPTS
        then deliveries[c].(status := TerminalFailed, claimExpiresAt := None, summary := INTERRUPTED)
        else deliveries[c];
    }

    method ReturnExpired(now: int)
      modifies this`deliveries
      ensures deliveries == map c | c in old(deliveries) ::
        if old(deliveries)[c].attempts < MAX_ATTEMPTS then Recover(old(deliveries)[c], now) else old(deliveries)[c]
    {
      deliveries := map c | c in deliveries ::
        if Expired(deliveries[c], now) && deliveries[c].attempts < MAX_ATTEMPTS
        then deliveries[c].(status := Pending, claimExpiresAt := None)
        else deliveries[c];
    }

    /** MarkWebhookDelivered. */
    method MarkDelivered(c: Condition, claimVersion: nat, at: int) returns (r: Result<Condition>)
      modifies this`destinations, this`deliveries
      ensures (Rows(), r) == Outbox.MarkDelivered(old(Rows()), c, claimVersion, at)
    {
      if !Holds(Rows(), c, claimVersion, at) {
        return Err(Conflict);
      }
      deliveries := deliveries[c := deliveries[c].(
        status := Delivered, claimExpiresAt := None, deliveredAt := Some(at), summary := "")];
      if c.destination in destinations {
        destinations := destinations[c.destination := destinations[c.destination].(warningAt := None, warningReason := "")];
      }
      ResolveFailures(c.destination, at);
      return Ok(c);
    }

    /** MarkWebhookDeliveryFailed. */
    method MarkFailed(
      c: Condition, claimVersion: nat, summary: string, nextAttemptAt: int, terminal: bool, at: int
    ) returns (r: Result<Condition>)
      modifies this`destinations, this`deliveries
      ensures (Rows(), r) == Outbox.MarkFailed(old(Rows()), c, claimVersion, summary, nextAttemptAt, terminal, at)
    {
      if !Holds(Rows(), c, claimVersion, at) {
        return Err(Conflict);
      }
      var status := Pending;
      if terminal {
        status := TerminalFailed;
      }
      deliveries := deliveries[c := deliveries[c].(
        status := status, claimExpiresAt := None, nextAttemptAt := nextAttemptAt, summary := summary)];
      if terminal && c.destination in destinations && destinations[c.destination].archivedAt.None? {
        destinations := destinations[c.destination := destinations[c.destination].(
          warningAt := Some(at), warningReason := summary)];
      }
      return Ok(c);
    }

    /** The transactions of other workers. */
    method Commit(steps: seq<Step>)
      modifies this
      ensures Rows() == RunSteps(old(Rows()), steps)
    {
      var t := RunSteps(Rows(), steps);
      acquisitions, destinations, nextDestination, deliveries :=
        t.acquisitions, t.destinations, t.nextDestination, t.deliveries;
    }

    /** The completion of a claim. */
    method Complete(v: Visit, claimed: Delivery)
      modifies this`destinations, this`deliveries
      ensures Rows() == Exec(old(Rows()), Completion(v, claimed))
    {
      match v.answer
      case Undecryptable =>
        var _ := MarkFailed(v.c, claimed.claimVersion, UNDECRYPTABLE, v.doneAt, true, v.doneAt);
      case Accepted =>
        var _ := MarkDelivered(v.c, claimed.claimVersion, v.doneAt);
      case Failed(summary) =>
        var attempt := claimed.attempts;
        var _ := MarkFailed(v.c, claimed.claimVersion, summary, v.doneAt + Backoff(attempt),
                            attempt >= MAX_ATTEMPTS, v.doneAt);
    }

    /** One claimed or skipped row of a pass: the claim, the request, and the completion
        with the version the claim was given. */
    method Deliver(v: Visit) returns (processed: bool)
      modifies this
      ensures Rows() == RunSteps(old(Rows()), VisitSteps(old(Rows()), v))
      ensures processed <==> Takes(old(Rows()), v)
    {
      ghost var before := Rows();
      ghost var claim := Step.Claim(v.c, v.claimedAt, v.claimedAt + CLAIM_LEASE);
      OneStep(before, claim);
      var claimed := Claim(v.c, v.claimedAt, v.claimedAt + CLAIM_LEASE);
      if claimed.None? {
        return false;
      }
      VisitRuns(before, v);
      Commit(v.between);
      Complete(v, claimed.value);
      return true;
    }

    /** deliverDueWebhooks after its recovery and its query, whose rows are `due`. */
    method DeliverDue(due: seq<Visit>) returns (processed: nat)
      modifies this
      ensures Rows() == RunSteps(old(Rows()), PassSteps(old(Rows()), due))
      ensures processed == Processed(old(Rows()), due)
    {
      processed := 0;
      var i := 0;
      ghost var here := Rows();
      PassStarts(here, due);
      while i < |due|
        invariant 0 <= i <= |due|
        invariant here == Rows()
        invariant Remains(old(Rows()), due, here, i, processed)
      {
        PassUnfolds(old(Rows()), due, here, i, processed);
        var claimed := Deliver(due[i]);
        here := RunSteps(here, VisitSteps(here, due[i]));
        if claimed {
          processed := processed + 1;
        }
        i := i + 1;
      }
      PassEnds(old(Rows()), due, here, processed);
    }
  }

  lemma VisitRuns(t: Tables, v: Visit)
    requires Takes(t, v)
    ensures var (after, claimed) := ClaimForSend(t, v.c, v.claimedAt, v.claimedAt + CLAIM_LEASE);
      RunSteps(t, VisitSteps(t, v)) == Exec(RunSteps(after, v.between), Completion(v, claimed.value))
  {
    var claimed := ClaimForSend(t, v.c, v.claimedAt, v.claimedAt + CLAIM_LEASE).1;
    ClaimExecutes(t, v);
    RunBetween(t, Claiming(v), v.between, Completion(v, claimed.value));
  }

  /** After i rows of a pass that began at `start`, the rest of the pass leads from here to
      its end. */
  ghost predicate Remains(start: Tables, due: seq<Visit>, here: Tables, i: nat, processed: nat)
    requires i <= |due|
  {
    && RunSteps(start, PassSteps(start, due)) == RunSteps(here, PassSteps(here, due[i..]))
    && Processed(start, due) == processed + Processed(here, due[i..])
  }

  lemma PassStarts(start: Tables, due: seq<Visit>)
    ensures Remains(start, due, start, 0, 0)
  {
    assert due[0..] == due;
  }

  lemma PassUnfolds(start: Tables, due: seq<Visit>, here: Tables, i: nat, processed: nat)
    requires i < |due| && Remains(start, due, here, i, processed)
    ensures Remains(start, due, RunSteps(here, VisitSteps(here, due[i])), i + 1,
                    if Takes(here, due[i]) then processed + 1 else processed)
  {
    assert due[i..][0] == due[i] && due[i..][1..] == due[i + 1..];
    var steps := VisitSteps(here, due[i]);
    RunSplits(here, steps, PassSteps(RunSteps(here, steps), due[i + 1..]));
  }

  lemma PassEnds(start: Tables, due: seq<Visit>, here: Tables, processed: nat)
    requires Remains(start, due, here, |due|, processed)
    ensures here == RunSteps(start, PassSteps(start, due)) && processed == Processed(start, due)
  {
    assert due[|due|..] == [];
  }
}
