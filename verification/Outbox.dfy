/** The webhook outbox: destinations, queued deliveries, and the transactions that claim,
    recover, complete and prune them (internal/repository/radarr_webhook.go), together
    with the trigger and inserts through which Acquisition writes reach it. */
module Outbox {
  import opened Domain
  import opened Acquisitions
  import opened AcquisitionHistory

  const MAX_ATTEMPTS := 5

  datatype Destination = Destination(
    config: nat, filters: set<Reason>, enabled: bool, verifiedAt: Option<int>, revision: nat,
    warningAt: Option<int>, warningReason: string, archivedAt: Option<int>)
  {
    predicate Listening() {
      enabled && verifiedAt.Some? && archivedAt.None?
    }
  }

  datatype DestinationSave = DestinationSave(config: nat, filters: set<Reason>, enabled: bool, verifiedAt: Option<int>)

  datatype SendStatus = Pending | Sending | Delivered | TerminalFailed | Superseded

  /** The unique index of a delivery: one destination, one Acquisition, one action version. */
  datatype Condition = Condition(destination: nat, acquisition: nat, version: nat)

  datatype Delivery = Delivery(
    destinationRevision: nat, reason: Reason, targetLabel: string,
    status: SendStatus, claimVersion: nat, claimExpiresAt: Option<int>, attempts: nat, nextAttemptAt: int,
    lastAttemptAt: Option<int>, deliveredAt: Option<int>, resolvedAt: Option<int>, summary: string)
  {
    predicate Live() {
      status == Pending || status == Sending
    }
  }

  type Deliveries = map<Condition, Delivery>

  datatype Tables = Tables(
    acquisitions: map<nat, Acquisition>,
    destinations: map<nat, Destination>, nextDestination: nat,
    deliveries: Deliveries)

  // ---- Acquisition writes reaching the outbox -------------------------------------

  /** Whether the delivery still describes the row's action. */
  predicate Describes(c: Condition, q: Delivery, a: Acquisition) {
    a.Visible() && a.Open() && a.reason == Some(q.reason) && a.version == c.version
  }

  /** Trigger radarr_acquisition_supersede_webhook_deliveries on one delivery. */
  function Retire(c: Condition, q: Delivery, id: nat, row: Acquisition, now: int): Delivery {
    if c.acquisition == id && q.Live() && !Describes(c, q, row)
    then q.(status := Superseded, claimExpiresAt := None, resolvedAt := Some(now), summary := "action condition resolved")
    else q
  }

  /** The trigger fires on statements whose SET list names status, reason or version. */
  predicate FiresTrigger(w: Write) {
    !w.ResolveImdb? && !w.CompleteSearch?
  }

  function ActionLabel(a: Acquisition): string {
    if a.target.None? then ""
    else if a.target.value.presetName == "" then a.target.value.instanceName
    else a.target.value.presetName
  }

  function TargetLabel(a: Acquisition, w: Write): string {
    if w.Reveal? then (if a.target.None? then "" else a.target.value.instanceName) else ActionLabel(a)
  }

  function NewDelivery(revision: nat, reason: Reason, targetLabel: string, dueAt: int): Delivery {
    Delivery(revision, reason, targetLabel, Pending, 0, None, 0, dueAt, None, None, None, "")
  }

  /** INSERT ... SELECT over the destinations listening for the reason. */
  function Announced(t: Tables, id: nat, reason: Reason, version: nat, targetLabel: string, dueAt: int): Deliveries {
    map d | d in t.destinations && t.destinations[d].Listening() && reason in t.destinations[d].filters ::
      Condition(d, id, version) := NewDelivery(t.destinations[d].revision, reason, targetLabel, dueAt)
  }

  /** ON CONFLICT DO NOTHING: an existing delivery of the condition stays as it is. */
  function Enqueue(t: Tables, id: nat, reason: Reason, version: nat, targetLabel: string, dueAt: int): Tables {
    t.(deliveries := Announced(t, id, reason, version, targetLabel, dueAt) + t.deliveries)
  }

  /** The error of a statement that finds no such row. */
  function Missing(w: Write): Error {
    if Expected(w).Some? && !w.Move? then StaleRevision else NotFound
  }

  /** The UPDATE of one row and the trigger it fires. */
  function Updated(t: Tables, id: nat, fires: bool, row: Acquisition, now: int): Tables {
    t.(acquisitions := t.acquisitions[id := row],
       deliveries := if fires then map c | c in t.deliveries :: Retire(c, t.deliveries[c], id, row, now)
                     else t.deliveries)
  }

  /** One Acquisition transaction: the UPDATE, its trigger, and the announcement. */
  function WriteTx(t: Tables, id: nat, w: Write, now: int): (Tables, Result<Acquisition>) {
    if id !in t.acquisitions then (t, Err(Missing(w)))
    else
      match Apply(t.acquisitions[id], w)
      case Refused(error) => (t, Err(error))
      case Written(row, announce) =>
        var updated := Updated(t, id, FiresTrigger(w), row, now);
        if announce && row.Visible() && row.reason.Some?
        then (Enqueue(updated, id, row.reason.value, row.version, TargetLabel(row, w), now), Ok(row))
        else (updated, Ok(row))
  }

  // ---- Destinations ---------------------------------------------------------------

  /** End every live delivery of a destination and mark it resolved. */
  function EndLive(c: Condition, q: Delivery, destination: nat, at: int, summary: string): Delivery {
    if c.destination == destination && q.Live()
    then q.(status := TerminalFailed, claimExpiresAt := None, resolvedAt := Some(at), summary := summary)
    else q
  }

  /** Resolve every terminal failure of a destination. */
  function Resolve(c: Condition, q: Delivery, destination: nat, at: int): Delivery {
    if c.destination == destination && q.status == TerminalFailed
    then q.(resolvedAt := Coalesce(q.resolvedAt, at))
    else q
  }

  function CreateDestination(t: Tables, save: DestinationSave): (Tables, Result<nat>) {
    if save.enabled && save.verifiedAt.None? then (t, Err(StoreFailed))
    else
      (t.(destinations := t.destinations[t.nextDestination :=
            Destination(save.config, save.filters, save.enabled, save.verifiedAt, 1, None, "", None)],
          nextDestination := t.nextDestination + 1),
       Ok(t.nextDestination))
  }

  predicate Addressed(t: Tables, id: nat, revision: nat) {
    id in t.destinations && t.destinations[id].revision == revision && t.destinations[id].archivedAt.None?
  }

  function UpdateDestination(t: Tables, id: nat, revision: nat, save: DestinationSave, now: int): (Tables, Result<nat>) {
    if !Addressed(t, id, revision) then (t, Err(StaleRevision))
    else if save.enabled && save.verifiedAt.None? then (t, Err(StoreFailed))
    else
      (t.(destinations := t.destinations[id := t.destinations[id].(
            config := save.config, filters := save.filters, enabled := save.enabled, verifiedAt := save.verifiedAt,
            revision := revision + 1)],
          deliveries := map c | c in t.deliveries ::
            EndLive(c, t.deliveries[c], id, now, "destination configuration changed")),
       Ok(id))
  }

  function VerifyDestination(t: Tables, id: nat, revision: nat, at: int): (Tables, Result<nat>) {
    if !Addressed(t, id, revision) then (t, Err(StaleRevision))
    else
      (t.(destinations := t.destinations[id := t.destinations[id].(
            verifiedAt := Some(at), warningAt := None, warningReason := "")],
          deliveries := map c | c in t.deliveries :: Resolve(c, t.deliveries[c], id, at)),
       Ok(id))
  }

  function ArchiveDestination(t: Tables, id: nat, at: int): (Tables, Result<nat>) {
    if id !in t.destinations || t.destinations[id].archivedAt.Some? then (t, Err(NotFound))
    else
      (t.(destinations := t.destinations[id := t.destinations[id].(
            enabled := false, warningAt := None, warningReason := "", archivedAt := Some(at))],
          deliveries := map c | c in t.deliveries ::
            Resolve(c, EndLive(c, t.deliveries[c], id, at, "destination archived"), id, at)),
       Ok(id))
  }

  // ---- Deliveries -----------------------------------------------------------------

  /** The EXISTS conditions of a claim: the destination and the action are unchanged. */
  predicate Sendable(t: Tables, c: Condition, q: Delivery) {
    && c.destination in t.destinations
    && t.destinations[c.destination].Listening()
    && t.destinations[c.destination].revision == q.destinationRevision
    && c.acquisition in t.acquisitions
    && Describes(c, q, t.acquisitions[c.acquisition])
  }

  function ClaimForSend(t: Tables, c: Condition, now: int, expiresAt: int): (Tables, Option<Delivery>) {
    if c in t.deliveries && t.deliveries[c].status == Pending && t.deliveries[c].nextAttemptAt <= now &&
       t.deliveries[c].attempts < MAX_ATTEMPTS && Sendable(t, c, t.deliveries[c])
    then
      var q := t.deliveries[c];
      var claimed := q.(status := Sending, claimVersion := q.claimVersion + 1, claimExpiresAt := Some(expiresAt),
                        attempts := q.attempts + 1, lastAttemptAt := Some(now));
      (t.(deliveries := t.deliveries[c := claimed]), Some(claimed))
    else (t, None)
  }

  predicate Expired(q: Delivery, now: int) {
    q.status == Sending && q.claimExpiresAt.Some? && q.claimExpiresAt.value <= now
  }

  const INTERRUPTED := "Webhook delivery was interrupted after its final attempt."

  function Recover(q: Delivery, now: int): Delivery {
    if !Expired(q, now) then q
    else if q.attempts >= MAX_ATTEMPTS then q.(status := TerminalFailed, claimExpiresAt := None, summary := INTERRUPTED)
    else q.(status := Pending, claimExpiresAt := None)
  }

  predicate Interrupts(t: Tables, destination: nat, now: int) {
    exists c :: c in t.deliveries && c.destination == destination &&
                Expired(t.deliveries[c], now) && t.deliveries[c].attempts >= MAX_ATTEMPTS
  }

  function RecoverExpired(t: Tables, now: int): Tables {
    t.(destinations := map d | d in t.destinations ::
         if t.destinations[d].archivedAt.None? && Interrupts(t, d, now)
         then t.destinations[d].(warningAt := Some(now), warningReason := INTERRUPTED)
         else t.destinations[d],
       deliveries := map c | c in t.deliveries :: Recover(t.deliveries[c], now))
  }

  /** The guard of every completion: the claim is still this one and has not expired. */
  predicate Holds(t: Tables, c: Condition, claimVersion: nat, at: int) {
    && c in t.deliveries
    && t.deliveries[c].status == Sending
    && t.deliveries[c].claimVersion == claimVersion
    && t.deliveries[c].claimExpiresAt.Some? && t.deliveries[c].claimExpiresAt.value > at
  }

  function MarkDelivered(t: Tables, c: Condition, claimVersion: nat, at: int): (Tables, Result<Condition>) {
    if !Holds(t, c, claimVersion, at) then (t, Err(Conflict))
    else
      var d := c.destination;
      var sent := t.deliveries[c].(status := Delivered, claimExpiresAt := None, deliveredAt := Some(at), summary := "");
      var deliveries := t.deliveries[c := sent];
      (t.(destinations := if d in t.destinations
                          then t.destinations[d := t.destinations[d].(warningAt := None, warningReason := "")]
                          else t.destinations,
          deliveries := map k | k in deliveries :: Resolve(k, deliveries[k], d, at)),
       Ok(c))
  }

  function MarkFailed(
    t: Tables, c: Condition, claimVersion: nat, summary: string, nextAttemptAt: int, terminal: bool, at: int
  ): (Tables, Result<Condition>) {
    if !Holds(t, c, claimVersion, at) then (t, Err(Conflict))
    else
      var d := c.destination;
      var failed := t.deliveries[c].(status := if terminal then TerminalFailed else Pending, claimExpiresAt := None,
                                     nextAttemptAt := nextAttemptAt, summary := summary);
      (t.(destinations := if terminal && d in t.destinations && t.destinations[d].archivedAt.None?
                          then t.destinations[d := t.destinations[d].(warningAt := Some(at), warningReason := summary)]
                          else t.destinations,
          deliveries := t.deliveries[c := failed]),
       Ok(c))
  }

  const DAY := 86_400

  predicate Prunable(q: Delivery, now: int) {
    || (q.status == Delivered && q.deliveredAt.Some? && q.deliveredAt.value < now - 30 * DAY)
    || ((q.status == TerminalFailed || q.status == Superseded) && q.resolvedAt.Some? &&
        q.resolvedAt.value < now - 90 * DAY)
  }

  function Prune(t: Tables, now: int): Tables {
    t.(deliveries := map c | c in t.deliveries && !Prunable(t.deliveries[c], now) :: t.deliveries[c])
  }

  // ---- Steps ----------------------------------------------------------------------

  datatype Step =
    | Insert(row: Acquisition, now: int)
    | AcquisitionWrite(id: nat, write: Write, now: int)
    | Create(save: DestinationSave)
    | Update(id: nat, revision: nat, save: DestinationSave, now: int)
    | Verify(id: nat, revision: nat, at: int)
    | Archive(id: nat, at: int)
    | Claim(c: Condition, now: int, expiresAt: int)
    | RecoverClaims(now: int)
    | Succeed(c: Condition, claimVersion: nat, at: int)
    | Fail(c: Condition, claimVersion: nat, summary: string, nextAttemptAt: int, terminal: bool, at: int)
    | PruneOld(now: int)

  /** A draw or a wildcard inserts its row; a visible one is announced at once. */
  function InsertTx(t: Tables, row: Acquisition, id: nat, now: int): Tables {
    var inserted := t.(acquisitions := t.acquisitions[id := row]);
    if row.Visible() then Enqueue(inserted, id, PresetRequired, 1, "", now) else inserted
  }

  ghost predicate IsLargest(rows: set<nat>, x: nat) {
    x in rows && forall j :: j in rows ==> j <= x
  }

  lemma {:induction false} LargestExists(rows: set<nat>)
    requires rows != {}
    ensures exists x :: IsLargest(rows, x)
  {
    var x :| x in rows;
    var rest := rows - {x};
    var largest := x;
    if rest != {} {
      LargestExists(rest);
      var y :| IsLargest(rest, y);
      largest := if x > y then x else y;
    }
    forall j | j in rows ensures j <= largest {
      assert j == x || j in rest;
    }
    assert IsLargest(rows, largest);
  }

  /** The row id SQLite gives an INTEGER PRIMARY KEY: one above the largest. */
  function Above(rows: set<nat>): (id: nat)
    ensures forall k :: k in rows ==> k < id
  {
    if rows == {} then 0
    else
      LargestExists(rows);
      assert exists x :: x in rows && forall j :: j in rows ==> j <= x by {
        var x :| IsLargest(rows, x);
      }
      var k :| k in rows && forall j :: j in rows ==> j <= k;
      k + 1
  }

  function Exec(t: Tables, s: Step): Tables {
    match s
    case Insert(row, now) => InsertTx(t, row, Above(t.acquisitions.Keys), now)
    case AcquisitionWrite(id, w, now) => WriteTx(t, id, w, now).0
    case Create(save) => CreateDestination(t, save).0
    case Update(id, revision, save, now) => UpdateDestination(t, id, revision, save, now).0
    case Verify(id, revision, at) => VerifyDestination(t, id, revision, at).0
    case Archive(id, at) => ArchiveDestination(t, id, at).0
    case Claim(c, now, expiresAt) => ClaimForSend(t, c, now, expiresAt).0
    case RecoverClaims(now) => RecoverExpired(t, now)
    case Succeed(c, claimVersion, at) => MarkDelivered(t, c, claimVersion, at).0
    case Fail(c, claimVersion, summary, next, terminal, at) =>
      MarkFailed(t, c, claimVersion, summary, next, terminal, at).0
    case PruneOld(now) => Prune(t, now)
  }
}
