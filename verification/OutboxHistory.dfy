/** What every history of the outbox keeps: live deliveries describe the current action,
    attempts are fenced and bounded, final deliveries stay final, and a health warning
    stands exactly for an unresolved failure. */
module OutboxHistory {
  import opened Domain
  import opened Acquisitions
  import opened AcquisitionHistory
  import opened Outbox

  /** One delivery against the rows it refers to. */
  ghost predicate DeliveryOk(t: Tables, c: Condition, q: Delivery) {
    && c.destination in t.destinations && c.acquisition in t.acquisitions
    && 1 <= c.version <= t.acquisitions[c.acquisition].version
    // A live delivery describes the current action for the current destination.
    && (q.Live() ==> Sendable(t, c, q))
    // Attempts are counted by the claim version and bounded.
    && q.claimVersion == q.attempts <= MAX_ATTEMPTS
    && (q.status == Pending ==> q.attempts < MAX_ATTEMPTS)
    && (q.status == Sending <==> q.claimExpiresAt.Some?)
    && (q.status == Sending ==> q.attempts >= 1)
    // Only terminal rows are resolved.
    && (q.resolvedAt.Some? ==> q.status == TerminalFailed || q.status == Superseded)
    && (q.status == Superseded ==> q.resolvedAt.Some?)
  }

  ghost predicate Unresolved(q: Delivery) {
    q.status == TerminalFailed && q.resolvedAt.None?
  }

  ghost predicate Owes(deliveries: Deliveries, destination: nat) {
    exists c :: c in deliveries && c.destination == destination && Unresolved(deliveries[c])
  }

  /** A destination carries a warning exactly when it owns an unresolved terminal failure;
      an archived one carries none. */
  ghost predicate WarningOk(destination: Destination, owes: bool) {
    && (destination.warningAt.Some? <==> owes)
    && (destination.archivedAt.Some? ==> destination.warningAt.None?)
  }

  ghost predicate Inv(t: Tables) {
    && (forall id :: id in t.acquisitions ==> RowOk(t.acquisitions[id]))
    && (forall d :: d in t.destinations ==> d < t.nextDestination)
    && (forall c :: c in t.deliveries ==> DeliveryOk(t, c, t.deliveries[c]))
    && (forall d :: d in t.destinations ==> WarningOk(t.destinations[d], Owes(t.deliveries, d)))
  }

  /** The steps the services take. A dispatcher gives up after its fifth attempt, which is
      the claim version it holds. */
  ghost predicate Legal(t: Tables, s: Step) {
    match s
    case Insert(row, _) =>
      RowOk(row) && row.Open() && (row.Visible() ==> row.version == 1 && row.reason == Some(PresetRequired))
    case AcquisitionWrite(id, w, _) => id in t.acquisitions ==> Offered(t.acquisitions[id], w)
    case Fail(_, claimVersion, _, _, terminal, _) => claimVersion >= MAX_ATTEMPTS ==> terminal
    case _ => true
  }

  // ---- Each kind of step keeps the invariant ----------------------------------------

  /** The debts of a destination depend on its unresolved failures only. */
  lemma SameDebts(before: Deliveries, after: Deliveries, d: nat)
    requires forall c :: c in before && c.destination == d && Unresolved(before[c]) ==>
      c in after && Unresolved(after[c])
    requires forall c :: c in after && c.destination == d && Unresolved(after[c]) ==>
      c in before && Unresolved(before[c])
    ensures Owes(before, d) <==> Owes(after, d)
  {
    if Owes(before, d) {
      var c :| c in before && c.destination == d && Unresolved(before[c]);
      assert Unresolved(after[c]);
    }
    if Owes(after, d) {
      var c :| c in after && c.destination == d && Unresolved(after[c]);
      assert Unresolved(before[c]);
    }
  }

  lemma EnqueueKeepsInv(t: Tables, id: nat, targetLabel: string, dueAt: int)
    requires Inv(t) && id in t.acquisitions
    requires var a := t.acquisitions[id]; a.Visible() && a.Open() && a.reason.Some? && a.version >= 1
    ensures var a := t.acquisitions[id]; Inv(Enqueue(t, id, a.reason.value, a.version, targetLabel, dueAt))
  {
    var a := t.acquisitions[id];
    var r := Enqueue(t, id, a.reason.value, a.version, targetLabel, dueAt);
    forall c | c in r.deliveries ensures DeliveryOk(r, c, r.deliveries[c]) {
      if c in t.deliveries {
        assert DeliveryOk(t, c, t.deliveries[c]);
      }
    }
    forall d | d in t.destinations ensures Owes(t.deliveries, d) <==> Owes(r.deliveries, d) {
      SameDebts(t.deliveries, r.deliveries, d);
    }
  }

  /** What a delivery is compared with. */
  predicate SameAnnouncement(a: Acquisition, b: Acquisition) {
    b.revealedAt == a.revealedAt && b.status == a.status && b.reason == a.reason && b.version == a.version
  }

  /** The trigger retires exactly the deliveries the new row no longer describes. */
  lemma RetireKeepsDelivery(t: Tables, c: Condition, q: Delivery, id: nat, fires: bool, row: Acquisition, now: int)
    requires DeliveryOk(t, c, q) && id in t.acquisitions && t.acquisitions[id].version <= row.version
    requires !fires ==> SameAnnouncement(t.acquisitions[id], row)
    ensures DeliveryOk(Updated(t, id, fires, row, now), c, if fires then Retire(c, q, id, row, now) else q)
  {
    assert Updated(t, id, fires, row, now).destinations == t.destinations;
  }

  lemma UpdateKeepsDebts(t: Tables, id: nat, fires: bool, row: Acquisition, now: int, d: nat)
    ensures Owes(t.deliveries, d) <==> Owes(Updated(t, id, fires, row, now).deliveries, d)
  {
    SameDebts(t.deliveries, Updated(t, id, fires, row, now).deliveries, d);
  }

  lemma UpdateKeepsInv(t: Tables, id: nat, fires: bool, row: Acquisition, now: int)
    requires Inv(t) && id in t.acquisitions && RowOk(row) && t.acquisitions[id].version <= row.version
    requires !fires ==> SameAnnouncement(t.acquisitions[id], row)
    ensures Inv(Updated(t, id, fires, row, now))
  {
    var r := Updated(t, id, fires, row, now);
    forall c | c in r.deliveries ensures DeliveryOk(r, c, r.deliveries[c]) {
      RetireKeepsDelivery(t, c, t.deliveries[c], id, fires, row, now);
    }
    forall d | d in t.destinations ensures WarningOk(r.destinations[d], Owes(r.deliveries, d)) {
      UpdateKeepsDebts(t, id, fires, row, now, d);
    }
  }

  lemma UntriggeredKeepsAction(a: Acquisition, w: Write)
    requires Apply(a, w).Written? && !FiresTrigger(w)
    ensures SameAnnouncement(a, Apply(a, w).row)
  {
  }

  /** An announced action belongs to an open, visible row. */
  lemma AnnouncedRowIsOpen(a: Acquisition, w: Write)
    requires RowOk(a) && Offered(a, w) && Apply(a, w).Written? && Apply(a, w).announce
    ensures Apply(a, w).row.Open() && Apply(a, w).row.Visible()
  {
  }

  lemma UpdateByWriteKeepsInv(t: Tables, id: nat, w: Write, now: int)
    requires Inv(t) && id in t.acquisitions && Offered(t.acquisitions[id], w) && Apply(t.acquisitions[id], w).Written?
    ensures Inv(Updated(t, id, FiresTrigger(w), Apply(t.acquisitions[id], w).row, now))
  {
    var a := t.acquisitions[id];
    ApplyKeepsRowOk(a, w);
    ApplyMovesVersion(a, w);
    if !FiresTrigger(w) {
      UntriggeredKeepsAction(a, w);
    }
    UpdateKeepsInv(t, id, FiresTrigger(w), Apply(a, w).row, now);
  }

  /** An Acquisition transaction changes nothing, updates the row, or announces it as well. */
  lemma WriteUpdates(t: Tables, id: nat, w: Write, now: int)
    ensures var after := WriteTx(t, id, w, now).0;
      || after == t
      || (id in t.acquisitions && Apply(t.acquisitions[id], w).Written? &&
          var row := Apply(t.acquisitions[id], w).row;
          var updated := Updated(t, id, FiresTrigger(w), row, now);
          || after == updated
          || (Apply(t.acquisitions[id], w).announce && row.reason.Some? &&
              after == Enqueue(updated, id, row.reason.value, row.version, TargetLabel(row, w), now)))
  {
  }

  lemma WriteKeepsInv(t: Tables, id: nat, w: Write, now: int)
    requires Inv(t) && id in t.acquisitions && Offered(t.acquisitions[id], w)
    ensures Inv(WriteTx(t, id, w, now).0)
  {
    var a := t.acquisitions[id];
    WriteUpdates(t, id, w, now);
    if Apply(a, w).Written? {
      UpdateByWriteKeepsInv(t, id, w, now);
      if Apply(a, w).announce {
        AnnouncementIsNew(a, w);
        AnnouncedRowIsOpen(a, w);
        var row := Apply(a, w).row;
        EnqueueKeepsInv(Updated(t, id, FiresTrigger(w), row, now), id, TargetLabel(row, w), now);
      }
    }
  }

  lemma InsertKeepsInv(t: Tables, row: Acquisition, now: int)
    requires Inv(t) && Legal(t, Insert(row, now))
    ensures Inv(InsertTx(t, row, Above(t.acquisitions.Keys), now))
  {
    var id := Above(t.acquisitions.Keys);
    var inserted := t.(acquisitions := t.acquisitions[id := row]);
    forall c | c in t.deliveries ensures DeliveryOk(inserted, c, inserted.deliveries[c]) {
      assert DeliveryOk(t, c, t.deliveries[c]);
    }
    if row.Visible() {
      EnqueueKeepsInv(inserted, id, "", now);
    }
  }

  lemma CreateKeepsInv(t: Tables, save: DestinationSave)
    requires Inv(t)
    ensures Inv(CreateDestination(t, save).0)
  {
    var r := CreateDestination(t, save).0;
    forall c | c in r.deliveries ensures DeliveryOk(r, c, r.deliveries[c]) {
      assert DeliveryOk(t, c, t.deliveries[c]);
    }
    forall d | d in r.destinations ensures WarningOk(r.destinations[d], Owes(r.deliveries, d)) {
      if d !in t.destinations {
        forall c | c in t.deliveries ensures c.destination != d {
          assert DeliveryOk(t, c, t.deliveries[c]);
        }
      }
    }
  }

  /** Ending or resolving the deliveries of a destination leaves each one well formed, and
      leaves other destinations' deliveries alone. */
  lemma EndedIsOk(t: Tables, c: Condition, q: Delivery, d: nat, at: int, summary: string, destination: Destination)
    requires DeliveryOk(t, c, q) && d in t.destinations
    ensures var after := t.(destinations := t.destinations[d := destination]);
      && DeliveryOk(after, c, EndLive(c, q, d, at, summary))
      && DeliveryOk(after, c, Resolve(c, EndLive(c, q, d, at, summary), d, at))
  {
  }

  lemma ResolvedIsOk(t: Tables, c: Condition, q: Delivery, d: nat, at: int)
    requires DeliveryOk(t, c, q)
    ensures DeliveryOk(t, c, Resolve(c, q, d, at))
  {
  }

  lemma WarningKeepsDelivery(t: Tables, c: Condition, q: Delivery, d: nat, destination: Destination)
    requires DeliveryOk(t, c, q) && d in t.destinations
    requires destination.Listening() <== t.destinations[d].Listening()
    requires destination.revision == t.destinations[d].revision
    ensures DeliveryOk(t.(destinations := t.destinations[d := destination]), c, q)
  {
  }

  lemma UpdateDestinationKeepsInv(t: Tables, id: nat, revision: nat, save: DestinationSave, now: int)
    requires Inv(t)
    ensures Inv(UpdateDestination(t, id, revision, save, now).0)
  {
    var (r, answer) := UpdateDestination(t, id, revision, save, now);
    if answer.Ok? {
      forall c | c in r.deliveries ensures DeliveryOk(r, c, r.deliveries[c]) {
        EndedIsOk(t, c, t.deliveries[c], id, now, "destination configuration changed", r.destinations[id]);
      }
      forall d | d in r.destinations ensures WarningOk(r.destinations[d], Owes(r.deliveries, d)) {
        SameDebts(t.deliveries, r.deliveries, d);
      }
    }
  }

  lemma VerifyKeepsInv(t: Tables, id: nat, revision: nat, at: int)
    requires Inv(t)
    ensures Inv(VerifyDestination(t, id, revision, at).0)
  {
    var (r, answer) := VerifyDestination(t, id, revision, at);
    if answer.Ok? {
      forall c | c in r.deliveries ensures DeliveryOk(r, c, r.deliveries[c]) {
        WarningKeepsDelivery(t, c, t.deliveries[c], id, r.destinations[id]);
        ResolvedIsOk(t.(destinations := r.destinations), c, t.deliveries[c], id, at);
      }
      forall d | d in r.destinations ensures WarningOk(r.destinations[d], Owes(r.deliveries, d)) {
        if d != id {
          SameDebts(t.deliveries, r.deliveries, d);
        }
      }
    }
  }

  lemma ArchiveKeepsInv(t: Tables, id: nat, at: int)
    requires Inv(t)
    ensures Inv(ArchiveDestination(t, id, at).0)
  {
    var (r, answer) := ArchiveDestination(t, id, at);
    if answer.Ok? {
      forall c | c in r.deliveries ensures DeliveryOk(r, c, r.deliveries[c]) {
        EndedIsOk(t, c, t.deliveries[c], id, at, "destination archived", r.destinations[id]);
      }
      forall d | d in r.destinations ensures WarningOk(r.destinations[d], Owes(r.deliveries, d)) {
        if d != id {
          SameDebts(t.deliveries, r.deliveries, d);
        }
      }
    }
  }

  /** Recovery warns a destination without changing what it listens to. */
  lemma RecoveredIsOk(t: Tables, c: Condition, q: Delivery, now: int, after: Tables)
    requires DeliveryOk(t, c, q) && after.acquisitions == t.acquisitions && c.destination in after.destinations
    requires var d, e := t.destinations[c.destination], after.destinations[c.destination];
      e.Listening() == d.Listening() && e.revision == d.revision
    ensures DeliveryOk(after, c, Recover(q, now))
  {
  }

  /** An interrupted final attempt is the debt its destination is warned for. */
  lemma InterruptionIsOwed(t: Tables, d: nat, now: int)
    requires Inv(t) && d in t.destinations && Interrupts(t, d, now)
    ensures Owes(RecoverExpired(t, now).deliveries, d) && t.destinations[d].archivedAt.None?
  {
    var c :| c in t.deliveries && c.destination == d && Expired(t.deliveries[c], now) &&
             t.deliveries[c].attempts >= MAX_ATTEMPTS;
    assert DeliveryOk(t, c, t.deliveries[c]);
    assert Unresolved(RecoverExpired(t, now).deliveries[c]);
  }

  lemma RecoveryWarns(t: Tables, d: nat, now: int)
    requires Inv(t) && d in t.destinations
    ensures var r := RecoverExpired(t, now); WarningOk(r.destinations[d], Owes(r.deliveries, d))
  {
    if Interrupts(t, d, now) {
      InterruptionIsOwed(t, d, now);
    } else {
      SameDebts(t.deliveries, RecoverExpired(t, now).deliveries, d);
    }
  }

  lemma RecoverKeepsInv(t: Tables, now: int)
    requires Inv(t)
    ensures Inv(RecoverExpired(t, now))
  {
    var r := RecoverExpired(t, now);
    forall c | c in r.deliveries ensures DeliveryOk(r, c, r.deliveries[c]) {
      RecoveredIsOk(t, c, t.deliveries[c], now, r);
    }
    forall d | d in r.destinations ensures WarningOk(r.destinations[d], Owes(r.deliveries, d)) {
      RecoveryWarns(t, d, now);
    }
  }

  lemma ClaimKeepsInv(t: Tables, c: Condition, now: int, expiresAt: int)
    requires Inv(t)
    ensures Inv(ClaimForSend(t, c, now, expiresAt).0)
  {
    var (r, claimed) := ClaimForSend(t, c, now, expiresAt);
    if claimed.Some? {
      forall k | k in r.deliveries ensures DeliveryOk(r, k, r.deliveries[k]) {
        assert DeliveryOk(t, k, t.deliveries[k]);
      }
      forall d | d in r.destinations ensures WarningOk(r.destinations[d], Owes(r.deliveries, d)) {
        SameDebts(t.deliveries, r.deliveries, d);
      }
    }
  }

  /** The row a successful send leaves. */
  function Sent(q: Delivery, at: int): Delivery {
    q.(status := Delivered, claimExpiresAt := None, deliveredAt := Some(at), summary := "")
  }

  lemma SentIsOk(t: Tables, c: Condition, q: Delivery, d: nat, destination: Destination, at: int)
    requires DeliveryOk(t, c, q) && d in t.destinations
    requires destination.Listening() <== t.destinations[d].Listening()
    requires destination.revision == t.destinations[d].revision
    ensures var after := t.(destinations := t.destinations[d := destination]);
      && DeliveryOk(after, c, Resolve(c, q, d, at))
      && (q.status == Sending ==> DeliveryOk(after, c, Resolve(c, Sent(q, at), d, at)))
  {
  }

  lemma SucceedPaysDebts(t: Tables, c: Condition, claimVersion: nat, at: int, d: nat)
    requires Inv(t) && d in t.destinations && MarkDelivered(t, c, claimVersion, at).1.Ok?
    ensures var r := MarkDelivered(t, c, claimVersion, at).0;
      d in r.destinations && WarningOk(r.destinations[d], Owes(r.deliveries, d))
  {
    var r := MarkDelivered(t, c, claimVersion, at).0;
    if d != c.destination {
      SameDebts(t.deliveries, r.deliveries, d);
    }
  }

  lemma SucceedKeepsInv(t: Tables, c: Condition, claimVersion: nat, at: int)
    requires Inv(t)
    ensures Inv(MarkDelivered(t, c, claimVersion, at).0)
  {
    var (r, answer) := MarkDelivered(t, c, claimVersion, at);
    if answer.Ok? {
      assert DeliveryOk(t, c, t.deliveries[c]);
      forall k | k in r.deliveries ensures DeliveryOk(r, k, r.deliveries[k]) {
        SentIsOk(t, k, t.deliveries[k], c.destination, r.destinations[c.destination], at);
      }
      forall d | d in r.destinations ensures WarningOk(r.destinations[d], Owes(r.deliveries, d)) {
        SucceedPaysDebts(t, c, claimVersion, at, d);
      }
    }
  }

  lemma FailWarns(
    t: Tables, c: Condition, claimVersion: nat, summary: string, nextAttemptAt: int, terminal: bool, at: int, d: nat)
    requires Inv(t) && d in t.destinations && Holds(t, c, claimVersion, at)
    ensures var r := MarkFailed(t, c, claimVersion, summary, nextAttemptAt, terminal, at).0;
      d in r.destinations && WarningOk(r.destinations[d], Owes(r.deliveries, d))
  {
    var r := MarkFailed(t, c, claimVersion, summary, nextAttemptAt, terminal, at).0;
    assert DeliveryOk(t, c, t.deliveries[c]);
    if terminal && d == c.destination {
      assert Unresolved(r.deliveries[c]);
    } else {
      SameDebts(t.deliveries, r.deliveries, d);
    }
  }

  lemma FailedIsOk(
    t: Tables, c: Condition, claimVersion: nat, summary: string, nextAttemptAt: int, terminal: bool, at: int, k: Condition)
    requires Inv(t) && (claimVersion >= MAX_ATTEMPTS ==> terminal) && Holds(t, c, claimVersion, at)
    ensures var r := MarkFailed(t, c, claimVersion, summary, nextAttemptAt, terminal, at).0;
      k in t.deliveries ==> k in r.deliveries && DeliveryOk(r, k, r.deliveries[k])
  {
    var r := MarkFailed(t, c, claimVersion, summary, nextAttemptAt, terminal, at).0;
    assert DeliveryOk(t, c, t.deliveries[c]);
    if k in t.deliveries {
      assert DeliveryOk(t, k, t.deliveries[k]);
      assert DeliveryOk(t, k, r.deliveries[k]);
      if terminal {
        WarningKeepsDelivery(t, k, r.deliveries[k], c.destination, r.destinations[c.destination]);
      }
    }
  }

  lemma FailKeepsInv(
    t: Tables, c: Condition, claimVersion: nat, summary: string, nextAttemptAt: int, terminal: bool, at: int)
    requires Inv(t) && (claimVersion >= MAX_ATTEMPTS ==> terminal)
    ensures Inv(MarkFailed(t, c, claimVersion, summary, nextAttemptAt, terminal, at).0)
  {
    var (r, answer) := MarkFailed(t, c, claimVersion, summary, nextAttemptAt, terminal, at);
    if answer.Ok? {
      forall k | k in r.deliveries ensures DeliveryOk(r, k, r.deliveries[k]) {
        FailedIsOk(t, c, claimVersion, summary, nextAttemptAt, terminal, at, k);
      }
      forall d | d in r.destinations ensures WarningOk(r.destinations[d], Owes(r.deliveries, d)) {
        FailWarns(t, c, claimVersion, summary, nextAttemptAt, terminal, at, d);
      }
    }
  }

  lemma PruneKeepsInv(t: Tables, now: int)
    requires Inv(t)
    ensures Inv(Prune(t, now))
  {
    var r := Prune(t, now);
    forall c | c in r.deliveries ensures DeliveryOk(r, c, r.deliveries[c]) {
      assert DeliveryOk(t, c, t.deliveries[c]);
    }
    forall d | d in r.destinations ensures WarningOk(r.destinations[d], Owes(r.deliveries, d)) {
      SameDebts(t.deliveries, r.deliveries, d);
    }
  }

  lemma ExecKeepsInv(t: Tables, s: Step)
    requires Inv(t) && Legal(t, s)
    ensures Inv(Exec(t, s))
  {
    match s
    case Insert(row, now) => InsertKeepsInv(t, row, now);
    case AcquisitionWrite(id, w, now) =>
      if id in t.acquisitions {
        WriteKeepsInv(t, id, w, now);
      }
    case Create(save) => CreateKeepsInv(t, save);
    case Update(id, revision, save, now) => UpdateDestinationKeepsInv(t, id, revision, save, now);
    case Verify(id, revision, at) => VerifyKeepsInv(t, id, revision, at);
    case Archive(id, at) => ArchiveKeepsInv(t, id, at);
    case Claim(c, now, expiresAt) => ClaimKeepsInv(t, c, now, expiresAt);
    case RecoverClaims(now) => RecoverKeepsInv(t, now);
    case Succeed(c, claimVersion, at) => SucceedKeepsInv(t, c, claimVersion, at);
    case Fail(c, claimVersion, summary, next, terminal, at) =>
      FailKeepsInv(t, c, claimVersion, summary, next, terminal, at);
    case PruneOld(now) => PruneKeepsInv(t, now);
  }

  // ---- Runs ---------------------------------------------------------------------------

  function RunSteps(t: Tables, steps: seq<Step>): Tables
    decreases |steps|
  {
    if steps == [] then t else RunSteps(Exec(t, steps[0]), steps[1..])
  }

  ghost predicate LegalRun(t: Tables, steps: seq<Step>)
    decreases |steps|
  {
    steps == [] || (Legal(t, steps[0]) && LegalRun(Exec(t, steps[0]), steps[1..]))
  }

  const EMPTY := Tables(map[], map[], 1, map[])

  lemma {:induction false} RunKeepsInv(t: Tables, steps: seq<Step>)
    requires Inv(t) && LegalRun(t, steps)
    ensures Inv(RunSteps(t, steps))
    decreases |steps|
  {
    if steps != [] {
      ExecKeepsInv(t, steps[0]);
      RunKeepsInv(Exec(t, steps[0]), steps[1..]);
    }
  }

  /** Warning accuracy, over every run from an empty database. */
  lemma WarningsAreAccurate(steps: seq<Step>, d: nat)
    requires LegalRun(EMPTY, steps) && d in RunSteps(EMPTY, steps).destinations
    requires RunSteps(EMPTY, steps).destinations[d].archivedAt.None?
    ensures var t := RunSteps(EMPTY, steps);
      t.destinations[d].warningAt.Some? <==>
      exists c :: c in t.deliveries && c.destination == d &&
                  t.deliveries[c].status == TerminalFailed && t.deliveries[c].resolvedAt.None?
  {
    RunKeepsInv(EMPTY, steps);
    var t := RunSteps(EMPTY, steps);
    if Owes(t.deliveries, d) {
      var c :| c in t.deliveries && c.destination == d && Unresolved(t.deliveries[c]);
      assert t.deliveries[c].status == TerminalFailed;
    }
    if c :| c in t.deliveries && c.destination == d &&
            t.deliveries[c].status == TerminalFailed && t.deliveries[c].resolvedAt.None? {
      assert Unresolved(t.deliveries[c]);
    }
  }

  /** A delivery can be claimed exactly when it is pending and due: the conditions a claim
      checks once more are kept by the trigger and by the destination updates. */
  lemma ClaimableIsPendingAndDue(t: Tables, c: Condition, now: int, expiresAt: int)
    requires Inv(t)
    ensures var (after, claimed) := ClaimForSend(t, c, now, expiresAt);
      && (claimed.Some? <==> c in t.deliveries && t.deliveries[c].status == Pending && t.deliveries[c].nextAttemptAt <= now)
      && (claimed.Some? ==> claimed.value.attempts == claimed.value.claimVersion <= MAX_ATTEMPTS &&
                            Describes(c, claimed.value, t.acquisitions[c.acquisition]))
      && (claimed.None? ==> after == t)
  {
    if c in t.deliveries {
      assert DeliveryOk(t, c, t.deliveries[c]);
    }
  }

  // ---- Outbox currency ----------------------------------------------------------------

  lemma WriteGrowsVersion(t: Tables, i: nat, w: Write, now: int, id: nat)
    requires id in t.acquisitions && RowOk(t.acquisitions[id])
    requires i in t.acquisitions ==> RowOk(t.acquisitions[i]) && Offered(t.acquisitions[i], w)
    ensures id in WriteTx(t, i, w, now).0.acquisitions
    ensures t.acquisitions[id].version <= WriteTx(t, i, w, now).0.acquisitions[id].version
  {
    WriteUpdates(t, i, w, now);
    if i in t.acquisitions && Apply(t.acquisitions[i], w).Written? {
      ApplyMovesVersion(t.acquisitions[i], w);
    }
  }

  /** Only its own transactions change an Acquisition. */
  lemma OthersKeepRows(t: Tables, s: Step, id: nat)
    requires id in t.acquisitions && !s.AcquisitionWrite?
    ensures id in Exec(t, s).acquisitions && Exec(t, s).acquisitions[id] == t.acquisitions[id]
  {
    if s.Insert? {
      assert Above(t.acquisitions.Keys) != id;
    }
  }

  lemma VersionsGrow(t: Tables, s: Step, id: nat)
    requires Inv(t) && Legal(t, s) && id in t.acquisitions
    ensures id in Exec(t, s).acquisitions
    ensures t.acquisitions[id].version <= Exec(t, s).acquisitions[id].version
  {
    match s
    case AcquisitionWrite(i, w, now) => WriteGrowsVersion(t, i, w, now, id);
    case _ => OthersKeepRows(t, s, id);
  }

  /** Once the action version has moved on, no later state of any run lets a dispatcher
      claim the old delivery. */
  lemma {:induction false} OutdatedIsNeverClaimed(
    t: Tables, steps: seq<Step>, c: Condition, now: int, expiresAt: int)
    requires Inv(t) && LegalRun(t, steps)
    requires c.acquisition in t.acquisitions && c.version < t.acquisitions[c.acquisition].version
    ensures ClaimForSend(RunSteps(t, steps), c, now, expiresAt) == (RunSteps(t, steps), None)
    decreases |steps|
  {
    if steps != [] {
      VersionsGrow(t, steps[0], c.acquisition);
      ExecKeepsInv(t, steps[0]);
      OutdatedIsNeverClaimed(Exec(t, steps[0]), steps[1..], c, now, expiresAt);
    }
  }

  // ---- Fencing and termination of one delivery -----------------------------------------

  /** Recovery and completion of one claim exclude each other at the lease boundary: at any
      moment a sending delivery is either recoverable or completable by its claimant. */
  lemma LeaseBoundary(t: Tables, c: Condition, at: int)
    requires Inv(t) && c in t.deliveries && t.deliveries[c].status == Sending
    ensures Expired(t.deliveries[c], at) <==> !Holds(t, c, t.deliveries[c].claimVersion, at)
  {
    assert DeliveryOk(t, c, t.deliveries[c]);
  }

  /** A claimant whose claim was recovered, superseded or taken over changes nothing. */
  lemma StaleClaimantChangesNothing(
    t: Tables, c: Condition, claimVersion: nat, summary: string, next: int, terminal: bool, at: int)
    requires c !in t.deliveries || t.deliveries[c].status != Sending ||
             t.deliveries[c].claimVersion != claimVersion || Expired(t.deliveries[c], at)
    ensures MarkDelivered(t, c, claimVersion, at) == (t, Err(Conflict))
    ensures MarkFailed(t, c, claimVersion, summary, next, terminal, at) == (t, Err(Conflict))
  {
  }

  /** How many more times a delivery may change its status. */
  function Measure(q: Delivery): int {
    if q.Live() then 2 * (MAX_ATTEMPTS - q.attempts) + (if q.status == Sending then 1 else 0) else 0
  }

  /** One step in the life of a delivery: it rests, or it moves and its measure falls. A
      claim is taken only from a pending delivery, and final deliveries rest for ever. */
  ghost predicate Follows(before: Delivery, after: Delivery) {
    && before.claimVersion <= after.claimVersion <= before.claimVersion + 1
    && (after.claimVersion != before.claimVersion ==> before.status == Pending && after.status == Sending)
    && (after.status == Sending ==> before.status == Sending || after.claimVersion != before.claimVersion)
    && (!before.Live() ==> after.status == before.status)
    && (after.status == before.status || (0 <= Measure(after) < Measure(before)))
  }

  /** An Acquisition transaction leaves a delivery alone or retires it. */
  lemma WriteRetires(t: Tables, id: nat, w: Write, now: int, c: Condition)
    requires c in t.deliveries
    ensures c in WriteTx(t, id, w, now).0.deliveries
    ensures var q, r := t.deliveries[c], WriteTx(t, id, w, now).0.deliveries[c];
      r == q || (id in t.acquisitions && Apply(t.acquisitions[id], w).Written? &&
                 r == Retire(c, q, id, Apply(t.acquisitions[id], w).row, now))
  {
    WriteUpdates(t, id, w, now);
  }

  lemma RetireFollows(c: Condition, q: Delivery, id: nat, row: Acquisition, now: int)
    requires q.attempts <= MAX_ATTEMPTS && (q.status == Pending ==> q.attempts < MAX_ATTEMPTS)
    ensures Follows(q, Retire(c, q, id, row, now))
  {
  }

  lemma WriteFollows(t: Tables, id: nat, w: Write, now: int, c: Condition)
    requires Inv(t) && c in t.deliveries
    ensures c in WriteTx(t, id, w, now).0.deliveries
    ensures Follows(t.deliveries[c], WriteTx(t, id, w, now).0.deliveries[c])
  {
    AttemptsAreBounded(t, c);
    WriteRetires(t, id, w, now, c);
    if id in t.acquisitions && Apply(t.acquisitions[id], w).Written? {
      RetireFollows(c, t.deliveries[c], id, Apply(t.acquisitions[id], w).row, now);
    }
  }

  lemma SucceedFollows(t: Tables, k: Condition, claimVersion: nat, at: int, c: Condition)
    requires Inv(t) && c in t.deliveries
    ensures c in MarkDelivered(t, k, claimVersion, at).0.deliveries
    ensures Follows(t.deliveries[c], MarkDelivered(t, k, claimVersion, at).0.deliveries[c])
  {
    assert DeliveryOk(t, c, t.deliveries[c]);
  }

  lemma FailFollows(
    t: Tables, k: Condition, claimVersion: nat, summary: string, next: int, terminal: bool, at: int, c: Condition)
    requires Inv(t) && c in t.deliveries && (claimVersion >= MAX_ATTEMPTS ==> terminal)
    ensures c in MarkFailed(t, k, claimVersion, summary, next, terminal, at).0.deliveries
    ensures Follows(t.deliveries[c], MarkFailed(t, k, claimVersion, summary, next, terminal, at).0.deliveries[c])
  {
    assert DeliveryOk(t, c, t.deliveries[c]);
  }

  lemma ClaimFollows(t: Tables, k: Condition, now: int, expiresAt: int, c: Condition)
    requires Inv(t) && c in t.deliveries
    ensures c in ClaimForSend(t, k, now, expiresAt).0.deliveries
    ensures Follows(t.deliveries[c], ClaimForSend(t, k, now, expiresAt).0.deliveries[c])
  {
    assert DeliveryOk(t, c, t.deliveries[c]);
  }

  lemma RecoverFollows(t: Tables, now: int, c: Condition)
    requires Inv(t) && c in t.deliveries
    ensures Follows(t.deliveries[c], RecoverExpired(t, now).deliveries[c])
  {
    assert DeliveryOk(t, c, t.deliveries[c]);
  }

  lemma EndedFollows(c: Condition, q: Delivery, d: nat, at: int, summary: string)
    requires q.attempts <= MAX_ATTEMPTS && (q.status == Pending ==> q.attempts < MAX_ATTEMPTS)
    ensures Follows(q, EndLive(c, q, d, at, summary)) && Follows(q, Resolve(c, EndLive(c, q, d, at, summary), d, at))
    ensures Follows(q, Resolve(c, q, d, at))
  {
  }

  lemma AttemptsAreBounded(t: Tables, c: Condition)
    requires Inv(t) && c in t.deliveries
    ensures var q := t.deliveries[c];
      q.attempts <= MAX_ATTEMPTS && (q.status == Pending ==> q.attempts < MAX_ATTEMPTS)
  {
    assert DeliveryOk(t, c, t.deliveries[c]);
  }

  /** What a change of destination does to one delivery. */
  lemma DestinationStepEnds(t: Tables, s: Step, c: Condition)
    requires c in t.deliveries && (s.Create? || s.Update? || s.Verify? || s.Archive?)
    ensures c in Exec(t, s).deliveries
    ensures var q, r := t.deliveries[c], Exec(t, s).deliveries[c];
      || r == q
      || (s.Update? && r == EndLive(c, q, s.id, s.now, "destination configuration changed"))
      || (s.Verify? && r == Resolve(c, q, s.id, s.at))
      || (s.Archive? && r == Resolve(c, EndLive(c, q, s.id, s.at, "destination archived"), s.id, s.at))
  {
  }

  lemma DestinationStepFollows(t: Tables, s: Step, c: Condition)
    requires Inv(t) && c in t.deliveries && (s.Create? || s.Update? || s.Verify? || s.Archive?)
    ensures c in Exec(t, s).deliveries && Follows(t.deliveries[c], Exec(t, s).deliveries[c])
  {
    AttemptsAreBounded(t, c);
    DestinationStepEnds(t, s, c);
    match s
    case Create(_) =>
    case Update(id, _, _, now) => EndedFollows(c, t.deliveries[c], id, now, "destination configuration changed");
    case Verify(id, _, at) => EndedFollows(c, t.deliveries[c], id, at, "");
    case Archive(id, at) => EndedFollows(c, t.deliveries[c], id, at, "destination archived");
  }

  lemma ExecFollows(t: Tables, s: Step, c: Condition)
    requires Inv(t) && Legal(t, s) && c in t.deliveries && c in Exec(t, s).deliveries
    ensures Follows(t.deliveries[c], Exec(t, s).deliveries[c])
  {
    match s
    case Insert(row, now) =>
    case AcquisitionWrite(id, w, now) => WriteFollows(t, id, w, now, c);
    case Claim(k, now, expiresAt) => ClaimFollows(t, k, now, expiresAt, c);
    case RecoverClaims(now) => RecoverFollows(t, now, c);
    case Succeed(k, v, at) => SucceedFollows(t, k, v, at, c);
    case Fail(k, v, summary, next, terminal, at) => FailFollows(t, k, v, summary, next, terminal, at, c);
    case PruneOld(now) =>
    case _ => DestinationStepFollows(t, s, c);
  }

  /** The run never prunes the delivery. */
  ghost predicate Present(t: Tables, steps: seq<Step>, c: Condition)
    decreases |steps|
  {
    c in t.deliveries && (steps == [] || Present(Exec(t, steps[0]), steps[1..], c))
  }

  /** The status changes of one delivery over a run. */
  ghost function Changes(t: Tables, steps: seq<Step>, c: Condition): nat
    requires Present(t, steps, c)
    decreases |steps|
  {
    if steps == [] then 0
    else
      var next := Exec(t, steps[0]);
      assert Present(next, steps[1..], c);
      (if next.deliveries[c].status != t.deliveries[c].status then 1 else 0) + Changes(next, steps[1..], c)
  }

  /** A delivery changes its status at most ten times, and a final one never again: the
      dispatcher cannot retry for ever. */
  lemma {:induction false} DeliveryTerminates(t: Tables, steps: seq<Step>, c: Condition)
    requires Inv(t) && LegalRun(t, steps) && Present(t, steps, c)
    ensures Changes(t, steps, c) <= Measure(t.deliveries[c]) <= 2 * MAX_ATTEMPTS
    ensures !t.deliveries[c].Live() ==>
      c in RunSteps(t, steps).deliveries && RunSteps(t, steps).deliveries[c].status == t.deliveries[c].status
    decreases |steps|
  {
    assert DeliveryOk(t, c, t.deliveries[c]);
    if steps != [] {
      assert Present(Exec(t, steps[0]), steps[1..], c);
      ExecFollows(t, steps[0], c);
      ExecKeepsInv(t, steps[0]);
      DeliveryTerminates(Exec(t, steps[0]), steps[1..], c);
    }
  }

  /** How often the delivery is sent in a run: the claims it gets. */
  ghost function Sends(t: Tables, steps: seq<Step>, c: Condition): nat
    requires Present(t, steps, c)
    decreases |steps|
  {
    if steps == [] then 0
    else
      var next := Exec(t, steps[0]);
      assert Present(next, steps[1..], c);
      (if next.deliveries[c].claimVersion > t.deliveries[c].claimVersion then 1 else 0) + Sends(next, steps[1..], c)
  }

  /** A delivery is claimed at most five times, once for each claim version. */
  lemma {:induction false} SendsAreBounded(t: Tables, steps: seq<Step>, c: Condition)
    requires Inv(t) && LegalRun(t, steps) && Present(t, steps, c)
    ensures c in RunSteps(t, steps).deliveries
    ensures Sends(t, steps, c) == RunSteps(t, steps).deliveries[c].claimVersion - t.deliveries[c].claimVersion
    ensures Sends(t, steps, c) <= MAX_ATTEMPTS - t.deliveries[c].claimVersion
    decreases |steps|
  {
    if steps == [] {
      assert DeliveryOk(t, c, t.deliveries[c]);
    } else {
      assert Present(Exec(t, steps[0]), steps[1..], c);
      ExecFollows(t, steps[0], c);
      ExecKeepsInv(t, steps[0]);
      SendsAreBounded(Exec(t, steps[0]), steps[1..], c);
    }
  }

  ghost predicate Holding(q: Delivery, claimVersion: nat) {
    q.claimVersion == claimVersion && q.status == Sending
  }

  /** The claim is no longer held: it was completed, recovered or superseded. */
  ghost predicate Ended(q: Delivery, claimVersion: nat) {
    claimVersion < q.claimVersion || (claimVersion == q.claimVersion && q.status != Sending)
  }

  /** The step completes or recovers this claim. */
  ghost predicate Ends(t: Tables, s: Step, c: Condition, claimVersion: nat)
    requires c in t.deliveries
  {
    match s
    case Succeed(k, v, at) => k == c && v == claimVersion && Holds(t, c, v, at)
    case Fail(k, v, _, _, _, at) => k == c && v == claimVersion && Holds(t, c, v, at)
    case RecoverClaims(now) => Holding(t.deliveries[c], claimVersion) && Expired(t.deliveries[c], now)
    case _ => false
  }

  lemma EndingEnds(t: Tables, s: Step, c: Condition, claimVersion: nat)
    requires c in t.deliveries && Ends(t, s, c, claimVersion)
    ensures Holding(t.deliveries[c], claimVersion)
    ensures c in Exec(t, s).deliveries && Ended(Exec(t, s).deliveries[c], claimVersion)
  {
  }

  /** The completions and recoveries of one claim that take effect in a run. */
  ghost function Endings(t: Tables, steps: seq<Step>, c: Condition, claimVersion: nat): nat
    requires Present(t, steps, c)
    decreases |steps|
  {
    if steps == [] then 0
    else (if Ends(t, steps[0], c, claimVersion) then 1 else 0) +
         Endings(Exec(t, steps[0]), steps[1..], c, claimVersion)
  }

  /** Of all completions and recoveries of one claim at most one takes effect, whichever
      dispatchers race. */
  lemma {:induction false} OneEndingPerClaim(t: Tables, steps: seq<Step>, c: Condition, claimVersion: nat)
    requires Inv(t) && LegalRun(t, steps) && Present(t, steps, c)
    ensures Endings(t, steps, c, claimVersion) <= 1
    ensures Ended(t.deliveries[c], claimVersion) ==> Endings(t, steps, c, claimVersion) == 0
    decreases |steps|
  {
    if steps != [] {
      assert Present(Exec(t, steps[0]), steps[1..], c);
      ExecFollows(t, steps[0], c);
      ExecKeepsInv(t, steps[0]);
      if Ends(t, steps[0], c, claimVersion) {
        EndingEnds(t, steps[0], c, claimVersion);
      }
      OneEndingPerClaim(Exec(t, steps[0]), steps[1..], c, claimVersion);
    }
  }
}
