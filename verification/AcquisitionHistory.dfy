/** What every history of one Acquisition row keeps: revisions, terminal states, stage
    stamps, the locked target, action versions and the claim graph. */
module AcquisitionHistory {
  import opened Domain
  import opened Acquisitions

  /** Whether a write raises the revision: every write but re-revealing a revealed row. */
  predicate Raises(a: Acquisition, w: Write) {
    !(w.Reveal? && a.Visible())
  }

  /** A nullable stamp that is set once. */
  predicate Stamped<T(==)>(before: Option<T>, after: Option<T>) {
    before.Some? ==> after == before
  }

  /** Stage stamps are set once. */
  ghost predicate KeepsStamps(a: Acquisition, b: Acquisition) {
    && Stamped(a.revealedAt, b.revealedAt)
    && Stamped(a.queuedAt, b.queuedAt)
    && Stamped(a.downloadingAt, b.downloadingAt)
    && Stamped(a.importingAt, b.importingAt)
    && Stamped(a.downloadedAt, b.downloadedAt)
    && Stamped(a.abandonedAt, b.abandonedAt)
  }

  /** The lock, the target snapshot and the identity stay once the target is locked. */
  ghost predicate KeepsLock(a: Acquisition, b: Acquisition) {
    a.Locked() ==> b.lockedAt == a.lockedAt && b.target == a.target && b.ResolvedTmdb() == a.ResolvedTmdb()
  }

  /** Two rows of one history, the second not earlier than the first. */
  ghost predicate Evolved(a: Acquisition, b: Acquisition) {
    && a.revision <= b.revision && a.version <= b.version
    // Terminal states absorb.
    && (!a.Open() ==> b.status == a.status && b.downloadedAt == a.downloadedAt && b.abandonedAt == a.abandonedAt)
    && KeepsStamps(a, b)
    && KeepsLock(a, b)
    // The draw itself is fixed.
    && b.movieId == a.movieId && b.source == a.source && b.wildcardId == a.wildcardId
    && b.drawnAt == a.drawnAt && b.revealAt == a.revealAt && b.clientId == a.clientId
  }

  /** The version names one action: it may have been cleared since, not exchanged. */
  ghost predicate SameAction(a: Acquisition, b: Acquisition) {
    a.version == b.version && b.reason.Some? ==> b.reason == a.reason
  }

  /** Revealing a revealed row whose reason was cleared puts a reason back. */
  predicate Reinstates(a: Acquisition, w: Write) {
    w.Reveal? && a.Visible() && a.Open() && a.reason.None?
  }

  /** The claim graph: a claim starts from idle, a replacement check may become a
      recreation, and every claim ends at idle. */
  predicate ClaimStep(before: Mutation, after: Mutation) {
    before == after || before == Idle || after == Idle || (before == CheckingReplacement && after == Recreating)
  }

  /** What one successful write does to a row, whichever statement it is. */
  ghost predicate Advances(a: Acquisition, w: Write, b: Acquisition) {
    && Evolved(a, b)
    && (Raises(a, w) ==> b.revision == a.revision + 1)
    && (!Raises(a, w) ==>
          b == a.(reason := b.reason, actionStartedAt := b.actionStartedAt) && (a.reason.Some? ==> b.reason == a.reason))
    && b.version <= a.version + 1 && (SameAction(a, b) <==> !Reinstates(a, w))
    && ClaimStep(a.mutation, b.mutation)
    && (a.mutation == Idle && b.mutation == Searching <==> w.BeginSearch?)
    && (a.mutation == Searching && b.mutation == Idle && b.Open() ==> w.RecordSearch? || (w.Move? && w.reset))
  }

  lemma PreparingEvolves(a: Acquisition, w: Write)
    requires RowOk(a) && Offered(a, w) && Apply(a, w).Written? && Prepares(w)
    ensures Evolved(a, Apply(a, w).row)
  {
  }

  lemma PreparingAdvances(a: Acquisition, w: Write)
    requires RowOk(a) && Offered(a, w) && Apply(a, w).Written? && Prepares(w)
    ensures Advances(a, w, Apply(a, w).row)
  {
    PreparingEvolves(a, w);
  }

  lemma CheckingAdvances(a: Acquisition, w: Write)
    requires RowOk(a) && Offered(a, w) && Apply(a, w).Written?
    requires w.BeginReplacementCheck? || w.BeginRecreation? || w.ReclaimReplacement?
    ensures Advances(a, w, Apply(a, w).row)
  {
  }

  lemma RecreatingAdvances(a: Acquisition, w: Write)
    requires RowOk(a) && Offered(a, w) && Apply(a, w).Written? && (w.RenewRecreation? || w.ReplaceMovie?)
    ensures Advances(a, w, Apply(a, w).row)
  {
  }

  lemma SearchingAdvances(a: Acquisition, w: Write)
    requires RowOk(a) && Offered(a, w) && Apply(a, w).Written? && (w.BeginSearch? || w.RecordSearch?)
    ensures Advances(a, w, Apply(a, w).row)
  {
  }

  lemma FetchingAdvances(a: Acquisition, w: Write)
    requires RowOk(a) && Offered(a, w) && Apply(a, w).Written? && (w.CompleteSearch? || w.BeginRelease?)
    ensures Advances(a, w, Apply(a, w).row)
  {
  }

  lemma MovingEvolves(a: Acquisition, w: Write)
    requires RowOk(a) && Offered(a, w) && Apply(a, w).Written? && w.Move?
    ensures Evolved(a, Apply(a, w).row)
  {
  }

  lemma MovingAdvances(a: Acquisition, w: Write)
    requires RowOk(a) && Offered(a, w) && Apply(a, w).Written? && w.Move?
    ensures Advances(a, w, Apply(a, w).row)
  {
    MovingEvolves(a, w);
  }

  lemma LockingAdvances(a: Acquisition, w: Write)
    requires RowOk(a) && Offered(a, w) && Apply(a, w).Written? && w.LockTarget?
    ensures Advances(a, w, Apply(a, w).row)
  {
  }

  lemma RevealingAdvances(a: Acquisition, w: Write)
    requires RowOk(a) && Offered(a, w) && Apply(a, w).Written? && w.Reveal?
    ensures Advances(a, w, Apply(a, w).row)
  {
  }

  lemma AbandoningAdvances(a: Acquisition, w: Write)
    requires RowOk(a) && Offered(a, w) && Apply(a, w).Written? && w.Abandon?
    ensures Advances(a, w, Apply(a, w).row)
  {
  }

  lemma CancelingAdvances(a: Acquisition, w: Write)
    requires RowOk(a) && Offered(a, w) && Apply(a, w).Written? && w.CancelWildcard?
    ensures Advances(a, w, Apply(a, w).row)
  {
  }

  lemma ApplyAdvances(a: Acquisition, w: Write)
    requires RowOk(a) && Offered(a, w) && Apply(a, w).Written?
    ensures Advances(a, w, Apply(a, w).row)
  {
    if Prepares(w) {
      PreparingAdvances(a, w);
    } else if w.RenewRecreation? || w.ReplaceMovie? {
      RecreatingAdvances(a, w);
    } else if Replaces(w) {
      CheckingAdvances(a, w);
    } else if w.BeginSearch? || w.RecordSearch? {
      SearchingAdvances(a, w);
    } else if Fetches(w) {
      FetchingAdvances(a, w);
    } else if w.Move? {
      MovingAdvances(a, w);
    } else if w.LockTarget? {
      LockingAdvances(a, w);
    } else if w.Reveal? {
      RevealingAdvances(a, w);
    } else if w.Abandon? {
      AbandoningAdvances(a, w);
    } else {
      CancelingAdvances(a, w);
    }
  }

  /** Every write but re-revealing raises the revision by exactly one; that one changes
      nothing but a cleared reason and its start. */
  lemma ApplyRaisesRevision(a: Acquisition, w: Write)
    requires RowOk(a) && Offered(a, w) && Apply(a, w).Written?
    ensures Raises(a, w) ==> Apply(a, w).row.revision == a.revision + 1
    ensures !Raises(a, w) ==> var b := Apply(a, w).row;
      b == a.(reason := b.reason, actionStartedAt := b.actionStartedAt) && (a.reason.Some? ==> b.reason == a.reason)
  {
    ApplyAdvances(a, w);
  }

  /** Versions grow by at most one, and a write changes the action under its version exactly
      when it reinstates a cleared reason. */
  lemma ApplyMovesVersion(a: Acquisition, w: Write)
    requires RowOk(a) && Offered(a, w) && Apply(a, w).Written?
    ensures a.version <= Apply(a, w).row.version <= a.version + 1
    ensures !SameAction(a, Apply(a, w).row) <==> Reinstates(a, w)
  {
    ApplyAdvances(a, w);
  }

  /** A queued announcement always carries a reason, at a version no earlier row had unless
      the write re-reveals. */
  lemma AnnouncementIsNew(a: Acquisition, w: Write)
    requires RowOk(a) && Offered(a, w) && Apply(a, w).Written? && Apply(a, w).announce
    ensures var b := Apply(a, w).row;
      && b.reason.Some? && b.version >= 1
      && (b.version == a.version + 1 || (w.Reveal? && a.Visible()))
  {
  }

  /** While an add is claimed the preset snapshot stays what the claimant read. */
  lemma ClaimedAddKeepsTarget(a: Acquisition, w: Write)
    requires RowOk(a) && Offered(a, w) && Apply(a, w).Written? && a.mutation == Adding
    ensures Apply(a, w).row.target == a.target
  {
  }

  lemma ApplyFollowsClaims(a: Acquisition, w: Write)
    requires RowOk(a) && Offered(a, w) && Apply(a, w).Written?
    ensures ClaimStep(a.mutation, Apply(a, w).row.mutation)
    ensures a.mutation == Idle && Apply(a, w).row.mutation == Searching <==> w.BeginSearch?
    ensures a.mutation == Searching && Apply(a, w).row.mutation == Idle && Apply(a, w).row.Open() ==>
      w.RecordSearch? || (w.Move? && w.reset)
  {
    ApplyAdvances(a, w);
  }

  /** One attempted statement: a refused one leaves the row alone. */
  function Attempt(a: Acquisition, w: Write): Acquisition {
    if Apply(a, w).Written? then Apply(a, w).row else a
  }

  function Run(a: Acquisition, ws: seq<Write>): Acquisition
    decreases |ws|
  {
    if ws == [] then a else Run(Attempt(a, ws[0]), ws[1..])
  }

  /** Each attempt of the run is one a caller could make on the row it finds. */
  ghost predicate Offers(a: Acquisition, ws: seq<Write>)
    decreases |ws|
  {
    ws == [] || (Offered(a, ws[0]) && Offers(Attempt(a, ws[0]), ws[1..]))
  }

  lemma AttemptKeeps(a: Acquisition, w: Write)
    requires RowOk(a) && Offered(a, w)
    ensures RowOk(Attempt(a, w)) && Evolved(a, Attempt(a, w))
  {
    if Apply(a, w).Written? {
      ApplyKeepsRowOk(a, w);
      ApplyAdvances(a, w);
    }
  }

  /** Every history keeps Evolved: terminal rows absorb, stamps are set once, and a locked
      target, its snapshot and its identity never change again. */
  lemma {:induction false} RunEvolves(a: Acquisition, ws: seq<Write>)
    requires RowOk(a) && Offers(a, ws)
    ensures RowOk(Run(a, ws)) && Evolved(a, Run(a, ws))
    decreases |ws|
  {
    if ws != [] {
      AttemptKeeps(a, ws[0]);
      RunEvolves(Attempt(a, ws[0]), ws[1..]);
    }
  }

  /** No write of the run reinstates a cleared reason. */
  ghost predicate NeverReinstates(a: Acquisition, ws: seq<Write>)
    decreases |ws|
  {
    ws == [] || (!Reinstates(a, ws[0]) && NeverReinstates(Attempt(a, ws[0]), ws[1..]))
  }

  /** Unless a write reinstates a cleared reason, a version names one action, however often
      the action was cleared and the row revealed. */
  lemma {:induction false} VersionNamesAction(a: Acquisition, ws: seq<Write>)
    requires RowOk(a) && Offers(a, ws) && NeverReinstates(a, ws)
    ensures SameAction(a, Run(a, ws))
    decreases |ws|
  {
    if ws != [] {
      var b := Attempt(a, ws[0]);
      AttemptKeeps(a, ws[0]);
      if Apply(a, ws[0]).Written? {
        ApplyMovesVersion(a, ws[0]);
      }
      VersionNamesAction(b, ws[1..]);
      RunEvolves(b, ws[1..]);
    }
  }

  /** Watching a revealed draw reveals its Acquisition once more. That write changes the
      action under an unchanged version exactly when the reason had been cleared. */
  lemma ReRevealReinstates(a: Acquisition, at: int)
    requires RowOk(a) && a.Visible() && a.Open()
    ensures !SameAction(a, Attempt(a, Reveal(at))) <==> a.reason.None?
    ensures a.reason.None? ==> Attempt(a, Reveal(at)).reason == Some(PresetRequired)
    ensures Attempt(a, Reveal(at)).version == a.version && Attempt(a, Reveal(at)).revision == a.revision
  {
  }

  /** A movie's draw before, and after, its Reveal and the choice of a preset. */
  function Drawn(): Acquisition {
    Inserted(1, "Heat", None, Some(949), None, Draw, None, 0, 16_500, "", false)
  }

  lemma OneWrite(a: Acquisition, w: Write)
    ensures Run(a, [w]) == Attempt(a, w)
  {
    assert Run(Attempt(a, w), []) == Attempt(a, w);
  }

  lemma PresetClears(a: Acquisition, target: Target)
    requires a.Visible() && a.Open() && !a.Locked() && a.mutation == Idle
    ensures var b := Attempt(a, SelectPreset(target, true));
      && b.reason == None && b.version == a.version && b.Visible() && b.Open() && b.revision == a.revision + 1
  {
  }

  lemma RevealAgain(a: Acquisition, at: int)
    requires a.Visible() && a.Open() && a.reason.None?
    ensures var b := Attempt(a, Reveal(at));
      b.reason == Some(PresetRequired) && b.version == a.version && b.revision == a.revision
  {
  }

  /** A history in which version 1 names an action, names none, and names it again. */
  lemma ClearedReasonComesBack(target: Target)
    ensures var drawn := Drawn();
      var revealed := Run(drawn, [Reveal(16_500)]);
      var chosen := Run(revealed, [SelectPreset(target, true)]);
      var watched := Run(chosen, [Reveal(90_000)]);
      && revealed.reason == Some(PresetRequired) && chosen.reason == None && watched.reason == Some(PresetRequired)
      && revealed.version == chosen.version == watched.version == 1
      && chosen.revision == watched.revision
  {
    var drawn := Drawn();
    var revealed := Attempt(drawn, Reveal(16_500));
    OneWrite(drawn, Reveal(16_500));
    assert revealed == Revealed(drawn, 16_500);
    PresetClears(revealed, target);
    var chosen := Attempt(revealed, SelectPreset(target, true));
    OneWrite(revealed, SelectPreset(target, true));
    RevealAgain(chosen, 90_000);
    OneWrite(chosen, Reveal(90_000));
  }

  /** The revision a compare-and-swap statement expects. */
  function Expected(w: Write): Option<nat> {
    match w
    case OverrideIdentity(r, _, _) => Some(r)
    case RecordPreview(r, _, _, _) => Some(r)
    case ResolveImdb(r, _, _) => Some(r)
    case BeginAdd(r, _) => Some(r)
    case BeginReplacementCheck(r, _) => Some(r)
    case BeginRecreation(r, _) => Some(r)
    case ReclaimReplacement(r, _, _) => Some(r)
    case RenewRecreation(r, _) => Some(r)
    case ReplaceMovie(r, _, _, _, _, _) => Some(r)
    case Move(expected, _, _) => expected
    case BeginSearch(r, _) => Some(r)
    case RecordSearch(r, _, _) => Some(r)
    case CompleteSearch(r, _, _) => Some(r)
    case BeginRelease(r, _, _) => Some(r)
    case Abandon(r, _, _, _) => Some(r)
    case SelectPreset(_, _) => None
    case LockTarget(_) => None
    case Retarget(_, _, _, _) => None
    case CancelWildcard(_, _) => None
    case Reveal(_) => None
  }

  lemma ExpectedIsCurrent(a: Acquisition, w: Write)
    requires Expected(w).Some? && Apply(a, w).Written?
    ensures Expected(w) == Some(a.revision)
  {
  }

  lemma WinnerHeldRevision(a: Acquisition, w: Write)
    requires RowOk(a) && Offered(a, w) && Expected(w).Some? && Apply(a, w).Written?
    ensures Expected(w) == Some(a.revision) && Attempt(a, w).revision == a.revision + 1
  {
    ExpectedIsCurrent(a, w);
    ApplyRaisesRevision(a, w);
  }

  /** How many of the run's statements that expect revision r succeed. */
  function Wins(a: Acquisition, ws: seq<Write>, r: nat): nat
    decreases |ws|
  {
    if ws == [] then 0
    else (if Expected(ws[0]) == Some(r) && Apply(a, ws[0]).Written? then 1 else 0) + Wins(Attempt(a, ws[0]), ws[1..], r)
  }

  /** Of any writers holding the same revision at most one succeeds, whoever else writes in
      between; none does once the row has moved past that revision. */
  lemma {:induction false} OneWinnerPerRevision(a: Acquisition, ws: seq<Write>, r: nat)
    requires RowOk(a) && Offers(a, ws)
    ensures Wins(a, ws, r) <= 1
    ensures a.revision > r ==> Wins(a, ws, r) == 0
    decreases |ws|
  {
    if ws != [] {
      AttemptKeeps(a, ws[0]);
      if Expected(ws[0]) == Some(r) && Apply(a, ws[0]).Written? {
        WinnerHeldRevision(a, ws[0]);
      }
      OneWinnerPerRevision(Attempt(a, ws[0]), ws[1..], r);
    }
  }
}
