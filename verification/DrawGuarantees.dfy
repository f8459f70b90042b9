/** What holds in every reachable state of the draw lifecycle, and what each step may do. */
module DrawGuarantees {
  import opened Domain
  import opened Turn
  import opened MovieStore
  import opened DrawTables
  import opened DrawTransactions
  import opened DrawService
  import opened DrawLifecycle

  const START := World(EMPTY, None, [])

  function RunEvents(w: World, events: seq<Event>): World
    decreases |events|
  {
    if events == [] then w else RunEvents(Next(w, events[0]), events[1..])
  }

  ghost predicate LegalRun(w: World, events: seq<Event>)
    decreases |events|
  {
    events == [] || (Legal(w, events[0]) && LegalRun(Next(w, events[0]), events[1..]))
  }

  lemma {:induction false} RunKeepsInv(w: World, events: seq<Event>)
    requires Inv(w) && LegalRun(w, events)
    ensures Inv(RunEvents(w, events))
    decreases |events|
  {
    if events != [] {
      NextKeepsInv(w, events[0]);
      RunKeepsInv(Next(w, events[0]), events[1..]);
    }
  }

  lemma ReachableKeepsInv(events: seq<Event>)
    requires LegalRun(START, events)
    ensures Inv(RunEvents(START, events))
  {
    forall user: nat ensures |Slots(EMPTY, user)| <= MAX_POOL {
      assert Slots(EMPTY, user) == {};
    }
    RunKeepsInv(START, events);
  }

  // ---- Pool cap ---------------------------------------------------------------------------

  /** Whose winner the running process holds. */
  predicate HoldsFor(w: World, user: nat) {
    w.server.Some? && Held(w.server.value).Some? &&
    w.server.value.active.value.movie in w.db.movies &&
    w.db.movies[w.server.value.active.value.movie].addedBy == user
  }

  /** In every reachable state each member's pooled movies, plus one for an active wildcard
      taken from their pool, plus one for a held winner of theirs, number at most three. */
  lemma PoolCap(events: seq<Event>, user: nat)
    requires LegalRun(START, events)
    ensures var w := RunEvents(START, events);
      |PooledBy(w.db, user)| + (if Reserves(w.db, user) then 1 else 0) + (if HoldsFor(w, user) then 1 else 0) <= MAX_POOL
  {
    ReachableKeepsInv(events);
    var w := RunEvents(START, events);
    SlotsCount(w.db, user);
    assert |Slots(w.db, user)| <= MAX_POOL;
    HeldCountsOnce(w, user);
  }

  lemma HeldCountsOnce(w: World, user: nat)
    requires w.server.Some? ==> HeldView(w.server.value) == ConcealedCurrentDraw(w.db)
    ensures HoldsFor(w, user) ==> HoldsWinnerOf(w.db, user)
  {
    if HoldsFor(w, user) {
      assert HeldView(w.server.value).Some?;
    }
  }

  /** Cancelling a wildcard never overfills a pool, even with a winner held. */
  lemma CancelNeverOverfills(events: seq<Event>, actor: nat, expected: nat, at: int, user: nat)
    requires LegalRun(START, events)
    ensures var w := RunEvents(START, events);
      var after := CancelWildcard(w.db, actor, expected, at).0;
      |PooledBy(after, user)| + (if HoldsFor(w, user) then 1 else 0) <= MAX_POOL
  {
    ReachableKeepsInv(events);
    var w := RunEvents(START, events);
    var after := CancelWildcard(w.db, actor, expected, at).0;
    CancelKeepsOk(w.db, actor, expected, at);
    CancelIsBackstage(w.db, actor, expected, at);
    BackstageKeepsInv(w, after);
    SlotsCount(after, user);
    assert |Slots(after, user)| <= MAX_POOL;
    HeldCountsOnce(w.(db := after), user);
    CancelKeepsAdders(w.db, actor, expected, at);
  }

  lemma CancelKeepsAdders(db: Db, actor: nat, expected: nat, at: int)
    ensures var after := CancelWildcard(db, actor, expected, at).0;
      after.movies.Keys == db.movies.Keys &&
      forall id :: id in db.movies ==> after.movies[id].addedBy == db.movies[id].addedBy
  {
  }

  // ---- Crash refinement -----------------------------------------------------------------------

  /** While a process runs, it holds a draw exactly when the tables conceal one, and it is the
      same draw; a restart at any point rebuilds it with the same deadline and arms it. */
  lemma RestartRebuildsHeldDraw(events: seq<Event>)
    requires LegalRun(START, events) && RunEvents(START, events).server.Some?
    ensures var w := RunEvents(START, events);
      var m := w.server.value;
      var n := Next(Next(w, Crash), Restart).server.value;
      && HeldView(n) == HeldView(m) == ConcealedCurrentDraw(w.db)
      && (Held(m).Some? ==> HasStatus(w.db, m.active.value.movie, Current))
      && (n.armed <==> Held(n).Some?)
  {
    ReachableKeepsInv(events);
    var w := RunEvents(START, events);
    RestartKeeps(w.(server := None));
  }

  /** A crash after a commit, before the memory followed, loses nothing either: what the next
      process holds is what the tables conceal. */
  lemma CommittedCrashIsRebuilt(events: seq<Event>)
    requires LegalRun(START, events) && RunEvents(START, events).server.None?
    ensures var w := RunEvents(START, events);
      HeldView(Next(w, Restart).server.value) == ConcealedCurrentDraw(w.db)
  {
    ReachableKeepsInv(events);
    RestartKeeps(RunEvents(START, events));
  }

  // ---- Exactly-once reveal ----------------------------------------------------------------------

  /** Over every run, crashes included, exactly the revealed draws have advanced the turn, each
      of them once. */
  lemma EachDrawTurnsOnce(events: seq<Event>, a: nat)
    requires LegalRun(START, events)
    ensures var w := RunEvents(START, events);
      && (a in w.turns <==> Shown(w.db, a))
      && multiset(w.turns)[a] <= 1
  {
    ReachableKeepsInv(events);
    DistinctCountsOnce(RunEvents(START, events).turns, a);
  }

  lemma {:induction false} DistinctCountsOnce(s: seq<nat>, a: nat)
    requires forall k :: 0 <= k < |s| ==> s[k] !in s[..k]
    ensures multiset(s)[a] <= 1
    decreases |s|
  {
    if s != [] {
      var n := |s| - 1;
      var init := s[..n];
      assert s == init + [s[n]];
      forall k | 0 <= k < n ensures init[k] !in init[..k] {
        assert init[..k] == s[..k];
      }
      DistinctCountsOnce(init, a);
    }
  }

  /** A step either leaves the log of turns alone or adds one draw that was not in it; only
      then, and on a skip or a change of members, does the turn move, and it moves to the
      next participant. */
  ghost predicate TurnsByReveal(w: World, next: World) {
    || (next.turns == w.turns && next.db.nextUp == w.db.nextUp)
    || (exists c :: c !in w.turns && next.turns == w.turns + [c] &&
                    next.db.nextUp == Rotated(Roster(w.db.users), w.db.nextUp))
  }

  lemma RevealTurns(w: World, m: Memory, at: int, n: Memory, survives: bool)
    requires Inv(w) && w.server == Some(m) && Held(m).Some?
    requires n.published == m.published + [m.active.value.(revealed := true)]
    ensures var after := RevealDrawAndAdvance(w.db, m.active.value.movie, at).0;
      TurnsByReveal(w, Committed(w, after, m, n, survives))
  {
    var c := HeldRow(w.db, m);
    assert !Shown(w.db, c);
    assert Turned(w.db, m, n) == [c];
    assert c !in w.turns;
  }

  lemma NoTurn(w: World, m: Memory, after: Db, n: Memory, survives: bool)
    requires n.published == m.published && after.nextUp == w.db.nextUp
    ensures TurnsByReveal(w, Committed(w, after, m, n, survives))
  {
    assert w.turns + [] == w.turns;
  }

  lemma WatchHeldTurns(w: World, m: Memory, after: Db, survives: bool)
    requires Inv(w) && w.server == Some(m) && Held(m).Some?
    requires after.nextUp == Rotated(Roster(w.db.users), w.db.nextUp)
    ensures TurnsByReveal(w, Committed(w, after, m, WatchedMemory(m), survives))
  {
    var c := HeldRow(w.db, m);
    assert !Shown(w.db, c);
    assert Turned(w.db, m, WatchedMemory(m)) == [c];
    assert c !in w.turns;
  }

  lemma WatchTurns(w: World, m: Memory, at: int, survives: bool)
    requires Inv(w) && w.server == Some(m) && WatchCurrent(w.db, at, Held(m).Some?).1.Ok?
    ensures var (after, n, _) := MarkWatched(w.db, m, at, false); TurnsByReveal(w, Committed(w, after, m, n, survives))
  {
    var (after, n, _) := MarkWatched(w.db, m, at, false);
    if Held(m).Some? {
      WatchHeldTurns(w, m, after, survives);
    } else {
      NoTurn(w, m, after, n, survives);
    }
  }

  lemma CommandKeepsTurn(db: Db, m: Memory, c: Command)
    requires !c.Skip?
    ensures Execute(db, m, c).0.nextUp == db.nextUp
  {
  }

  lemma DrawMovieTurns(w: World, m: Memory, e: Event)
    requires Inv(w) && w.server == Some(m) && e.DrawMovie?
    ensures TurnsByReveal(w, Next(w, e))
  {
    var (after, n, _) := Draw(w.db, m, e.pick, e.clientId, e.at, e.delay, e.fails);
    DrawAnswers(w.db, m, e.pick, e.clientId, e.at, e.delay, e.fails);
    NoTurn(w, m, after, n, e.survives);
  }

  lemma ConfirmTurns(w: World, m: Memory, e: Event)
    requires Inv(w) && w.server == Some(m) && e.Confirm?
    ensures TurnsByReveal(w, Next(w, e))
  {
    var (after, n, _) := RevealActive(w.db, m, None, e.at, e.fails);
    if n.published == m.published {
      NoTurn(w, m, after, n, e.survives);
    } else {
      RevealTurns(w, m, e.at, n, e.survives);
    }
  }

  lemma WatchDrawTurns(w: World, m: Memory, e: Event)
    requires Inv(w) && w.server == Some(m) && e.WatchDraw?
    ensures TurnsByReveal(w, Next(w, e))
  {
    if e.fails || WatchCurrent(w.db, e.at, Held(m).Some?).1.Err? {
      NoTurn(w, m, w.db, m, e.survives);
    } else {
      WatchTurns(w, m, e.at, e.survives);
    }
  }

  lemma ServeTurns(w: World, m: Memory, e: Event)
    requires Inv(w) && w.server == Some(m) && e.Serve? && !e.command.Skip?
    ensures TurnsByReveal(w, Next(w, e))
  {
    CommandKeepsTurn(w.db, m, e.command);
    NoTurn(w, m, if e.fails then w.db else Execute(w.db, m, e.command).0, m, e.survives);
  }

  lemma OnlyRevealsTurn(w: World, e: Event)
    requires Inv(w) && Legal(w, e) && !e.Members? && !(e.Serve? && e.command.Skip?)
    ensures TurnsByReveal(w, Next(w, e))
  {
    if w.server.Some? {
      var m := w.server.value;
      match e
      case DrawMovie(_, _, _, _, _, _) => DrawMovieTurns(w, m, e);
      case Fire(t, at, fails, survives) =>
        if t in m.timers {
          FireTurns(w, m, t, at, fails, survives);
        }
      case Confirm(_, _, _) => ConfirmTurns(w, m, e);
      case WatchDraw(_, _, _) => WatchDrawTurns(w, m, e);
      case Serve(_, _, _) => ServeTurns(w, m, e);
      case _ =>
    }
  }

  lemma FireTurns(w: World, m: Memory, t: nat, at: int, fails: bool, survives: bool)
    requires Inv(w) && w.server == Some(m) && t in m.timers
    ensures var (after, n) := FireTimer(w.db, m, t, at, fails); TurnsByReveal(w, Committed(w, after, m, n, survives))
  {
    var (after, n) := FireTimer(w.db, m, t, at, fails);
    if n.published == m.published {
      NoTurn(w, m, after, n, survives);
    } else {
      RevealTurns(w, m, at, n, survives);
    }
  }

  /** One process calls OnRevealed at most once for each draw: its calls carry increasing
      generations, none of them that of a draw still held. */
  lemma PublishedOncePerDraw(events: seq<Event>, k: nat, l: nat)
    requires LegalRun(START, events) && RunEvents(START, events).server.Some?
    requires k < l < |RunEvents(START, events).server.value.published|
    ensures var m := RunEvents(START, events).server.value;
      && m.published[k].generation < m.published[l].generation
      && (Held(m).Some? ==> m.published[l].generation < m.active.value.generation)
  {
    ReachableKeepsInv(events);
  }

  /** A timer armed for one generation never reveals another, and never reveals after the
      service closed. */
  lemma TimerRevealsItsOwnDraw(db: Db, m: Memory, t: nat, at: int, fails: bool)
    requires t in m.timers && (m.active.Some? ==> m.active.value.generation == m.generation)
    ensures var (_, n) := FireTimer(db, m, t, at, fails);
      n.published != m.published ==>
        && !m.closed && Held(m).Some? && m.timers[t].generation == m.active.value.generation
        && n.published == m.published + [m.active.value.(revealed := true)]
  {
  }

  /** Whenever a deadline is armed, exactly one pending callback can reveal the held draw, and
      it has been retried at most three times. */
  lemma ArmedMeansOneLiveTimer(events: seq<Event>)
    requires LegalRun(START, events) && RunEvents(START, events).server.Some?
    ensures var m := RunEvents(START, events).server.value;
      && m.retries <= MAX_RETRIES
      && (m.armed ==>
            && Held(m).Some? && !m.closed && m.stop.Some? && m.stop.value in m.timers
            && m.timers[m.stop.value] == Timer(m.active.value.generation, false)
            && forall t :: t in m.timers && m.timers[t].generation == m.generation ==> t == m.stop.value)
  {
    ReachableKeepsInv(events);
  }

  /** The failed Reveals of timers since the last arming. */
  function Failures(m: Memory, fired: seq<nat>): Memory
    decreases |fired|
  {
    if fired == [] then m
    else if fired[0] !in m.timers then Failures(m, fired[1..])
    else Failures(FireTimer(EMPTY, m, fired[0], 0, true).1, fired[1..])
  }

  /** However long the store keeps failing, an armed deadline is tried at most four times:
      each failure spends one of three retries, and then nothing is armed. */
  lemma {:induction false} RetriesRunOut(m: Memory, fired: seq<nat>)
    requires TimersOk(m) && Held(m).Some? && !m.closed && m.active.value.generation == m.generation
    ensures var n := Failures(m, fired);
      && TimersOk(n) && n.active == m.active && n.published == m.published
      && (n.armed ==> n.nextTimer - n.retries == m.nextTimer - m.retries)
      && n.nextTimer - m.nextTimer <= MAX_RETRIES - m.retries
    decreases |fired|
  {
    if fired != [] {
      if fired[0] in m.timers {
        var n := FireTimer(EMPTY, m, fired[0], 0, true).1;
        if m.timers[fired[0]].generation == m.generation {
          RetryKeepsTimers(m, fired[0]);
        } else {
          FiredKeepsTimers(m, fired[0]);
        }
        RetriesRunOut(n, fired[1..]);
      } else {
        RetriesRunOut(m, fired[1..]);
      }
    }
  }
}
