/** Dispatchers and the endpoint they call: each claim of a delivery pays for one request, so
    the endpoint is asked at most five times for one announced action, however many
    dispatchers race, crash or outlive their leases (internal/server/radarr_webhooks.go). */
module WebhookCalls {
  import opened Outbox
  import opened OutboxHistory

  datatype Call = Call(c: Condition, claimVersion: nat)

  /** A dispatcher between its claim and its next one; `posted` once it has sent its request. */
  datatype Sender = Sender(c: Condition, claimVersion: nat, posted: bool)

  datatype World = World(tables: Tables, senders: map<nat, Sender>, calls: seq<Call>)

  /** A dispatcher claims a selected row, sends its request, and completes the claim with one
      of the other transactions. */
  datatype Event =
    | Take(worker: nat, c: Condition, now: int, expiresAt: int)
    | Post(worker: nat)
    | Commit(step: Step)
    | Crash(worker: nat)

  function Next(s: World, e: Event): World {
    match e
    case Take(i, c, now, expiresAt) =>
      var (after, claimed) := ClaimForSend(s.tables, c, now, expiresAt);
      World(after,
            if claimed.None? then s.senders - {i} else s.senders[i := Sender(c, claimed.value.claimVersion, false)],
            s.calls)
    case Post(i) =>
      if i !in s.senders || s.senders[i].posted then s
      else
        var d := s.senders[i];
        s.(senders := s.senders[i := d.(posted := true)], calls := s.calls + [Call(d.c, d.claimVersion)])
    case Commit(step) => s.(tables := Exec(s.tables, step))
    case Crash(i) => s.(senders := s.senders - {i})
  }

  /** Only dispatchers claim deliveries. */
  ghost predicate Legal(s: World, e: Event) {
    e.Commit? ==> OutboxHistory.Legal(s.tables, e.step) && !e.step.Claim?
  }

  function RunEvents(s: World, events: seq<Event>): World
    decreases |events|
  {
    if events == [] then s else RunEvents(Next(s, events[0]), events[1..])
  }

  ghost predicate LegalRun(s: World, events: seq<Event>)
    decreases |events|
  {
    events == [] || (Legal(s, events[0]) && LegalRun(Next(s, events[0]), events[1..]))
  }

  /** The run does not prune the delivery: a pruned one may be announced anew. */
  ghost predicate Keeps(s: World, events: seq<Event>, c: Condition)
    decreases |events|
  {
    events == [] ||
    ((c in s.tables.deliveries ==> c in Next(s, events[0]).tables.deliveries) &&
     Keeps(Next(s, events[0]), events[1..], c))
  }

  const START := World(OutboxHistory.EMPTY, map[], [])

  // ---- One request for one claim --------------------------------------------------------

  predicate Called(calls: seq<Call>, c: Condition, claimVersion: nat) {
    Call(c, claimVersion) in calls
  }

  /** The claims of the delivery that were ever won. */
  predicate Won(t: Tables, c: Condition, claimVersion: nat) {
    c in t.deliveries && 1 <= claimVersion <= t.deliveries[c].claimVersion
  }

  ghost predicate SendersOk(s: World, c: Condition) {
    && (forall i :: i in s.senders && s.senders[i].c == c ==>
          Won(s.tables, c, s.senders[i].claimVersion)
          && (!s.senders[i].posted ==> !Called(s.calls, c, s.senders[i].claimVersion)))
    && (forall i, j ::
          i in s.senders && j in s.senders && s.senders[i].c == c && s.senders[j].c == c &&
          s.senders[i].claimVersion == s.senders[j].claimVersion
          ==> i == j)
  }

  ghost predicate CallsOk(s: World, c: Condition) {
    && (forall k :: 0 <= k < |s.calls| && s.calls[k].c == c ==> Won(s.tables, c, s.calls[k].claimVersion))
    && (forall k, l :: 0 <= k < l < |s.calls| && s.calls[k].c == c ==> s.calls[k] != s.calls[l])
  }

  ghost predicate CallInv(s: World, c: Condition) {
    Inv(s.tables) && SendersOk(s, c) && CallsOk(s, c)
  }

  /** A claim wins the version after the last one. */
  lemma ClaimWins(t: Tables, k: Condition, now: int, expiresAt: int, c: Condition)
    ensures var (after, claimed) := ClaimForSend(t, k, now, expiresAt);
      && (forall v :: Won(t, c, v) ==> Won(after, c, v))
      && (claimed.Some? ==> Won(after, k, claimed.value.claimVersion) && !Won(t, k, claimed.value.claimVersion))
  {
  }

  lemma CallsCarry(s: World, t: World, c: Condition)
    requires CallsOk(s, c) && t.calls == s.calls && forall v :: Won(s.tables, c, v) ==> Won(t.tables, c, v)
    ensures CallsOk(t, c)
  {
  }

  lemma SenderJoins(s: World, t: World, i: nat, d: Sender, c: Condition)
    requires SendersOk(s, c) && CallsOk(s, c) && t.calls == s.calls && t.senders == s.senders[i := d]
    requires forall v :: Won(s.tables, c, v) ==> Won(t.tables, c, v)
    requires d.c == c ==> !d.posted && Won(t.tables, c, d.claimVersion) && !Won(s.tables, c, d.claimVersion)
    ensures SendersOk(t, c)
  {
  }

  lemma SenderLeaves(s: World, t: World, i: nat, c: Condition)
    requires SendersOk(s, c) && t.calls == s.calls && t.senders == s.senders - {i}
    requires forall v :: Won(s.tables, c, v) ==> Won(t.tables, c, v)
    ensures SendersOk(t, c)
  {
  }

  lemma TakeKeepsSenders(s: World, e: Event, c: Condition)
    requires CallInv(s, c) && e.Take?
    ensures SendersOk(Next(s, e), c) && CallsOk(Next(s, e), c)
  {
    var t := Next(s, e);
    var claimed := ClaimForSend(s.tables, e.c, e.now, e.expiresAt).1;
    ClaimWins(s.tables, e.c, e.now, e.expiresAt, c);
    CallsCarry(s, t, c);
    if claimed.Some? {
      SenderJoins(s, t, e.worker, Sender(e.c, claimed.value.claimVersion, false), c);
    } else {
      SenderLeaves(s, t, e.worker, c);
    }
  }

  lemma PostKeepsSenders(s: World, i: nat, c: Condition)
    requires CallInv(s, c)
    ensures SendersOk(Next(s, Post(i)), c) && CallsOk(Next(s, Post(i)), c)
  {
  }

  lemma CommitKeepsSenders(s: World, step: Step, c: Condition)
    requires CallInv(s, c) && OutboxHistory.Legal(s.tables, step)
    requires c in s.tables.deliveries ==> c in Exec(s.tables, step).deliveries
    ensures SendersOk(Next(s, Commit(step)), c) && CallsOk(Next(s, Commit(step)), c)
  {
    if c in s.tables.deliveries {
      ExecFollows(s.tables, step, c);
    }
    var t := Next(s, Commit(step));
    forall v: nat | Won(s.tables, c, v) ensures Won(t.tables, c, v) {
    }
  }

  lemma NextKeepsInv(s: World, e: Event, c: Condition)
    requires CallInv(s, c) && Legal(s, e)
    requires c in s.tables.deliveries ==> c in Next(s, e).tables.deliveries
    ensures CallInv(Next(s, e), c)
  {
    match e
    case Take(_, k, now, expiresAt) =>
      ClaimKeepsInv(s.tables, k, now, expiresAt);
      TakeKeepsSenders(s, e, c);
    case Post(i) => PostKeepsSenders(s, i, c);
    case Commit(step) =>
      ExecKeepsInv(s.tables, step);
      CommitKeepsSenders(s, step, c);
    case Crash(_) =>
  }

  lemma {:induction false} RunKeepsCalls(s: World, events: seq<Event>, c: Condition)
    requires CallInv(s, c) && LegalRun(s, events) && Keeps(s, events, c)
    ensures CallInv(RunEvents(s, events), c)
    decreases |events|
  {
    if events != [] {
      NextKeepsInv(s, events[0], c);
      RunKeepsCalls(Next(s, events[0]), events[1..], c);
    }
  }

  /** The requests sent for one delivery. */
  function CallsFor(calls: seq<Call>, c: Condition): nat
    decreases |calls|
  {
    if calls == [] then 0
    else CallsFor(calls[..|calls| - 1], c) + (if calls[|calls| - 1].c == c then 1 else 0)
  }

  lemma {:induction false} DistinctCallsFit(calls: seq<Call>, c: Condition, versions: set<nat>)
    requires forall k :: 0 <= k < |calls| && calls[k].c == c ==> calls[k].claimVersion in versions
    requires forall k, l :: 0 <= k < l < |calls| && calls[k].c == c ==> calls[k] != calls[l]
    ensures CallsFor(calls, c) <= |versions|
    decreases |calls|
  {
    if calls != [] {
      var n := |calls| - 1;
      if calls[n].c == c {
        DistinctCallsFit(calls[..n], c, versions - {calls[n].claimVersion});
      } else {
        DistinctCallsFit(calls[..n], c, versions);
      }
    }
  }

  function UpTo(n: nat): (s: set<nat>)
    ensures |s| == n
    ensures forall v: nat :: 1 <= v <= n ==> v in s
    ensures forall v :: v in s ==> v <= n
  {
    if n == 0 then {} else UpTo(n - 1) + {n}
  }

  /** Over any run of dispatchers, crashes and other transactions, the endpoint is called at
      most five times for one delivery, and at most once for each claim of it. */
  lemma EndpointIsCalledAtMostFiveTimes(events: seq<Event>, c: Condition)
    requires LegalRun(START, events) && Keeps(START, events, c)
    ensures var s := RunEvents(START, events);
      && CallsFor(s.calls, c) <= MAX_ATTEMPTS
      && (CallsFor(s.calls, c) > 0 ==>
            c in s.tables.deliveries && CallsFor(s.calls, c) <= s.tables.deliveries[c].attempts)
      && (forall k, l :: 0 <= k < l < |s.calls| && s.calls[k].c == c ==> s.calls[k] != s.calls[l])
  {
    RunKeepsCalls(START, events, c);
    var s := RunEvents(START, events);
    if c in s.tables.deliveries {
      assert DeliveryOk(s.tables, c, s.tables.deliveries[c]);
      DistinctCallsFit(s.calls, c, UpTo(s.tables.deliveries[c].claimVersion));
    } else {
      DistinctCallsFit(s.calls, c, {});
    }
  }
}
