/** The enrichment worker: callers that enqueue, one consumer, a bounded queue and a claim for
    every movie in flight (internal/server/enrich_worker.go). */
module EnrichQueue {
  import opened Domain

  /** What asked for a run; the drain names nothing. */
  type Trigger = Option<string>

  datatype Claim = Claim(processing: bool, trigger: Trigger, rerun: bool, rerunTrigger: Trigger)

  type Claims = map<nat, Claim>

  datatype Finish = Complete | RerunInline | RerunQueued

  // ---- The critical sections --------------------------------------------------------------

  function Enqueued(claims: Claims, movie: nat, trigger: Trigger): (Claims, bool) {
    if movie in claims then
      var c := claims[movie];
      (claims[movie := if c.processing then c.(rerun := true, rerunTrigger := trigger) else c.(trigger := trigger)], false)
    else (claims[movie := Claim(false, trigger, false, None)], true)
  }

  function Claimed(claims: Claims, movie: nat): (Claims, bool) {
    if movie in claims then (claims, false) else (claims[movie := Claim(false, None, false, None)], true)
  }

  function Processing(claims: Claims, movie: nat): Claims {
    var c := if movie in claims then claims[movie] else Claim(false, None, false, None);
    claims[movie := c.(processing := true)]
  }

  function Finished(claims: Claims, movie: nat, allowRerun: bool, inline: bool): (Claims, Finish) {
    if movie !in claims then (claims, Complete)
    else if allowRerun && claims[movie].rerun then
      var c := claims[movie];
      (claims[movie := Claim(false, c.rerunTrigger, false, None)], if inline then RerunInline else RerunQueued)
    else (claims - {movie}, Complete)
  }

  class Runner {
    var inflight: Claims

    constructor ()
      ensures inflight == map[]
    {
      inflight := map[];
    }

    method TryEnqueue(movie: nat, trigger: Trigger) returns (claimed: bool)
      modifies this
      ensures (inflight, claimed) == Enqueued(old(inflight), movie, trigger)
    {
      if movie in inflight {
        var claim := inflight[movie];
        if claim.processing {
          claim := claim.(rerun := true);
          claim := claim.(rerunTrigger := trigger);
        } else {
          claim := claim.(trigger := trigger);
        }
        inflight := inflight[movie := claim];
        return false;
      }
      inflight := inflight[movie := Claim(false, trigger, false, None)];
      return true;
    }

    /** tryClaim: a drain candidate already in flight is left alone. */
    method TryClaim(movie: nat) returns (claimed: bool)
      modifies this
      ensures (inflight, claimed) == Claimed(old(inflight), movie)
    {
      if movie in inflight {
        return false;
      }
      inflight := inflight[movie := Claim(false, None, false, None)];
      return true;
    }

    method MarkProcessing(movie: nat) returns (trigger: Trigger)
      modifies this
      ensures inflight == Processing(old(inflight), movie)
      ensures trigger == inflight[movie].trigger
    {
      var claim := Claim(false, None, false, None);
      if movie in inflight {
        claim := inflight[movie];
      }
      claim := claim.(processing := true);
      inflight := inflight[movie := claim];
      return claim.trigger;
    }

    method FinishAttempt(movie: nat, allowRerun: bool, inline: bool) returns (finish: Finish)
      modifies this
      ensures (inflight, finish) == Finished(old(inflight), movie, allowRerun, inline)
    {
      if movie !in inflight {
        return Complete;
      }
      var claim := inflight[movie];
      if allowRerun && claim.rerun {
        claim := claim.(processing := false, rerun := false);
        claim := claim.(trigger := claim.rerunTrigger, rerunTrigger := None);
        inflight := inflight[movie := claim];
        return if inline then RerunInline else RerunQueued;
      }
      inflight := inflight - {movie};
      return Complete;
    }
  }

  // ---- The worker and its callers ------------------------------------------------------------

  /** Where the consumer stands in process: about to start an attempt, in one, about to put
      a dirtied movie back, or about to give it up. `inline` is the rerun still available,
      `tries` the attempts of this dequeue. */
  datatype Consumer =
    | Resting
    | Starting(movie: nat, inline: bool, tries: nat)
    | Attempting(movie: nat, inline: bool, tries: nat)
    | Requeueing(movie: nat)
    | Discarding(movie: nat)

  /** What happens to a movie: an enqueue arrives, an attempt starts, or it is given up. */
  datatype Mark = Arrived(movie: nat) | Started(movie: nat) | GivenUp(movie: nat)

  datatype Worker = Worker(
    claims: Claims, queue: seq<nat>, capacity: nat, sending: set<nat>, dropping: set<nat>, consumer: Consumer,
    log: seq<Mark>)

  datatype Step =
    | Enqueue(movie: nat, trigger: Trigger)
    | Send(movie: nat)
    | Drop(movie: nat)
    | Dequeue
    | DrainClaim(movie: nat)
    | StartAttempt
    | EndAttempt(canceled: bool)
    | Requeue
    | Discard

  function Next(w: Worker, s: Step): Worker {
    match s
    case Enqueue(movie, trigger) =>
      var (claims, claimed) := Enqueued(w.claims, movie, trigger);
      w.(claims := claims, sending := if claimed then w.sending + {movie} else w.sending,
         log := w.log + [Arrived(movie)])
    case Send(movie) =>
      if movie !in w.sending then w
      else if |w.queue| < w.capacity then w.(sending := w.sending - {movie}, queue := w.queue + [movie])
      else w.(sending := w.sending - {movie}, dropping := w.dropping + {movie})
    case Drop(movie) =>
      if movie !in w.dropping then w
      else w.(dropping := w.dropping - {movie}, claims := w.claims - {movie}, log := w.log + [GivenUp(movie)])
    case Dequeue =>
      if !w.consumer.Resting? || w.queue == [] then w
      else w.(queue := w.queue[1..], consumer := Starting(w.queue[0], true, 0))
    case DrainClaim(movie) =>
      if !w.consumer.Resting? || !Claimed(w.claims, movie).1 then w
      else w.(claims := Claimed(w.claims, movie).0, consumer := Starting(movie, true, 0))
    case StartAttempt =>
      (match w.consumer
       case Starting(movie, inline, tries) =>
         w.(claims := Processing(w.claims, movie), consumer := Attempting(movie, inline, tries + 1),
            log := w.log + [Started(movie)])
       case _ => w)
    case EndAttempt(canceled) =>
      (match w.consumer
       case Attempting(movie, inline, tries) =>
         var (claims, finish) := Finished(w.claims, movie, !canceled, inline);
         (match finish
          case RerunInline => w.(claims := claims, consumer := Starting(movie, false, tries))
          case RerunQueued => w.(claims := claims, consumer := Requeueing(movie))
          case Complete =>
            w.(claims := claims, consumer := Resting, log := if canceled then w.log + [GivenUp(movie)] else w.log))
       case _ => w)
    case Requeue =>
      (match w.consumer
       case Requeueing(movie) =>
         if |w.queue| < w.capacity then w.(queue := w.queue + [movie], consumer := Resting)
         else w.(consumer := Discarding(movie))
       case _ => w)
    case Discard =>
      (match w.consumer
       case Discarding(movie) =>
         w.(claims := w.claims - {movie}, consumer := Resting, log := w.log + [GivenUp(movie)])
       case _ => w)
  }

  // ---- Every movie in flight is in one place --------------------------------------------------

  function Consumed(c: Consumer): set<nat> {
    if c.Resting? then {} else {c.movie}
  }

  function Queued(queue: seq<nat>): set<nat> {
    set m | m in queue
  }

  ghost predicate Unrepeated(queue: seq<nat>) {
    forall k :: 0 <= k < |queue| ==> queue[k] !in queue[..k]
  }

  ghost predicate PlacesOk(w: Worker) {
    && w.claims.Keys == w.sending + w.dropping + Queued(w.queue) + Consumed(w.consumer)
    && w.sending !! w.dropping
    && w.sending + w.dropping !! Queued(w.queue)
    && w.sending + w.dropping + Queued(w.queue) !! Consumed(w.consumer)
    && Unrepeated(w.queue) && |w.queue| <= w.capacity
  }

  /** Only the movie under attempt is being processed, and only it may be dirtied. */
  ghost predicate ClaimsOk(w: Worker) {
    && (forall m :: m in w.claims ==> (w.claims[m].processing <==> w.consumer.Attempting? && w.consumer.movie == m))
    && (forall m :: m in w.claims && w.claims[m].rerun ==> w.claims[m].processing)
  }

  /** One inline rerun for one dequeue. */
  ghost predicate TriesOk(w: Worker) {
    && (w.consumer.Starting? ==> w.consumer.tries == if w.consumer.inline then 0 else 1)
    && (w.consumer.Attempting? ==> w.consumer.tries == if w.consumer.inline then 1 else 2)
  }

  /** The last enqueue of the movie has not been followed by an attempt, or by giving up. */
  predicate Owed(log: seq<Mark>, movie: nat) {
    log != [] &&
    (if log[|log| - 1].movie == movie then log[|log| - 1].Arrived? else Owed(log[..|log| - 1], movie))
  }

  /** A movie still owed an attempt is on its way to one. */
  ghost predicate OwedOk(w: Worker) {
    forall m :: Owed(w.log, m) ==>
      m in w.claims && (w.consumer.Attempting? && w.consumer.movie == m ==> w.claims[m].rerun)
  }

  ghost predicate Inv(w: Worker) {
    PlacesOk(w) && ClaimsOk(w) && TriesOk(w) && OwedOk(w)
  }

  lemma OwedExtends(log: seq<Mark>, mark: Mark, movie: nat)
    ensures Owed(log + [mark], movie) <==> if mark.movie == movie then mark.Arrived? else Owed(log, movie)
  {
    assert (log + [mark])[..|log|] == log;
  }

  lemma QueueGrows(queue: seq<nat>, movie: nat)
    requires Unrepeated(queue) && movie !in queue
    ensures Unrepeated(queue + [movie]) && Queued(queue + [movie]) == Queued(queue) + {movie}
  {
    var longer := queue + [movie];
    forall k | 0 <= k < |longer| ensures longer[k] !in longer[..k] {
      assert longer[..k] == queue[..k];
    }
  }

  lemma QueueShrinks(queue: seq<nat>)
    requires Unrepeated(queue) && queue != []
    ensures Unrepeated(queue[1..]) && queue[0] !in queue[1..] && Queued(queue[1..]) == Queued(queue) - {queue[0]}
  {
    forall k | 0 <= k < |queue| - 1 ensures queue[1..][k] !in queue[1..][..k] && queue[1..][k] != queue[0] {
      assert queue[k + 1] !in queue[..k + 1];
      assert queue[..k + 1] == [queue[0]] + queue[1..][..k];
    }
  }

  lemma CallerKeepsPlaces(w: Worker, s: Step)
    requires PlacesOk(w) && (s.Enqueue? || s.Send? || s.Drop?)
    ensures PlacesOk(Next(w, s))
  {
    if s.Send? && s.movie in w.sending {
      assert s.movie !in w.queue by {
        assert s.movie !in Queued(w.queue);
      }
      QueueGrows(w.queue, s.movie);
    }
  }

  lemma DequeueKeepsPlaces(w: Worker)
    requires PlacesOk(w)
    ensures PlacesOk(Next(w, Dequeue))
  {
    if w.queue != [] {
      QueueShrinks(w.queue);
      assert w.queue[0] in Queued(w.queue);
    }
  }

  lemma RequeueKeepsPlaces(w: Worker)
    requires PlacesOk(w)
    ensures PlacesOk(Next(w, Requeue))
  {
    if w.consumer.Requeueing? {
      assert w.consumer.movie !in w.queue by {
        assert w.consumer.movie !in Queued(w.queue);
      }
      QueueGrows(w.queue, w.consumer.movie);
    }
  }

  lemma AttemptKeepsPlaces(w: Worker, s: Step)
    requires PlacesOk(w) && (s.DrainClaim? || s.StartAttempt? || s.EndAttempt? || s.Discard?)
    ensures PlacesOk(Next(w, s))
  {
    assert w.consumer.Resting? || w.consumer.movie in w.claims;
  }

  lemma CallerKeepsClaims(w: Worker, s: Step)
    requires PlacesOk(w) && ClaimsOk(w) && (s.Enqueue? || s.Send? || s.Drop?)
    ensures ClaimsOk(Next(w, s))
  {
    assert w.consumer.Resting? || w.consumer.movie in w.claims;
  }

  lemma ConsumerKeepsClaims(w: Worker, s: Step)
    requires PlacesOk(w) && ClaimsOk(w) && !(s.Enqueue? || s.Send? || s.Drop?)
    ensures ClaimsOk(Next(w, s))
  {
    assert w.consumer.Resting? || w.consumer.movie in w.claims;
    if s.Dequeue? && w.queue != [] {
      assert w.queue[0] in Queued(w.queue);
    }
  }

  lemma NextKeepsTries(w: Worker, s: Step)
    requires TriesOk(w)
    ensures TriesOk(Next(w, s))
  {
  }

  lemma CallerKeepsOwed(w: Worker, s: Step)
    requires PlacesOk(w) && ClaimsOk(w) && OwedOk(w) && (s.Enqueue? || s.Send? || s.Drop?)
    ensures OwedOk(Next(w, s))
  {
    forall m ensures Owed(Next(w, s).log, m) ==> Owed(w.log, m) || s == Enqueue(m, if s.Enqueue? then s.trigger else None) {
      if |Next(w, s).log| > |w.log| {
        OwedExtends(w.log, Next(w, s).log[|w.log|], m);
      }
    }
    if s.Drop? && s.movie in w.dropping {
      OwedExtends(w.log, GivenUp(s.movie), s.movie);
    }
  }

  lemma ConsumerKeepsOwed(w: Worker, s: Step)
    requires PlacesOk(w) && ClaimsOk(w) && OwedOk(w) && !(s.Enqueue? || s.Send? || s.Drop?)
    ensures OwedOk(Next(w, s))
  {
    forall m ensures Owed(Next(w, s).log, m) ==> Owed(w.log, m) {
      if |Next(w, s).log| > |w.log| {
        OwedExtends(w.log, Next(w, s).log[|w.log|], m);
      }
    }
    if |Next(w, s).log| > |w.log| {
      var mark := Next(w, s).log[|w.log|];
      OwedExtends(w.log, mark, mark.movie);
    }
    if s.Dequeue? && w.queue != [] {
      assert w.queue[0] in Queued(w.queue);
    }
  }

  lemma NextKeepsInv(w: Worker, s: Step)
    requires Inv(w)
    ensures Inv(Next(w, s))
  {
    NextKeepsTries(w, s);
    if s.Enqueue? || s.Send? || s.Drop? {
      CallerKeepsPlaces(w, s);
      CallerKeepsClaims(w, s);
      CallerKeepsOwed(w, s);
    } else {
      ConsumerKeepsClaims(w, s);
      ConsumerKeepsOwed(w, s);
      match s
      case Dequeue => DequeueKeepsPlaces(w);
      case Requeue => RequeueKeepsPlaces(w);
      case _ => AttemptKeepsPlaces(w, s);
    }
  }

  // ---- Runs --------------------------------------------------------------------------------------

  function RunSteps(w: Worker, steps: seq<Step>): Worker
    decreases |steps|
  {
    if steps == [] then w else RunSteps(Next(w, steps[0]), steps[1..])
  }

  function Fresh(capacity: nat): Worker {
    Worker(map[], [], capacity, {}, {}, Resting, [])
  }

  lemma {:induction false} RunKeepsInv(w: Worker, steps: seq<Step>)
    requires Inv(w)
    ensures Inv(RunSteps(w, steps)) && RunSteps(w, steps).capacity == w.capacity
    decreases |steps|
  {
    if steps != [] {
      NextKeepsInv(w, steps[0]);
      RunKeepsInv(Next(w, steps[0]), steps[1..]);
    }
  }

  /** In every run each movie in flight is in exactly one place: with a caller that is sending
      or dropping it, queued once, or with the consumer. */
  lemma InFlightInOnePlace(capacity: nat, steps: seq<Step>, movie: nat)
    ensures var w := RunSteps(Fresh(capacity), steps);
      && |w.queue| <= capacity
      && (movie in w.claims <==>
            movie in w.sending || movie in w.dropping || movie in w.queue || movie in Consumed(w.consumer))
      && (movie in w.sending ==> movie !in w.dropping && movie !in w.queue && movie !in Consumed(w.consumer))
      && (movie in w.dropping ==> movie !in w.queue && movie !in Consumed(w.consumer))
      && (movie in w.queue ==> movie !in Consumed(w.consumer) && multiset(w.queue)[movie] == 1)
  {
    RunKeepsInv(Fresh(capacity), steps);
    var w := RunSteps(Fresh(capacity), steps);
    assert movie in w.queue <==> movie in Queued(w.queue);
    QueuedOnce(w.queue, movie);
  }

  lemma {:induction false} QueuedOnce(queue: seq<nat>, movie: nat)
    requires Unrepeated(queue)
    ensures multiset(queue)[movie] == if movie in queue then 1 else 0
    decreases |queue|
  {
    if queue != [] {
      var n := |queue| - 1;
      assert queue == queue[..n] + [queue[n]];
      forall k | 0 <= k < n ensures queue[..n][k] !in queue[..n][..k] {
        assert queue[..n][..k] == queue[..k];
      }
      QueuedOnce(queue[..n], movie);
    }
  }

  /** One dequeue makes at most two attempts. */
  lemma AtMostOneInlineRerun(capacity: nat, steps: seq<Step>)
    ensures var c := RunSteps(Fresh(capacity), steps).consumer;
      (c.Starting? ==> c.tries <= 1) && (c.Attempting? ==> c.tries <= 2)
  {
    RunKeepsInv(Fresh(capacity), steps);
  }

  /** Nobody is at work. */
  predicate AtRest(w: Worker) {
    w.sending == {} && w.dropping == {} && w.queue == [] && w.consumer == Resting
  }

  lemma {:induction false} OwedMeans(log: seq<Mark>, movie: nat)
    ensures !Owed(log, movie) <==>
      forall i :: 0 <= i < |log| && log[i] == Arrived(movie) ==>
        exists j :: i < j < |log| && (log[j] == Started(movie) || log[j] == GivenUp(movie))
    decreases |log|
  {
    if log != [] {
      var n := |log| - 1;
      var init := log[..n];
      OwedMeans(init, movie);
      if log[n].movie == movie {
        if !log[n].Arrived? {
          forall i | 0 <= i < |log| && log[i] == Arrived(movie)
            ensures exists j :: i < j < |log| && (log[j] == Started(movie) || log[j] == GivenUp(movie))
          {
            assert i < n && (log[n] == Started(movie) || log[n] == GivenUp(movie));
          }
        } else {
          assert log[n] == Arrived(movie);
        }
      } else {
        OwedSkips(log, movie);
      }
    }
  }

  /** A mark of another movie changes nothing for this one. */
  lemma OwedSkips(log: seq<Mark>, movie: nat)
    requires log != [] && log[|log| - 1].movie != movie
    ensures var init := log[..|log| - 1];
      (forall i :: 0 <= i < |init| && init[i] == Arrived(movie) ==>
         exists j :: i < j < |init| && (init[j] == Started(movie) || init[j] == GivenUp(movie)))
      <==>
      (forall i :: 0 <= i < |log| && log[i] == Arrived(movie) ==>
         exists j :: i < j < |log| && (log[j] == Started(movie) || log[j] == GivenUp(movie)))
  {
    var init := log[..|log| - 1];
    if forall i :: 0 <= i < |init| && init[i] == Arrived(movie) ==>
         exists j :: i < j < |init| && (init[j] == Started(movie) || init[j] == GivenUp(movie))
    {
      forall i | 0 <= i < |log| && log[i] == Arrived(movie)
        ensures exists j :: i < j < |log| && (log[j] == Started(movie) || log[j] == GivenUp(movie))
      {
        assert i < |init| && init[i] == Arrived(movie);
        var j :| i < j < |init| && (init[j] == Started(movie) || init[j] == GivenUp(movie));
        assert log[j] == init[j];
      }
    }
    if forall i :: 0 <= i < |log| && log[i] == Arrived(movie) ==>
         exists j :: i < j < |log| && (log[j] == Started(movie) || log[j] == GivenUp(movie))
    {
      forall i | 0 <= i < |init| && init[i] == Arrived(movie)
        ensures exists j :: i < j < |init| && (init[j] == Started(movie) || init[j] == GivenUp(movie))
      {
        assert log[i] == Arrived(movie);
        var j :| i < j < |log| && (log[j] == Started(movie) || log[j] == GivenUp(movie));
        assert j != |log| - 1 && init[j] == log[j];
      }
    }
  }

  /** No enqueue is lost: whenever the worker comes to rest, each enqueue, also one that
      arrived during an attempt, has been followed by an attempt that started after it, or
      its movie was given up because the queue was full or the worker was canceled. */
  lemma EveryEnqueueIsAnswered(capacity: nat, steps: seq<Step>, i: nat)
    requires AtRest(RunSteps(Fresh(capacity), steps))
    requires i < |RunSteps(Fresh(capacity), steps).log| && RunSteps(Fresh(capacity), steps).log[i].Arrived?
    ensures var log := RunSteps(Fresh(capacity), steps).log;
      exists j :: i < j < |log| && (log[j] == Started(log[i].movie) || log[j] == GivenUp(log[i].movie))
  {
    RunKeepsInv(Fresh(capacity), steps);
    var w := RunSteps(Fresh(capacity), steps);
    assert w.claims.Keys == {};
    OwedMeans(w.log, w.log[i].movie);
  }

  /** A movie is given up only by a full queue or a canceled attempt. */
  lemma GivenUpOnlyWhenFullOrCanceled(w: Worker, s: Step)
    requires Inv(w)
    ensures forall m :: |Next(w, s).log| > |w.log| && Next(w, s).log[|w.log|] == GivenUp(m) ==>
      (s == Drop(m) && m in w.dropping) || (s == Discard && w.consumer == Discarding(m)) ||
      (s.EndAttempt? && s.canceled && w.consumer.Attempting? && w.consumer.movie == m)
    ensures forall m :: m in Next(w, s).dropping && m !in w.dropping ==> |w.queue| == w.capacity
    ensures Next(w, s).consumer.Discarding? && !w.consumer.Discarding? ==> |w.queue| == w.capacity
  {
  }
}
