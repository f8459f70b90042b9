/** Live events: a broker that numbers every broadcast and may drop it for a slow subscriber,
    the stream that writes one subscriber's frames, and the client's gap detection
    (internal/server/events.go, internal/server/events_handlers.go and
    web/src/hooks/sseConnection.ts). */
module EventBroker {
  import opened Domain

  /** Slots of one subscriber's channel. */
  const BUFFER := 10

  /** A send that does not block: a full channel drops the event. */
  function Offered(buffer: seq<nat>, event: nat): seq<nat> {
    if |buffer| < BUFFER then buffer + [event] else buffer
  }

  type Clients = map<nat, seq<nat>>

  /** Every subscriber is offered the event. */
  function Published(clients: Clients, event: nat): Clients {
    map c | c in clients :: Offered(clients[c], event)
  }

  class Broker {
    var clients: Clients
    var seqNumber: nat
    var closed: bool
    var nextClient: nat

    ghost predicate Valid()
      reads this
    {
      && (forall c :: c in clients ==> c < nextClient && |clients[c]| <= BUFFER)
      && (forall c, k :: c in clients && 0 <= k < |clients[c]| ==> clients[c][k] <= seqNumber)
      && (closed ==> clients == map[])
    }

    constructor ()
      ensures Valid() && clients == map[] && seqNumber == 0 && !closed
    {
      clients, seqNumber, closed, nextClient := map[], 0, false, 0;
    }

    /** Subscribe: the head number is read under the lock that registers the channel. */
    method Subscribe() returns (r: Option<(nat, nat)>)
      requires Valid()
      modifies this`clients, this`nextClient
      ensures Valid()
      ensures closed ==> r == None && clients == old(clients)
      ensures !closed ==> r.Some? && r.value.0 !in old(clients) && r.value.1 == seqNumber
      ensures !closed ==> clients == old(clients)[r.value.0 := []]
    {
      if closed {
        return None;
      }
      var client: nat := nextClient;
      clients := clients[client := []];
      nextClient := nextClient + 1;
      return Some((client, seqNumber));
    }

    /** Broadcast: every subscriber is offered the event under the next number. */
    method Broadcast()
      requires Valid()
      modifies this`clients, this`seqNumber
      ensures Valid() && seqNumber == old(seqNumber) + 1
      ensures clients == Published(old(clients), seqNumber)
    {
      seqNumber := seqNumber + 1;
      var rest := clients.Keys;
      while rest != {}
        invariant rest <= clients.Keys && clients.Keys == old(clients).Keys && seqNumber == old(seqNumber) + 1
        invariant forall c :: c in clients ==>
          clients[c] == if c in rest then old(clients)[c] else Offered(old(clients)[c], seqNumber)
        decreases |rest|
      {
        var c :| c in rest;
        if |clients[c]| < BUFFER {
          clients := clients[c := clients[c] + [seqNumber]];
        }
        rest := rest - {c};
      }
    }

    method Unsubscribe(client: nat)
      requires Valid()
      modifies this`clients
      ensures Valid() && clients == old(clients) - {client}
    {
      if client in clients {
        clients := clients - {client};
      }
    }

    /** Close ends every stream; closing twice is closing once. */
    method Close()
      requires Valid()
      modifies this`clients, this`closed
      ensures Valid() && closed && clients == map[]
    {
      if closed {
        return;
      }
      closed := true;
      clients := map[];
    }
  }

  // ---- One stream ---------------------------------------------------------------------------

  datatype Frame = Event(number: nat) | Heartbeat(number: nat)

  /** Waiting in the select, emptying the channel before a heartbeat, or about to read the
      head number for it. */
  datatype Mode = Waiting | Draining | Beating

  /** One subscription: the broker's head, the channel, the frames written since the handshake
      at `start`, and the events that will never be written. */
  datatype Stream = Stream(head: nat, buffer: seq<nat>, mode: Mode, start: nat, frames: seq<Frame>, lost: set<nat>)

  function Handshake(head: nat): Stream {
    Stream(head, [], Waiting, head, [], {})
  }

  datatype Step =
    | Publish
    | WriteEvent(marshals: bool)
    | Tick
    | Drained
    | Beat

  function Next(s: Stream, step: Step): Stream {
    match step
    case Publish =>
      s.(head := s.head + 1, buffer := Offered(s.buffer, s.head + 1),
         lost := if |s.buffer| < BUFFER then s.lost else s.lost + {s.head + 1})
    case WriteEvent(marshals) =>
      if s.buffer == [] || s.mode == Beating then s
      else if marshals then s.(buffer := s.buffer[1..], frames := s.frames + [Event(s.buffer[0])])
      else s.(buffer := s.buffer[1..], lost := s.lost + {s.buffer[0]})
    case Tick => if s.mode == Waiting then s.(mode := Draining) else s
    case Drained => if s.mode == Draining && s.buffer == [] then s.(mode := Beating) else s
    case Beat => if s.mode == Beating then s.(mode := Waiting, frames := s.frames + [Heartbeat(s.head)]) else s
  }

  function RunSteps(s: Stream, steps: seq<Step>): Stream
    decreases |steps|
  {
    if steps == [] then s else RunSteps(Next(s, steps[0]), steps[1..])
  }

  /** drainBufferedEvents: write what is queued, without waiting. */
  method DrainBufferedEvents(buffer: seq<nat>, frames: seq<Frame>) returns (written: seq<Frame>)
    ensures written == frames + Events(buffer)
  {
    written := frames;
    var i := 0;
    while i < |buffer|
      invariant 0 <= i <= |buffer|
      invariant written + Events(buffer[i..]) == frames + Events(buffer)
    {
      assert buffer[i..] == [buffer[i]] + buffer[i + 1..];
      written := written + [Event(buffer[i])];
      i := i + 1;
    }
    assert buffer[i..] == [];
  }

  function Events(buffer: seq<nat>): seq<Frame> {
    if buffer == [] then [] else [Event(buffer[0])] + Events(buffer[1..])
  }

  /** The broker's channels are the buffers of these streams. */
  ghost predicate Serves(clients: Clients, head: nat, streams: map<nat, Stream>) {
    && streams.Keys == clients.Keys
    && forall c :: c in clients ==> streams[c].buffer == clients[c] && streams[c].head == head
  }

  /** A broadcast publishes on every stream, a subscription opens one at the handshake, an
      event a handler receives is the next one of its stream, and an end removes it. */
  lemma BrokerRunsStreams(clients: Clients, head: nat, streams: map<nat, Stream>, c: nat, marshals: bool)
    requires Serves(clients, head, streams)
    ensures Serves(Published(clients, head + 1), head + 1, map d | d in streams :: Next(streams[d], Publish))
    ensures Serves(clients[c := []], head, streams[c := Handshake(head)])
    ensures c in clients && clients[c] != [] && streams[c].mode != Beating ==>
      Serves(clients[c := clients[c][1..]], head, streams[c := Next(streams[c], WriteEvent(marshals))])
    ensures Serves(clients - {c}, head, streams - {c})
  {
  }

  // ---- The client -----------------------------------------------------------------------------

  /** reduceConnection on a frame: the cursor, and whether the client resyncs. */
  function Reduce(cursor: nat, f: Frame): (nat, bool) {
    match f
    case Event(n) => (n, n != cursor + 1)
    case Heartbeat(n) => if n <= cursor then (cursor, false) else (n, true)
  }

  function Cursor(start: nat, frames: seq<Frame>): nat
    decreases |frames|
  {
    if frames == [] then start
    else Reduce(Cursor(start, frames[..|frames| - 1]), frames[|frames| - 1]).0
  }

  /** The client resyncs somewhere in the frames. */
  predicate Resyncs(start: nat, frames: seq<Frame>)
    decreases |frames|
  {
    frames != [] &&
    (Resyncs(start, frames[..|frames| - 1]) ||
     Reduce(Cursor(start, frames[..|frames| - 1]), frames[|frames| - 1]).1)
  }

  lemma ReadsOn(start: nat, frames: seq<Frame>, f: Frame)
    ensures Cursor(start, frames + [f]) == Reduce(Cursor(start, frames), f).0
    ensures Resyncs(start, frames + [f]) <==> Resyncs(start, frames) || Reduce(Cursor(start, frames), f).1
  {
    assert (frames + [f])[..|frames|] == frames;
  }

  lemma FrameAdded(frames: seq<Frame>, f: Frame, n: nat)
    ensures Event(n) in frames + [f] <==> Event(n) in frames || f == Event(n)
  {
    assert (frames + [f])[|frames|] == f;
  }

  /** A cursor that never jumped stands exactly after the events received. */
  lemma {:induction false} SmoothCursorSawAll(start: nat, frames: seq<Frame>, n: nat)
    requires !Resyncs(start, frames)
    ensures start <= Cursor(start, frames)
    ensures start < n <= Cursor(start, frames) <==> Event(n) in frames
    decreases |frames|
  {
    if frames != [] {
      var init, f := frames[..|frames| - 1], frames[|frames| - 1];
      assert frames == init + [f];
      ReadsOn(start, init, f);
      FrameAdded(init, f, n);
      SmoothCursorSawAll(start, init, n);
    }
  }

  /** No undetected loss, from the client's side: at a heartbeat it did not resync on, it has
      received every event broadcast between its handshake and that heartbeat. */
  lemma QuietHeartbeatMeansComplete(start: nat, frames: seq<Frame>, head: nat, n: nat)
    requires !Resyncs(start, frames + [Heartbeat(head)]) && start < n <= head
    ensures Event(n) in frames
  {
    ReadsOn(start, frames, Heartbeat(head));
    SmoothCursorSawAll(start, frames, n);
  }

  // ---- The stream -----------------------------------------------------------------------------

  /** The last event written, or the handshake. */
  function LastWritten(start: nat, frames: seq<Frame>): nat
    decreases |frames|
  {
    if frames == [] then start
    else if frames[|frames| - 1].Event? then frames[|frames| - 1].number
    else LastWritten(start, frames[..|frames| - 1])
  }

  lemma WrittenOn(start: nat, frames: seq<Frame>, f: Frame)
    ensures LastWritten(start, frames + [f]) == if f.Event? then f.number else LastWritten(start, frames)
  {
    assert (frames + [f])[..|frames|] == frames;
  }

  ghost predicate Increasing(s: seq<nat>) {
    forall i, j :: 0 <= i < j < |s| ==> s[i] < s[j]
  }

  ghost predicate EventsIncrease(frames: seq<Frame>) {
    forall i, j :: 0 <= i < j < |frames| && frames[i].Event? && frames[j].Event? ==> frames[i].number < frames[j].number
  }

  /** Frames: numbered upwards after the handshake, and none of them lost. */
  ghost predicate FramesOk(s: Stream) {
    && s.start <= LastWritten(s.start, s.frames) <= s.head
    && EventsIncrease(s.frames)
    && (forall k :: 0 <= k < |s.frames| ==> s.frames[k].number <= s.head)
    && (forall k :: 0 <= k < |s.frames| && s.frames[k].Event? ==>
          s.start < s.frames[k].number <= LastWritten(s.start, s.frames) && s.frames[k].number !in s.lost)
  }

  /** The buffer continues the frames. */
  ghost predicate BufferOk(s: Stream) {
    && Increasing(s.buffer)
    && (forall k :: 0 <= k < |s.buffer| ==>
          LastWritten(s.start, s.frames) < s.buffer[k] <= s.head && s.buffer[k] !in s.lost)
    && (forall n :: n in s.lost ==> s.start < n <= s.head)
  }

  /** What was written, what waits and what was lost make up everything broadcast. */
  ghost predicate Accounted(s: Stream) {
    forall n :: s.start < n <= s.head ==> Event(n) in s.frames || n in s.buffer || n in s.lost
  }

  ghost predicate Inv(s: Stream) {
    FramesOk(s) && BufferOk(s) && Accounted(s)
  }

  lemma PublishKeepsBuffer(s: Stream)
    requires FramesOk(s) && BufferOk(s)
    ensures BufferOk(Next(s, Publish))
  {
  }

  lemma PublishAccounts(s: Stream, n: nat)
    requires Accounted(s) && s.start < n <= s.head + 1
    ensures var t := Next(s, Publish); Event(n) in t.frames || n in t.buffer || n in t.lost
  {
    var t := Next(s, Publish);
    if n in s.buffer {
      var k :| 0 <= k < |s.buffer| && s.buffer[k] == n;
      assert t.buffer[k] == n;
    } else if n == s.head + 1 && |s.buffer| < BUFFER {
      assert t.buffer[|s.buffer|] == n;
    }
  }

  lemma PublishKeepsInv(s: Stream)
    requires Inv(s)
    ensures Inv(Next(s, Publish))
  {
    PublishKeepsBuffer(s);
    var t := Next(s, Publish);
    forall n | t.start < n <= t.head ensures Event(n) in t.frames || n in t.buffer || n in t.lost {
      PublishAccounts(s, n);
    }
  }

  lemma BufferShrinks(buffer: seq<nat>, n: nat)
    requires buffer != []
    ensures n in buffer <==> n == buffer[0] || n in buffer[1..]
  {
    assert buffer == [buffer[0]] + buffer[1..];
  }

  lemma WriteKeepsOrder(s: Stream, marshals: bool)
    requires FramesOk(s) && BufferOk(s) && s.buffer != [] && s.mode != Beating
    ensures FramesOk(Next(s, WriteEvent(marshals))) && BufferOk(Next(s, WriteEvent(marshals)))
  {
    if marshals {
      WrittenOn(s.start, s.frames, Event(s.buffer[0]));
    }
  }

  lemma WriteKeepsInv(s: Stream, marshals: bool)
    requires Inv(s)
    ensures Inv(Next(s, WriteEvent(marshals)))
  {
    if s.buffer != [] && s.mode != Beating {
      WriteKeepsOrder(s, marshals);
      var t := Next(s, WriteEvent(marshals));
      forall n | s.start < n <= t.head ensures Event(n) in t.frames || n in t.buffer || n in t.lost {
        BufferShrinks(s.buffer, n);
        FrameAdded(s.frames, Event(s.buffer[0]), n);
      }
    }
  }

  lemma BeatKeepsInv(s: Stream)
    requires Inv(s)
    ensures Inv(Next(s, Beat))
  {
    if s.mode == Beating {
      WrittenOn(s.start, s.frames, Heartbeat(s.head));
      var t := Next(s, Beat);
      forall n | s.start < n <= t.head ensures Event(n) in t.frames || n in t.buffer || n in t.lost {
        FrameAdded(s.frames, Heartbeat(s.head), n);
      }
    }
  }

  lemma NextKeepsInv(s: Stream, step: Step)
    requires Inv(s)
    ensures Inv(Next(s, step))
  {
    match step
    case Publish => PublishKeepsInv(s);
    case WriteEvent(marshals) => WriteKeepsInv(s, marshals);
    case Beat => BeatKeepsInv(s);
    case _ =>
  }

  lemma {:induction false} RunKeepsInv(s: Stream, steps: seq<Step>)
    requires Inv(s)
    ensures Inv(RunSteps(s, steps)) && RunSteps(s, steps).start == s.start
    decreases |steps|
  {
    if steps != [] {
      NextKeepsInv(s, steps[0]);
      RunKeepsInv(Next(s, steps[0]), steps[1..]);
    }
  }

  /** Every subscriber's event frames carry strictly increasing numbers after its handshake. */
  lemma FramesIncrease(head: nat, steps: seq<Step>, i: nat, j: nat)
    requires var frames := RunSteps(Handshake(head), steps).frames;
      i < j < |frames| && frames[i].Event? && frames[j].Event?
    ensures var frames := RunSteps(Handshake(head), steps).frames;
      head < frames[i].number < frames[j].number
  {
    RunKeepsInv(Handshake(head), steps);
  }

  /** Every dropped event is noticed: by the first heartbeat whose head covers it the client
      has resynced, whatever the full buffer dropped. */
  lemma LossIsDetected(head: nat, steps: seq<Step>, n: nat, k: nat)
    requires var s := RunSteps(Handshake(head), steps);
      n in s.lost && k < |s.frames| && s.frames[k].Heartbeat? && n <= s.frames[k].number
    ensures var s := RunSteps(Handshake(head), steps);
      Resyncs(head, s.frames[..k + 1])
  {
    RunKeepsInv(Handshake(head), steps);
    var s := RunSteps(Handshake(head), steps);
    if !Resyncs(head, s.frames[..k + 1]) {
      assert s.frames[..k + 1] == s.frames[..k] + [Heartbeat(s.frames[k].number)];
      QuietHeartbeatMeansComplete(head, s.frames[..k], s.frames[k].number, n);
    }
  }

  // ---- False alarms -----------------------------------------------------------------------------

  /** While nothing is lost, the frames continue the count and the buffer continues the frames. */
  ghost predicate Gapless(s: Stream) {
    && Cursor(s.start, s.frames) >= LastWritten(s.start, s.frames)
    && (!Resyncs(s.start, s.frames) ==> Cursor(s.start, s.frames) == LastWritten(s.start, s.frames))
    && |s.buffer| + LastWritten(s.start, s.frames) == s.head
    && forall k :: 0 <= k < |s.buffer| ==> s.buffer[k] == LastWritten(s.start, s.frames) + 1 + k
  }

  lemma NextKeepsGapless(s: Stream, step: Step)
    requires Gapless(s) && Next(s, step).lost == {}
    ensures Gapless(Next(s, step)) && s.lost == {}
  {
    if |Next(s, step).frames| > |s.frames| {
      var f := Next(s, step).frames[|s.frames|];
      ReadsOn(s.start, s.frames, f);
      WrittenOn(s.start, s.frames, f);
    }
  }

  lemma {:induction false} RunKeepsGapless(s: Stream, steps: seq<Step>)
    requires Gapless(s) && RunSteps(s, steps).lost == {}
    ensures Gapless(RunSteps(s, steps)) && RunSteps(s, steps).start == s.start && s.lost == {}
    decreases |steps|
  {
    if steps != [] {
      LostGrows(Next(s, steps[0]), steps[1..]);
      NextKeepsGapless(s, steps[0]);
      RunKeepsGapless(Next(s, steps[0]), steps[1..]);
    }
  }

  lemma {:induction false} LostGrows(s: Stream, steps: seq<Step>)
    ensures s.lost <= RunSteps(s, steps).lost
    decreases |steps|
  {
    if steps != [] {
      LostGrows(Next(s, steps[0]), steps[1..]);
    }
  }

  /** When nothing was lost, a client that has not resynced yet resyncs at a heartbeat exactly
      when an event was broadcast between the drain and the reading of the head number: the
      drain narrows that window without closing it. */
  lemma HeartbeatAlarmsExactly(head: nat, steps: seq<Step>)
    requires var s := RunSteps(Handshake(head), steps);
      s.lost == {} && s.mode == Beating && !Resyncs(head, s.frames)
    ensures var s := RunSteps(Handshake(head), steps);
      Resyncs(head, Next(s, Beat).frames) <==> s.buffer != []
  {
    RunKeepsGapless(Handshake(head), steps);
    var s := RunSteps(Handshake(head), steps);
    ReadsOn(head, s.frames, Heartbeat(s.head));
  }

  /** Such a false alarm: one event, nothing lost, and still a resync. */
  lemma FalseAlarmHappens()
    ensures var s := RunSteps(Handshake(0), [Tick, Drained, Publish, Beat]);
      s.lost == {} && s.buffer == [1] && Resyncs(0, s.frames)
  {
    var s := Handshake(0);
    var s1, s2 := Next(s, Tick), Next(Next(s, Tick), Drained);
    var s3 := Next(s2, Publish);
    var s4 := Next(s3, Beat);
    assert RunSteps(s4, []) == s4;
    assert RunSteps(s3, [Beat]) == s4;
    assert RunSteps(s2, [Publish, Beat]) == s4 by { assert [Publish, Beat][1..] == [Beat]; }
    assert RunSteps(s1, [Drained, Publish, Beat]) == s4 by { assert [Drained, Publish, Beat][1..] == [Publish, Beat]; }
    assert [Tick, Drained, Publish, Beat][1..] == [Drained, Publish, Beat];
    assert s4.frames == [Heartbeat(1)];
  }
}
