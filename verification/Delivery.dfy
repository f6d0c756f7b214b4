/**
 Delivery of durable messages to the server over a connection that comes and goes: the sequence
 counter, the queue in memory, the greeting, the replay and the live messages of each connection,
 and what the server makes of the frames that arrive.

 Assumed of the world: the server takes the frames of a connection in order, handles a frame only if
 its number is above all it has seen, except for greetings, and remembers the highest number for
 good; it acknowledges only numbers up to that one that the client has handed out; a failed write ends
 a connection for good; and a greeting or a replay writes only to the connection it was started for.
 Sending, greeting and replaying exclude each other through one mutex; acknowledgements, disconnects
 and the server come in between.
 */
module Delivery {
  import opened Options
  import opened L = OutboundLog

  /**
   How far the greeting and the replay of a connection have come. `Ready(false)` is a connection that
   still counts as ready although a write to it has failed.
   */
  datatype Phase = Fresh | Greeted | Replaying(rest: seq<Message>) | Ready(intact: bool) | Aborted

  /**
   One connection: the frames written to it, how many of them the server has taken, and how many
   acknowledgements the client has handled.
   */
  datatype Link = Link(wire: seq<Message>, received: nat, acked: nat, phase: Phase)

  datatype Client = Client(
    counter: int,
    lastAcked: int,
    maxSize: nat,
    queue: seq<Message>,
    link: Option<Link>,
    draining: seq<Link>,             // earlier connections, whose last frames may still arrive
    accepted: set<Message>,          // durable messages written to the log, less those a full queue has dropped
    processed: set<Message>,         // frames the server has handled
    mark: int)                       // the highest number the server has seen

  datatype SendResult = Sent | PersistFailed | NotConnected | WriteFailed

  const GREETING := "agent.hello"

  /** Message types that are neither queued nor replayed. */
  predicate IsVolatile(kind: string) {
    kind in {
      "terminal.output", "terminal.lag", "terminal.attached", "terminal.detached", "terminal.error",
      "terminal.readonly", "terminal.control", "terminal.navigation_result", "sessions.snapshot",
      "console.chunk", "tmux.topology"
    }
  }

  // ---------------------------------------------------------------------------------------------
  // Steps
  // ---------------------------------------------------------------------------------------------

  predicate IsReady(s: Client) {
    s.link.Some? && s.link.value.phase.Ready?
  }

  predicate Full(s: Client) {
    |s.queue| >= s.maxSize && s.queue != []
  }

  /** Queues a message, dropping the oldest if the queue is full. */
  function Enqueue(s: Client, m: Message, persisted: bool): Client {
    s.(queue := (if Full(s) then s.queue[1..] else s.queue) + [m],
       accepted := (if Full(s) then s.accepted - {s.queue[0]} else s.accepted) + (if persisted then {m} else {}))
  }

  /** Writes a live message to the connection. */
  function WriteLive(s: Client, m: Message, written: bool): Client
    requires IsReady(s)
  {
    var link := s.link.value;
    if link.phase.intact && written then s.(link := Some(link.(wire := link.wire + [m])))
    else s.(link := Some(link.(phase := Ready(false))))
  }

  /** The number is used up whether or not the message gets anywhere. */
  function Count(s: Client): Client {
    s.(counter := s.counter + 1)
  }

  function Send(s: Client, m: Message, durable: bool, persisted: bool, written: bool): (Client, SendResult) {
    var queued := if durable then Enqueue(Count(s), m, persisted) else Count(s);
    if durable && !persisted then (queued, PersistFailed)
    else if !IsReady(queued) then (queued, if durable then Sent else NotConnected)
    else (WriteLive(queued, m, written), if queued.link.value.phase.intact && written then Sent else WriteFailed)
  }

  function Connect(s: Client): Client {
    s.(link := Some(Link([], 0, 0, Fresh)))
  }

  /** The greeting's number is the last acknowledged one, or the reserved number 1. */
  function Greeting(s: Client, payload: string): Message {
    Message(Max(s.lastAcked, 1), GREETING, payload)
  }

  function Hello(s: Client, payload: string, written: bool): Client
    requires s.link.Some?
  {
    var link := s.link.value;
    s.(link := Some(if written then link.(wire := link.wire + [Greeting(s, payload)], phase := Greeted)
                    else link.(phase := Aborted)))
  }

  function InsertBySeq(m: Message, ms: seq<Message>): seq<Message> {
    if ms == [] || m.seqNo < ms[0].seqNo then [m] + ms else [ms[0]] + InsertBySeq(m, ms[1..])
  }

  function SortBySeq(ms: seq<Message>): seq<Message> {
    if ms == [] then [] else InsertBySeq(ms[0], SortBySeq(ms[1..]))
  }

  /** The replay works on a sorted copy of the queue. */
  function BeginReplay(s: Client): Client
    requires s.link.Some?
  {
    s.(link := Some(s.link.value.(phase := Replaying(SortBySeq(s.queue)))))
  }

  function ReplayOne(s: Client, written: bool): Client
    requires s.link.Some? && s.link.value.phase.Replaying? && s.link.value.phase.rest != []
  {
    var link := s.link.value;
    s.(link := Some(
      if written then link.(wire := link.wire + [link.phase.rest[0]], phase := Replaying(link.phase.rest[1..]))
      else link.(phase := Aborted)))
  }

  function EndReplay(s: Client): Client
    requires s.link.Some?
  {
    s.(link := Some(s.link.value.(phase := Ready(true))))
  }

  /** A frame arrives: the server skips it if its number is not new, unless it is a greeting. */
  function Handle(s: Client, m: Message): Client {
    s.(processed := if m.kind == GREETING || m.seqNo > s.mark then s.processed + {m} else s.processed,
       mark := Max(s.mark, m.seqNo))
  }

  /** The server takes the next frame. */
  function Receive(s: Client): Client
    requires s.link.Some? && s.link.value.received < |s.link.value.wire|
  {
    var link := s.link.value;
    Handle(s, link.wire[link.received]).(link := Some(link.(received := link.received + 1)))
  }

  /** The server takes a frame of a connection that the client has given up. */
  function ReceiveLate(s: Client, k: nat): Client
    requires k < |s.draining| && s.draining[k].received < |s.draining[k].wire|
  {
    var link := s.draining[k];
    Handle(s, link.wire[link.received]).(draining := s.draining[k := link.(received := link.received + 1)])
  }

  function Disconnect(s: Client): Client
    requires s.link.Some?
  {
    s.(link := None, draining := s.draining + [s.link.value])
  }

  function HandleAck(s: Client, a: int): Client
    requires s.link.Some?
  {
    s.(lastAcked := Max(s.lastAcked, a),
       queue := if a > 0 then Above(s.queue, a) else s.queue,
       link := Some(s.link.value.(acked := s.link.value.acked + 1)))
  }

  datatype Event =
    | SendEvent(kind: string, payload: string, persisted: bool, written: bool)
    | ConnectEvent
    | HelloEvent(hello: string, written: bool)
    | BeginReplayEvent
    | ReplayOneEvent(written: bool)
    | EndReplayEvent
    | ReceiveEvent
    | AckEvent(upto: int)
    | LateReceiveEvent(k: nat)
    | DisconnectEvent

  predicate Enabled(s: Client, e: Event) {
    match e
    case SendEvent(_, _, _, _) => !(s.link.Some? && s.link.value.phase.Replaying?)
    case ConnectEvent => s.link.None?
    case HelloEvent(_, _) => s.link.Some? && s.link.value.phase.Fresh?
    case BeginReplayEvent => s.link.Some? && s.link.value.phase.Greeted?
    case ReplayOneEvent(_) => s.link.Some? && s.link.value.phase.Replaying? && s.link.value.phase.rest != []
    case EndReplayEvent => s.link.Some? && s.link.value.phase == Replaying([])
    case ReceiveEvent => s.link.Some? && s.link.value.received < |s.link.value.wire|
    case AckEvent(a) => s.link.Some? && a <= s.mark && a <= s.counter
    case LateReceiveEvent(k) => k < |s.draining| && s.draining[k].received < |s.draining[k].wire|
    case DisconnectEvent => s.link.Some?
  }

  function Step(s: Client, e: Event): Client {
    if !Enabled(s, e) then s
    else
      match e
      case SendEvent(kind, payload, persisted, written) =>
        Send(s, Message(s.counter + 1, kind, payload), !IsVolatile(kind), persisted, written).0
      case ConnectEvent => Connect(s)
      case HelloEvent(payload, written) => Hello(s, payload, written)
      case BeginReplayEvent => BeginReplay(s)
      case ReplayOneEvent(written) => ReplayOne(s, written)
      case EndReplayEvent => EndReplay(s)
      case ReceiveEvent => Receive(s)
      case AckEvent(a) => HandleAck(s, a)
      case LateReceiveEvent(k) => ReceiveLate(s, k)
      case DisconnectEvent => Disconnect(s)
  }

  function Run(s: Client, events: seq<Event>): Client {
    if events == [] then s else Step(Run(s, events[..|events| - 1]), events[|events| - 1])
  }

  /** The process is gone, and its connection with it. */
  function Crashed(s: Client): Client {
    if s.link.Some? then Disconnect(s) else s
  }

  /** The client of a new process, started with `q`, and what outlives the client `past` of the one before. */
  function Restarted(past: Client, q: State): Client {
    Client(q.counter, q.saved, q.maxSize, q.messages, None, Crashed(past).draining,
           past.accepted, past.processed, past.mark)
  }

  /**
   What precedes the first process: messages left by an earlier version count as accepted, and as
   processed as far as the server's number says.
   */
  function Origin(found: seq<Message>, mark: int): Client {
    Client(0, 0, 0, [], None, [], (set m | m in found), (set m | m in found && m.seqNo <= mark), mark)
  }

  function Started(q: State, mark: int): Client {
    Restarted(Origin(q.messages, mark), q)
  }

  /** The message is the newest frame of the connection. */
  predicate IsOnWire(s: Client, r: Client, m: Message) {
    s.link.Some? && r.link.Some? && r.link.value.wire == s.link.value.wire + [m]
  }

  /**
   What a send tells its caller. A message that was sent is on the wire, or is durable and waits on disk for
   the next connection; no other answer leaves a frame on the wire, and a failed write ends the connection.
   */
  lemma SendIsAnswered(s: Client, m: Message, durable: bool, persisted: bool, written: bool)
    ensures
      var (r, result) := Send(s, m, durable, persisted, written);
      && (result == PersistFailed <==> durable && !persisted)
      && (result == NotConnected <==> !durable && !IsReady(s))
      && (result == Sent <==> IsOnWire(s, r, m) || (durable && persisted && !IsReady(s)))
      && (IsOnWire(s, r, m) <==>
            && IsReady(s) && s.link.value.phase.intact && written && (durable ==> persisted))
      && (result == WriteFailed ==> r.link.Some? && r.link.value == s.link.value.(phase := Ready(false)))
      && (result != WriteFailed && !IsOnWire(s, r, m) ==> r.link == s.link)
      && (if durable then r.queue != [] && r.queue[|r.queue| - 1] == m else r.queue == s.queue)
      && r.counter == s.counter + 1
  {
  }

  /** An acknowledgement takes exactly the messages up to its number off the queue, and no frame off the wire. */
  lemma AckIsApplied(s: Client, a: int, m: Message)
    requires s.link.Some?
    ensures
      var r := HandleAck(s, a);
      && (m in r.queue <==> m in s.queue && (a > 0 ==> m.seqNo > a))
      && r.lastAcked == (if a > s.lastAcked then a else s.lastAcked)
      && r.link.Some? && r.link.value.wire == s.link.value.wire && r.link.value.phase == s.link.value.phase
      && r.link.value.received == s.link.value.received
      && r.accepted == s.accepted && r.processed == s.processed && r.counter == s.counter && r.mark == s.mark
  {
    AboveHolds(s.queue, a, m);
  }

  /** In the order of the numbers. */
  ghost predicate InOrderOfNumbers(ms: seq<Message>) {
    forall i: nat, j: nat :: i < j < |ms| ==> ms[i].seqNo <= ms[j].seqNo
  }

  ghost predicate NoneBelow(ms: seq<Message>, n: int) {
    forall i: nat :: i < |ms| ==> ms[i].seqNo >= n
  }

  lemma {:induction false} InsertKeepsMembers(m: Message, ms: seq<Message>)
    ensures multiset(InsertBySeq(m, ms)) == multiset(ms) + multiset{m}
  {
    if ms != [] && m.seqNo >= ms[0].seqNo {
      InsertKeepsMembers(m, ms[1..]);
      assert ms == [ms[0]] + ms[1..];
    }
  }

  lemma {:induction false} InsertKeepsBound(m: Message, ms: seq<Message>, n: int)
    requires NoneBelow(ms, n) && m.seqNo >= n
    ensures NoneBelow(InsertBySeq(m, ms), n)
  {
    if ms != [] && m.seqNo >= ms[0].seqNo {
      assert NoneBelow(ms[1..], n);
      InsertKeepsBound(m, ms[1..], n);
    }
  }

  lemma {:induction false} InsertKeepsOrder(m: Message, ms: seq<Message>)
    requires InOrderOfNumbers(ms)
    ensures InOrderOfNumbers(InsertBySeq(m, ms))
  {
    if ms != [] && m.seqNo >= ms[0].seqNo {
      assert InOrderOfNumbers(ms[1..]) && NoneBelow(ms[1..], ms[0].seqNo);
      InsertKeepsOrder(m, ms[1..]);
      InsertKeepsBound(m, ms[1..], ms[0].seqNo);
    }
  }

  /** The replay's copy of any queue holds the same messages in the order of their numbers. */
  lemma {:induction false} ReplayIsInOrder(ms: seq<Message>)
    ensures InOrderOfNumbers(SortBySeq(ms)) && multiset(SortBySeq(ms)) == multiset(ms)
  {
    if ms != [] {
      ReplayIsInOrder(ms[1..]);
      InsertKeepsOrder(ms[0], SortBySeq(ms[1..]));
      InsertKeepsMembers(ms[0], SortBySeq(ms[1..]));
      assert ms == [ms[0]] + ms[1..];
    }
  }

  /** A greeting or a replay that fails to write leaves the wire as it was and gives the connection up. */
  lemma FailedWriteAborts(s: Client, e: Event)
    requires Enabled(s, e) && (e.HelloEvent? || e.ReplayOneEvent?) && !e.written
    ensures Step(s, e) == s.(link := Some(s.link.value.(phase := Aborted)))
  {
  }

  /** Nothing is written to a connection that was given up, and it never becomes ready. */
  lemma AbortedIsSilent(s: Client, e: Event)
    requires s.link.Some? && s.link.value.phase.Aborted?
    ensures
      var r := Step(s, e);
      if e.DisconnectEvent? then r.link.None? && r.draining == s.draining + [s.link.value]
      else r.link.Some? && r.link.value.phase.Aborted? && r.link.value.wire == s.link.value.wire
  {
  }

  // ---------------------------------------------------------------------------------------------
  // What the client keeps up by itself
  // ---------------------------------------------------------------------------------------------

  ghost predicate QueueOk(s: Client) {
    && Sorted(s.queue) && AllUpto(s.queue, s.counter) && AllAbove(s.queue, Max(s.lastAcked, 1))
    && Max(s.lastAcked, 1) <= s.counter
  }

  /** Frames carry increasing numbers, and the server has seen those that it took. */
  ghost predicate WireOk(s: Client, link: Link) {
    && Sorted(link.wire) && link.received <= |link.wire|
    && (forall j: nat :: j < link.received ==> link.wire[j].seqNo <= s.mark)
  }

  ghost predicate PhaseOk(s: Client, link: Link) {
    match link.phase
    case Fresh => link.wire == []
    case Greeted => |link.wire| == 1 && link.wire[0].seqNo <= Max(s.lastAcked, 1)
    case Replaying(rest) => link.wire != [] && Sorted(link.wire + rest) && AllUpto(rest, s.counter)
    case Ready(_) => true
    case Aborted => true
  }

  ghost predicate LinkOk(s: Client, link: Link) {
    WireOk(s, link) && AllUpto(link.wire, s.counter) && PhaseOk(s, link)
  }

  ghost predicate ProcessedOk(s: Client) {
    forall m {:trigger m in s.processed} :: m in s.processed ==> m.seqNo <= s.mark
  }

  /** Numbers on each connection increase and stay in step with the queue and the counter. */
  ghost predicate ClientOk(s: Client) {
    && QueueOk(s) && ProcessedOk(s)
    && (s.link.Some? ==> LinkOk(s, s.link.value))
    && (forall k: nat {:trigger s.draining[k]} :: k < |s.draining| ==> WireOk(s, s.draining[k]))
  }

  // Acknowledgements

  lemma {:induction false} AboveKeepsMember(ms: seq<Message>, a: int, m: Message)
    requires m in ms && m.seqNo > a
    ensures m in Above(ms, a)
  {
    if ms[0] == m {
    } else {
      assert m in ms[1..];
      AboveKeepsMember(ms[1..], a, m);
    }
  }

  lemma AckKeepsQueue(s: Client, a: int)
    requires QueueOk(s) && s.link.Some? && a <= s.counter
    ensures QueueOk(HandleAck(s, a))
  {
    AboveIsSorted(s.queue, a);
    AboveIsAbove(s.queue, a);
    AboveKeepsBounds(s.queue, a, s.counter);
    AboveKeepsFloor(s.queue, a, Max(s.lastAcked, 1));
  }

  lemma AckKeepsClient(s: Client, a: int)
    requires ClientOk(s) && s.link.Some? && a <= s.counter
    ensures ClientOk(HandleAck(s, a))
  {
    AckKeepsQueue(s, a);
    assert WireOk(HandleAck(s, a), HandleAck(s, a).link.value);
  }

  // The server

  lemma HandleKeepsWire(s: Client, m: Message, link: Link)
    requires WireOk(s, link)
    ensures WireOk(Handle(s, m), link)
    ensures link.received < |link.wire| && link.wire[link.received] == m ==>
              WireOk(Handle(s, m), link.(received := link.received + 1))
  {
  }

  lemma ReceiveKeepsClient(s: Client)
    requires ClientOk(s) && Enabled(s, ReceiveEvent)
    ensures ClientOk(Receive(s))
  {
    var link := s.link.value;
    var x := link.wire[link.received];
    HandleKeepsWire(s, x, link);
    forall k: nat {:trigger s.draining[k]} | k < |s.draining| ensures WireOk(Handle(s, x), s.draining[k]) {
      HandleKeepsWire(s, x, s.draining[k]);
    }
  }

  lemma ReceiveLateKeepsClient(s: Client, k: nat)
    requires ClientOk(s) && Enabled(s, LateReceiveEvent(k))
    ensures ClientOk(ReceiveLate(s, k))
  {
    var link := s.draining[k];
    var x := link.wire[link.received];
    forall i: nat {:trigger s.draining[i]} | i < |s.draining|
      ensures WireOk(Handle(s, x), s.draining[i])
      ensures i == k ==> WireOk(Handle(s, x), link.(received := link.received + 1))
    {
      HandleKeepsWire(s, x, s.draining[i]);
    }
    if s.link.Some? {
      HandleKeepsWire(s, x, s.link.value);
    }
  }

  // Connecting, greeting and replaying

  lemma {:induction false} SortedStays(ms: seq<Message>)
    requires Sorted(ms)
    ensures SortBySeq(ms) == ms
  {
    if ms != [] {
      assert Sorted(ms[1..]);
      SortedStays(ms[1..]);
      assert |ms| > 1 ==> ms[0].seqNo < ms[1].seqNo;
    }
  }

  lemma BeginReplayKeepsClient(s: Client)
    requires ClientOk(s) && Enabled(s, BeginReplayEvent)
    ensures ClientOk(BeginReplay(s))
  {
    var link := s.link.value;
    SortedStays(s.queue);
    assert Sorted(link.wire + s.queue);
  }

  lemma ReplayOneKeepsClient(s: Client, written: bool)
    requires ClientOk(s) && Enabled(s, ReplayOneEvent(written))
    ensures ClientOk(ReplayOne(s, written))
  {
    var link := s.link.value;
    var rest := link.phase.rest;
    assert link.wire + rest == (link.wire + [rest[0]]) + rest[1..];
    assert link.wire + [rest[0]] == (link.wire + rest)[..|link.wire| + 1];
  }

  lemma HelloKeepsClient(s: Client, payload: string, written: bool)
    requires ClientOk(s) && Enabled(s, HelloEvent(payload, written))
    ensures ClientOk(Hello(s, payload, written))
  {
    var link := s.link.value;
    assert link.wire + [Greeting(s, payload)] == [Greeting(s, payload)];
  }

  lemma DisconnectKeepsClient(s: Client)
    requires ClientOk(s) && s.link.Some?
    ensures ClientOk(Disconnect(s))
  {
  }

  // Sending

  /** The state in which a live message is written, leaving the connection aside. */
  function Queued(s: Client, m: Message, durable: bool, persisted: bool): Client {
    (if durable then Enqueue(Count(s), m, persisted) else Count(s)).(link := None)
  }

  lemma EnqueueKeepsQueue(s: Client, m: Message, durable: bool, persisted: bool)
    requires QueueOk(s) && m.seqNo == s.counter + 1
    ensures QueueOk(Queued(s, m, durable, persisted))
  {
    if durable {
      var rest := if Full(s) then s.queue[1..] else s.queue;
      SortedAppend(rest, m);
    }
  }

  lemma SendKeepsQueue(s: Client, m: Message, durable: bool, persisted: bool, written: bool)
    requires QueueOk(s) && m.seqNo == s.counter + 1
    ensures QueueOk(Send(s, m, durable, persisted, written).0)
  {
    EnqueueKeepsQueue(s, m, durable, persisted);
  }

  lemma LiveFrameKeepsLink(s: Client, r: Client, link: Link, m: Message)
    requires LinkOk(s, link) && m.seqNo == s.counter + 1 == r.counter && r.mark == s.mark && link.phase.Ready?
    ensures LinkOk(r, link.(wire := link.wire + [m]))
  {
    SortedAppend(link.wire, m);
  }

  /** A send changes only the frames of the current connection. */
  lemma SendShape(s: Client, m: Message, durable: bool, persisted: bool, written: bool)
    ensures
      var r := Send(s, m, durable, persisted, written).0;
      && r.mark == s.mark && r.lastAcked == s.lastAcked && r.counter == s.counter + 1 && r.draining == s.draining
      && (r.link == s.link
          || (IsReady(s) && r.link == Some(s.link.value.(wire := s.link.value.wire + [m])))
          || (IsReady(s) && r.link == Some(s.link.value.(phase := Ready(false)))))
  {
  }

  lemma SendKeepsClient(s: Client, m: Message, durable: bool, persisted: bool, written: bool)
    requires ClientOk(s) && m.seqNo == s.counter + 1
    requires !(s.link.Some? && s.link.value.phase.Replaying?)
    ensures ClientOk(Send(s, m, durable, persisted, written).0)
  {
    var r := Send(s, m, durable, persisted, written).0;
    SendKeepsQueue(s, m, durable, persisted, written);
    SendShape(s, m, durable, persisted, written);
    if s.link.Some? {
      if IsReady(s) {
        LiveFrameKeepsLink(s, r, s.link.value, m);
      }
      assert LinkOk(r, s.link.value);
    }
    forall k: nat {:trigger r.draining[k]} | k < |r.draining| ensures WireOk(r, r.draining[k]) {
      assert WireOk(s, s.draining[k]);
    }
  }

  lemma ConnectKeepsClient(s: Client)
    requires ClientOk(s)
    ensures ClientOk(Connect(s))
  {
  }

  lemma EndReplayKeepsClient(s: Client)
    requires ClientOk(s) && s.link.Some?
    ensures ClientOk(EndReplay(s))
  {
  }

  predicate IsReplay(e: Event) {
    e.BeginReplayEvent? || e.ReplayOneEvent? || e.EndReplayEvent?
  }

  lemma ReplayStepKeepsClient(s: Client, e: Event)
    requires ClientOk(s) && IsReplay(e) && Enabled(s, e)
    ensures ClientOk(Step(s, e))
  {
    match e
    case BeginReplayEvent => BeginReplayKeepsClient(s);
    case ReplayOneEvent(written) => ReplayOneKeepsClient(s, written);
    case EndReplayEvent => EndReplayKeepsClient(s);
  }

  lemma ServerStepKeepsClient(s: Client, e: Event)
    requires ClientOk(s) && (e.ReceiveEvent? || e.AckEvent? || e.LateReceiveEvent?) && Enabled(s, e)
    ensures ClientOk(Step(s, e))
  {
    match e
    case ReceiveEvent => ReceiveKeepsClient(s);
    case AckEvent(a) => AckKeepsClient(s, a);
    case LateReceiveEvent(k) => ReceiveLateKeepsClient(s, k);
  }

  lemma SendStep(s: Client, e: Event, durable: bool)
    requires e.SendEvent? && Enabled(s, e) && durable == !IsVolatile(e.kind)
    ensures Step(s, e) == Send(s, Message(s.counter + 1, e.kind, e.payload), durable, e.persisted, e.written).0
  {
  }

  lemma SendStepKeepsClient(s: Client, e: Event, durable: bool)
    requires ClientOk(s) && e.SendEvent? && Enabled(s, e)
    requires Step(s, e) == Send(s, Message(s.counter + 1, e.kind, e.payload), durable, e.persisted, e.written).0
    ensures ClientOk(Step(s, e))
  {
    SendKeepsClient(s, Message(s.counter + 1, e.kind, e.payload), durable, e.persisted, e.written);
  }

  lemma LinkStepKeepsClient(s: Client, e: Event)
    requires ClientOk(s) && (e.ConnectEvent? || e.HelloEvent? || e.DisconnectEvent?) && Enabled(s, e)
    ensures ClientOk(Step(s, e))
  {
    match e
    case ConnectEvent => ConnectKeepsClient(s);
    case HelloEvent(payload, written) => HelloKeepsClient(s, payload, written);
    case DisconnectEvent => DisconnectKeepsClient(s);
  }

  lemma StepKeepsClient(s: Client, e: Event)
    requires ClientOk(s)
    ensures ClientOk(Step(s, e))
  {
    if !Enabled(s, e) {
    } else if e.SendEvent? {
      var durable := !IsVolatile(e.kind);
      SendStep(s, e, durable);
      SendStepKeepsClient(s, e, durable);
    } else if IsReplay(e) {
      ReplayStepKeepsClient(s, e);
    } else if e.ReceiveEvent? || e.AckEvent? || e.LateReceiveEvent? {
      ServerStepKeepsClient(s, e);
    } else {
      LinkStepKeepsClient(s, e);
    }
  }

  lemma {:induction false} RunKeepsClient(s: Client, events: seq<Event>)
    requires ClientOk(s)
    ensures ClientOk(Run(s, events))
  {
    if events != [] {
      RunKeepsClient(s, events[..|events| - 1]);
      StepKeepsClient(Run(s, events[..|events| - 1]), events[|events| - 1]);
    }
  }

  /** Only sends and acknowledgements touch the queue, the counter and what counts as accepted. */
  lemma WireStepKeepsQueue(s: Client, e: Event)
    requires !e.SendEvent? && !e.AckEvent?
    ensures
      var r := Step(s, e);
      && r.queue == s.queue && r.counter == s.counter && r.maxSize == s.maxSize && r.lastAcked == s.lastAcked
      && r.accepted == s.accepted && s.processed <= r.processed && s.mark <= r.mark
  {
  }

  lemma SendStepKeepsQueue(s: Client, e: Event, durable: bool)
    requires QueueOk(s) && e.SendEvent? && Enabled(s, e)
    requires Step(s, e) == Send(s, Message(s.counter + 1, e.kind, e.payload), durable, e.persisted, e.written).0
    ensures QueueOk(Step(s, e))
  {
    SendKeepsQueue(s, Message(s.counter + 1, e.kind, e.payload), durable, e.persisted, e.written);
  }

  /** The queue alone is in order whatever the connections are like. */
  lemma StepKeepsQueue(s: Client, e: Event)
    requires QueueOk(s)
    ensures QueueOk(Step(s, e))
  {
    if !Enabled(s, e) {
    } else if e.SendEvent? {
      var durable := !IsVolatile(e.kind);
      SendStep(s, e, durable);
      SendStepKeepsQueue(s, e, durable);
    } else if e.AckEvent? {
      AckKeepsQueue(s, e.upto);
    } else {
      WireStepKeepsQueue(s, e);
    }
  }

  lemma StartedQueueOk(past: Client, q: State, answers: StartAnswers)
    requires DiskOk(q) && !q.running && Start(q, answers).running
    ensures QueueOk(Restarted(past, Start(q, answers)))
  {
    StartKeepsMessages(q, answers);
    StartKeepsInv(q, answers);
    StartedMessages(q, answers);
  }

  /** The client of a process that has just started, whatever the ones before it have done. */
  lemma RestartedIsOk(past: Client, q: State, answers: StartAnswers)
    requires DiskOk(q) && !q.running && Start(q, answers).running && ClientOk(past)
    ensures ClientOk(Restarted(past, Start(q, answers)))
  {
    StartedQueueOk(past, q, answers);
    if past.link.Some? {
      DisconnectKeepsClient(past);
    }
    var s := Restarted(past, Start(q, answers));
    forall k: nat {:trigger s.draining[k]} | k < |s.draining| ensures WireOk(s, s.draining[k]) {
      assert WireOk(Crashed(past), s.draining[k]);
    }
  }

  // ---------------------------------------------------------------------------------------------
  // What reaches the server
  // ---------------------------------------------------------------------------------------------

  /** No number above `n` has reached the server or is still on its way there. */
  ghost predicate UsedUpto(s: Client, n: int) {
    s.mark <= n && forall k: nat {:trigger s.draining[k]} :: k < |s.draining| ==> AllUpto(s.draining[k].wire, n)
  }

  /** `m` is among the first `n` frames. */
  ghost predicate OnWire(wire: seq<Message>, n: int, m: Message) {
    exists j: nat :: j < n && j < |wire| && wire[j] == m
  }

  ghost predicate FrameCovers(wire: seq<Message>, i: nat, m: Message) {
    i < |wire| && m.seqNo <= wire[i].seqNo ==> OnWire(wire, i + 1, m)
  }

  /** No frame with the number of `m` or a higher one is written ahead of `m`. */
  ghost predicate WireCovers(wire: seq<Message>, m: Message) {
    forall i: nat {:trigger FrameCovers(wire, i, m)} :: FrameCovers(wire, i, m)
  }

  /** What is left to be written on a connection has a place for `m`, unless it was written already. */
  ghost predicate PhaseCovers(link: Link, m: Message) {
    match link.phase
    case Replaying(rest) => OnWire(link.wire, |link.wire|, m) || m in rest
    case Ready(intact) => intact ==> OnWire(link.wire, |link.wire|, m)
    case _ => true
  }

  /** `m` is queued, the server has not passed its number, and nothing is ahead of it on any connection. */
  ghost predicate Pending(s: Client, m: Message) {
    && m in s.queue && m.seqNo > s.mark
    && (s.link.Some? ==> WireCovers(s.link.value.wire, m) && PhaseCovers(s.link.value, m))
    && (forall k: nat {:trigger s.draining[k]} :: k < |s.draining| ==> WireCovers(s.draining[k].wire, m))
  }

  /** If `m` is accepted it has been handled or is going to be. */
  ghost predicate Secure(s: Client, m: Message) {
    m in s.accepted ==> m in s.processed || Pending(s, m)
  }

  ghost predicate Inv(s: Client) {
    && ClientOk(s) && UsedUpto(s, s.counter)
    && (forall m {:trigger Secure(s, m)} :: Secure(s, m))
  }

  // A message that is pending stays so until it is handled or dropped

  lemma OnWireStays(wire: seq<Message>, n: nat, x: Message, m: Message)
    requires OnWire(wire, n, m)
    ensures forall n': int :: n <= n' ==> OnWire(wire + [x], n', m)
  {
    var j: nat :| j < n && j < |wire| && wire[j] == m;
    assert (wire + [x])[j] == m;
  }

  /** One more frame: it is `m`, or comes after it, or has a lower number. */
  lemma WriteKeepsWire(wire: seq<Message>, x: Message, m: Message)
    requires WireCovers(wire, m)
    requires m == x || x.seqNo < m.seqNo || OnWire(wire, |wire|, m)
    ensures WireCovers(wire + [x], m)
    ensures m == x || OnWire(wire, |wire|, m) ==> OnWire(wire + [x], |wire| + 1, m)
  {
    var after := wire + [x];
    assert after[|wire|] == x;
    if OnWire(wire, |wire|, m) {
      OnWireStays(wire, |wire|, x, m);
    }
    forall i: nat ensures FrameCovers(after, i, m) {
      assert FrameCovers(wire, i, m);
      if i < |wire| && m.seqNo <= after[i].seqNo {
        OnWireStays(wire, i + 1, x, m);
      }
    }
  }

  lemma AckKeepsPending(s: Client, a: int, m: Message)
    requires Pending(s, m) && s.link.Some? && a <= s.mark
    ensures Pending(HandleAck(s, a), m)
  {
    AboveKeepsMember(s.queue, a, m);
  }

  /** The server takes the next frame: it is `m`, which it handles, or it has a lower number. */
  lemma HandleKeepsPending(s: Client, link: Link, m: Message)
    requires Pending(s, m) && WireOk(s, link) && WireCovers(link.wire, m) && link.received < |link.wire|
    ensures
      var r := Handle(s, link.wire[link.received]);
      m in r.processed || m.seqNo > r.mark
  {
    assert FrameCovers(link.wire, link.received, m);
    if m.seqNo <= link.wire[link.received].seqNo {
      var j: nat :| j < link.received + 1 && link.wire[j] == m;
      assert j == link.received;
    }
  }

  lemma ReceiveKeepsPending(s: Client, m: Message)
    requires ClientOk(s) && Pending(s, m) && Enabled(s, ReceiveEvent)
    ensures m in Receive(s).processed || Pending(Receive(s), m)
  {
    HandleKeepsPending(s, s.link.value, m);
  }

  lemma ReceiveLateKeepsPending(s: Client, k: nat, m: Message)
    requires ClientOk(s) && Pending(s, m) && Enabled(s, LateReceiveEvent(k))
    ensures m in ReceiveLate(s, k).processed || Pending(ReceiveLate(s, k), m)
  {
    assert WireCovers(s.draining[k].wire, m);
    HandleKeepsPending(s, s.draining[k], m);
    var r := ReceiveLate(s, k);
    forall i: nat {:trigger r.draining[i]} | i < |r.draining| ensures WireCovers(r.draining[i].wire, m) {
      assert WireCovers(s.draining[i].wire, m);
    }
  }

  lemma HelloKeepsPending(s: Client, payload: string, written: bool, m: Message)
    requires ClientOk(s) && Pending(s, m) && Enabled(s, HelloEvent(payload, written))
    ensures Pending(Hello(s, payload, written), m)
  {
    WriteKeepsWire(s.link.value.wire, Greeting(s, payload), m);
  }

  lemma BeginReplayKeepsPending(s: Client, m: Message)
    requires ClientOk(s) && Pending(s, m) && Enabled(s, BeginReplayEvent)
    ensures Pending(BeginReplay(s), m)
  {
    SortedStays(s.queue);
  }

  lemma RestIsAbove(wire: seq<Message>, rest: seq<Message>, j: nat)
    requires Sorted(wire + rest) && j < |rest|
    ensures j == 0 || rest[0].seqNo < rest[j].seqNo
  {
    assert (wire + rest)[|wire|] == rest[0] && (wire + rest)[|wire| + j] == rest[j];
  }

  lemma ReplayOneKeepsPending(s: Client, written: bool, m: Message)
    requires ClientOk(s) && Pending(s, m) && Enabled(s, ReplayOneEvent(written))
    ensures Pending(ReplayOne(s, written), m)
  {
    var link := s.link.value;
    var rest := link.phase.rest;
    if !OnWire(link.wire, |link.wire|, m) && m != rest[0] {
      var j: nat :| j < |rest| && rest[j] == m;
      RestIsAbove(link.wire, rest, j);
      assert rest[1..][j - 1] == m;
    }
    WriteKeepsWire(link.wire, rest[0], m);
  }

  lemma DisconnectKeepsPending(s: Client, m: Message)
    requires Pending(s, m) && s.link.Some?
    ensures Pending(Disconnect(s), m)
  {
  }

  predicate DropsOldest(s: Client, durable: bool, m: Message) {
    durable && Full(s) && m == s.queue[0]
  }

  lemma SendKeepsQueued(s: Client, x: Message, durable: bool, persisted: bool, written: bool, m: Message)
    requires m in s.queue && !DropsOldest(s, durable, m)
    ensures m in Send(s, x, durable, persisted, written).0.queue
  {
    if durable {
      var rest := if Full(s) then s.queue[1..] else s.queue;
      assert m in rest;
    }
  }

  lemma SendKeepsPending(s: Client, x: Message, durable: bool, persisted: bool, written: bool, m: Message)
    requires Pending(s, m) && !DropsOldest(s, durable, m)
    requires !(s.link.Some? && s.link.value.phase.Replaying?)
    ensures Pending(Send(s, x, durable, persisted, written).0, m)
  {
    SendKeepsQueued(s, x, durable, persisted, written, m);
    if s.link.Some? && s.link.value.phase == Ready(true) {
      WriteKeepsWire(s.link.value.wire, x, m);
    }
  }

  lemma BelowCovers(wire: seq<Message>, m: Message)
    requires AllUpto(wire, m.seqNo - 1)
    ensures WireCovers(wire, m)
  {
  }

  /** A message that is accepted under a number above all in use is pending. */
  lemma NewIsPending(s: Client, m: Message, written: bool)
    requires ClientOk(s) && UsedUpto(s, s.counter) && m.seqNo == s.counter + 1
    requires !(s.link.Some? && s.link.value.phase.Replaying?)
    ensures Pending(Send(s, m, true, true, written).0, m)
  {
    var r := Send(s, m, true, true, written).0;
    SendShape(s, m, true, true, written);
    assert r.queue[|r.queue| - 1] == m;
    if s.link.Some? {
      BelowCovers(s.link.value.wire, m);
      WriteKeepsWire(s.link.value.wire, m, m);
    }
    forall k: nat {:trigger r.draining[k]} | k < |r.draining| ensures WireCovers(r.draining[k].wire, m) {
      BelowCovers(s.draining[k].wire, m);
    }
  }

  /** Sending `x` keeps `m` secure, unless `m` is what is sent and its number may be in use. */
  lemma SendKeepsSecure(s: Client, x: Message, durable: bool, persisted: bool, written: bool, m: Message)
    requires ClientOk(s) && Secure(s, m) && x.seqNo == s.counter + 1
    requires m in s.accepted || UsedUpto(s, s.counter)
    requires !(s.link.Some? && s.link.value.phase.Replaying?)
    ensures Secure(Send(s, x, durable, persisted, written).0, m)
  {
    if m in s.accepted && m !in s.processed {
      assert m != x;
      if !DropsOldest(s, durable, m) {
        SendKeepsPending(s, x, durable, persisted, written, m);
      }
    } else if m !in s.accepted && m == x && durable && persisted {
      NewIsPending(s, m, written);
    }
  }

  lemma SendStepKeepsSecure(s: Client, e: Event, durable: bool, m: Message)
    requires ClientOk(s) && Secure(s, m) && e.SendEvent? && Enabled(s, e)
    requires m in s.accepted || UsedUpto(s, s.counter)
    requires Step(s, e) == Send(s, Message(s.counter + 1, e.kind, e.payload), durable, e.persisted, e.written).0
    ensures Secure(Step(s, e), m)
  {
    SendKeepsSecure(s, Message(s.counter + 1, e.kind, e.payload), durable, e.persisted, e.written, m);
  }

  lemma ReplayStepKeepsPending(s: Client, e: Event, m: Message)
    requires ClientOk(s) && Pending(s, m) && IsReplay(e) && Enabled(s, e)
    ensures Pending(Step(s, e), m)
  {
    match e
    case BeginReplayEvent => BeginReplayKeepsPending(s, m);
    case ReplayOneEvent(written) => ReplayOneKeepsPending(s, written, m);
    case EndReplayEvent =>
  }

  lemma LinkStepKeepsPending(s: Client, e: Event, m: Message)
    requires ClientOk(s) && Pending(s, m) && (e.ConnectEvent? || e.HelloEvent? || e.DisconnectEvent?) && Enabled(s, e)
    ensures Pending(Step(s, e), m)
  {
    match e
    case ConnectEvent =>
    case HelloEvent(payload, written) => HelloKeepsPending(s, payload, written, m);
    case DisconnectEvent => DisconnectKeepsPending(s, m);
  }

  lemma ServerStepKeepsPending(s: Client, e: Event, m: Message)
    requires ClientOk(s) && Pending(s, m) && (e.ReceiveEvent? || e.AckEvent? || e.LateReceiveEvent?) && Enabled(s, e)
    ensures m in Step(s, e).processed || Pending(Step(s, e), m)
  {
    match e
    case ReceiveEvent => ReceiveKeepsPending(s, m);
    case AckEvent(a) => AckKeepsPending(s, a, m);
    case LateReceiveEvent(k) => ReceiveLateKeepsPending(s, k, m);
  }

  lemma OtherStepKeepsSecure(s: Client, e: Event, m: Message)
    requires ClientOk(s) && Secure(s, m) && !e.SendEvent? && Enabled(s, e)
    ensures Secure(Step(s, e), m)
  {
    OtherStepKeepsAccepted(s, e);
    if m in s.accepted && m !in s.processed {
      if IsReplay(e) {
        ReplayStepKeepsPending(s, e, m);
      } else if e.ReceiveEvent? || e.AckEvent? || e.LateReceiveEvent? {
        ServerStepKeepsPending(s, e, m);
      } else {
        LinkStepKeepsPending(s, e, m);
      }
    }
  }

  lemma OtherStepKeepsAccepted(s: Client, e: Event)
    requires !e.SendEvent?
    ensures Step(s, e).accepted == s.accepted && s.processed <= Step(s, e).processed
  {
  }

  /**
   Whatever happens, a message that is secure stays secure; and one that is accepted becomes so if its number
   is above all in use. Nothing is asked of the numbers of other messages.
   */
  lemma StepKeepsSecure(s: Client, e: Event, m: Message)
    requires ClientOk(s) && Secure(s, m)
    requires m in s.accepted || UsedUpto(s, s.counter)
    ensures Secure(Step(s, e), m)
  {
    if !Enabled(s, e) {
    } else if e.SendEvent? {
      var durable := !IsVolatile(e.kind);
      SendStep(s, e, durable);
      SendStepKeepsSecure(s, e, durable, m);
    } else {
      OtherStepKeepsSecure(s, e, m);
    }
  }

  /** Once the counter is above all numbers in use it stays there. */
  lemma StepKeepsUsed(s: Client, e: Event)
    requires ClientOk(s) && UsedUpto(s, s.counter)
    ensures UsedUpto(Step(s, e), Step(s, e).counter)
  {
    if !Enabled(s, e) {
    } else if e.SendEvent? {
      var durable := !IsVolatile(e.kind);
      SendStep(s, e, durable);
      SendKeepsUsed(s, Message(s.counter + 1, e.kind, e.payload), durable, e.persisted, e.written);
    } else {
      OtherStepKeepsUsed(s, e);
    }
  }

  lemma SendKeepsUsed(s: Client, m: Message, durable: bool, persisted: bool, written: bool)
    requires UsedUpto(s, s.counter)
    ensures
      var r := Send(s, m, durable, persisted, written).0;
      UsedUpto(r, r.counter)
  {
    SendShape(s, m, durable, persisted, written);
  }

  lemma OtherStepKeepsUsed(s: Client, e: Event)
    requires ClientOk(s) && UsedUpto(s, s.counter) && !e.SendEvent? && Enabled(s, e)
    ensures UsedUpto(Step(s, e), Step(s, e).counter)
  {
    var r := Step(s, e);
    if e.LateReceiveEvent? {
      assert WireOk(s, s.draining[e.k]);
      forall i: nat {:trigger r.draining[i]} | i < |r.draining| ensures AllUpto(r.draining[i].wire, s.counter) {
        assert AllUpto(s.draining[i].wire, s.counter);
      }
    }
  }

  lemma StepKeepsInv(s: Client, e: Event)
    requires Inv(s)
    ensures Inv(Step(s, e))
  {
    StepKeepsClient(s, e);
    StepKeepsUsed(s, e);
    forall m ensures Secure(Step(s, e), m) {
      StepKeepsSecure(s, e, m);
    }
  }

  lemma RunOneMore(s: Client, events: seq<Event>, e: Event)
    ensures Run(s, events + [e]) == Step(Run(s, events), e)
  {
    assert (events + [e])[..|events|] == events;
  }

  lemma {:induction false} RunConcat(s: Client, before: seq<Event>, after: seq<Event>)
    ensures Run(s, before + after) == Run(Run(s, before), after)
  {
    if after == [] {
      assert before + after == before;
    } else {
      RunConcat(s, before, after[..|after| - 1]);
      assert (before + after)[..|before + after| - 1] == before + after[..|after| - 1];
    }
  }

  lemma {:induction false} RunKeepsInv(s: Client, events: seq<Event>)
    requires Inv(s)
    ensures Inv(Run(s, events))
  {
    if events != [] {
      RunKeepsInv(s, events[..|events| - 1]);
      StepKeepsInv(Run(s, events[..|events| - 1]), events[|events| - 1]);
    }
  }

  lemma CrashKeepsSecure(s: Client, m: Message)
    requires Secure(s, m)
    ensures Secure(Crashed(s), m)
  {
    if s.link.Some? && Pending(s, m) {
      DisconnectKeepsPending(s, m);
    }
  }

  /** A new process takes over a secure message if it finds it on disk, whatever number it starts with. */
  lemma RestartKeepsSecure(past: Client, q: State, m: Message)
    requires past.link.None? && Secure(past, m)
    requires m in past.accepted && m !in past.processed ==> m in q.messages
    ensures Secure(Restarted(past, q), m)
  {
  }

  /** No frame, and no accepted message, has had the next number before. */
  lemma NextNumberIsNew(s: Client, m: Message)
    requires Inv(s) && m.seqNo == s.counter + 1
    ensures m !in s.accepted && m !in s.processed
  {
    assert Secure(s, m);
  }

  /** The first process satisfies the invariant if its numbers are new to the server. */
  lemma StartedInv(q: State, answers: StartAnswers, mark: int)
    requires DiskOk(q) && !q.running && Start(q, answers).running && mark <= Start(q, answers).counter
    ensures Inv(Started(Start(q, answers), mark))
  {
    var s := Started(Start(q, answers), mark);
    StartedQueueOk(Origin(Start(q, answers).messages, mark), q, answers);
    forall m ensures Secure(s, m) {
    }
  }

  // ---------------------------------------------------------------------------------------------
  // What holds over every run of a process whose numbers are new to the server
  // ---------------------------------------------------------------------------------------------

  /** The state of a process that started on `q` when the server had seen `mark`, after `events`. */
  function After(q: State, answers: StartAnswers, mark: int, events: seq<Event>): Client {
    Run(Started(Start(q, answers), mark), events)
  }

  ghost predicate Starts(q: State, answers: StartAnswers, mark: int) {
    DiskOk(q) && !q.running && Start(q, answers).running && mark <= Start(q, answers).counter
  }

  /** Nothing that was accepted is lost, except what a full queue drops. */
  lemma NothingIsLost(q: State, answers: StartAnswers, mark: int, events: seq<Event>, m: Message)
    requires Starts(q, answers, mark) && m in After(q, answers, mark, events).accepted
    ensures
      var s := After(q, answers, mark, events);
      m in s.processed || m in s.queue
  {
    StartedInv(q, answers, mark);
    RunKeepsInv(Started(Start(q, answers), mark), events);
    assert Secure(After(q, answers, mark, events), m);
  }

  /** Only a send into a full queue takes an accepted message back, and only the oldest one queued. */
  lemma OnlyFullQueuesDrop(s: Client, e: Event, m: Message)
    requires m in s.accepted && m !in Step(s, e).accepted
    ensures e.SendEvent? && !IsVolatile(e.kind) && Full(s) && m == s.queue[0]
  {
  }

  /** A message whose push fails is reported as failed, and yet it is queued and will be replayed. */
  lemma FailedPushStaysQueued(s: Client, m: Message, durable: bool, persisted: bool, written: bool)
    ensures
      var (r, result) := Send(s, m, durable, persisted, written);
      && (result == PersistFailed <==> durable && !persisted)
      && (durable ==> m in r.queue)
      && (result == PersistFailed ==> r.link == s.link && (m in r.accepted ==> m in s.accepted))
  {
    var r := Send(s, m, durable, persisted, written).0;
    if durable {
      assert r.queue[|r.queue| - 1] == m;
    }
  }

  /** All connections so far, the current one last. */
  function Links(s: Client): seq<Link> {
    s.draining + if s.link.Some? then [s.link.value] else []
  }

  /**
   On each connection, given up or not, numbers only go up, from the greeting through the replay to the
   live messages, and no frame is written ahead of an accepted message that is still owed to the server.
   */
  lemma ConnectionIsOrdered(q: State, answers: StartAnswers, mark: int, events: seq<Event>, k: nat, i: nat, m: Message)
    requires Starts(q, answers, mark) && k < |Links(After(q, answers, mark, events))|
    requires i < |Links(After(q, answers, mark, events))[k].wire|
    ensures
      var s := After(q, answers, mark, events);
      var wire := Links(s)[k].wire;
      && (forall j: nat :: j < i ==> wire[j].seqNo < wire[i].seqNo)
      && (m in s.accepted && m.seqNo <= wire[i].seqNo ==>
            m in s.processed || exists j: nat :: j <= i && wire[j] == m)
  {
    StartedInv(q, answers, mark);
    RunKeepsInv(Started(Start(q, answers), mark), events);
    var s := After(q, answers, mark, events);
    var link := Links(s)[k];
    assert link == if k < |s.draining| then s.draining[k] else s.link.value;
    assert WireOk(s, link) && Secure(s, m);
    if m in s.accepted && m !in s.processed && m.seqNo <= link.wire[i].seqNo {
      assert WireCovers(link.wire, m) && FrameCovers(link.wire, i, m);
    }
  }

  /** A connection that is up and drained leaves nothing undelivered. */
  lemma QuietConnectionIsComplete(q: State, answers: StartAnswers, mark: int, events: seq<Event>, m: Message)
    requires Starts(q, answers, mark) && m in After(q, answers, mark, events).accepted
    requires
      var s := After(q, answers, mark, events);
      s.link.Some? && s.link.value.phase == Ready(true) && s.link.value.received == |s.link.value.wire|
    ensures m in After(q, answers, mark, events).processed
  {
    StartedInv(q, answers, mark);
    RunKeepsInv(Started(Start(q, answers), mark), events);
    assert Secure(After(q, answers, mark, events), m);
  }

  /**
   The counter stays at or above every number that has reached the server or is on its way there on any
   connection, and every queued message lies above the greeting's number: so the next message has a
   number that nothing else has had, and a greeting repeats none that is still queued.
   */
  lemma NumbersStayFresh(q: State, answers: StartAnswers, mark: int, events: seq<Event>, k: nat, m: Message)
    requires Starts(q, answers, mark)
    ensures
      var s := After(q, answers, mark, events);
      && (m in s.queue ==> Greeting(s, "").seqNo < m.seqNo <= s.counter)
      && s.mark <= s.counter && (k < |Links(s)| ==> AllUpto(Links(s)[k].wire, s.counter))
      && Greeting(s, "").seqNo <= s.counter
  {
    StartedInv(q, answers, mark);
    RunKeepsInv(Started(Start(q, answers), mark), events);
    var s := After(q, answers, mark, events);
    assert k < |Links(s)| ==> Links(s)[k] == if k < |s.draining| then s.draining[k] else s.link.value;
  }

  // ---------------------------------------------------------------------------------------------
  // Acknowledgements in the order of the frames
  // ---------------------------------------------------------------------------------------------

  /** `a` is the number of the next frame of the connection that the server has taken and not acknowledged yet. */
  predicate NextAck(s: Client, a: int) {
    && s.link.Some?
    && s.link.value.acked < s.link.value.received <= |s.link.value.wire|
    && a == s.link.value.wire[s.link.value.acked].seqNo
  }

  /** Each acknowledgement in the run is for the next frame of its connection. */
  predicate InOrder(s: Client, events: seq<Event>) {
    forall i: nat :: i < |events| && events[i].AckEvent? ==> NextAck(Run(s, events[..i]), events[i].upto)
  }

  /** The last acknowledged number is at most that of the last acknowledged frame, or of the greeting. */
  ghost predicate AckOrder(s: Client) {
    s.link.Some? ==>
      var link := s.link.value;
      && link.acked <= link.received <= |link.wire|
      && (link.wire != [] ==> s.lastAcked <= link.wire[if link.acked == 0 then 0 else link.acked - 1].seqNo)
  }

  lemma AckKeepsOrder(s: Client, a: int)
    requires ClientOk(s) && AckOrder(s) && NextAck(s, a)
    ensures AckOrder(HandleAck(s, a)) && a >= s.lastAcked
  {
    var link := s.link.value;
    if link.acked > 0 {
      assert link.wire[link.acked - 1].seqNo < link.wire[link.acked].seqNo;
    }
  }

  /** One more frame changes nothing for those that are acknowledged. */
  lemma WriteKeepsOrder(s: Client, r: Client, x: Message)
    requires AckOrder(s) && s.link.Some? && r.link.Some? && r.lastAcked == s.lastAcked
    requires s.link.value.wire == [] ==> s.lastAcked <= x.seqNo
    requires
      var link := s.link.value;
      r.link.value.wire == link.wire + [x] && r.link.value.acked == link.acked && r.link.value.received == link.received
    ensures AckOrder(r)
  {
    var link := s.link.value;
    assert link.wire != [] ==> (link.wire + [x])[..|link.wire|] == link.wire;
  }

  lemma SendKeepsOrder(s: Client, m: Message, durable: bool, persisted: bool, written: bool)
    requires ClientOk(s) && AckOrder(s) && m.seqNo == s.counter + 1
    ensures AckOrder(Send(s, m, durable, persisted, written).0)
  {
    SendShape(s, m, durable, persisted, written);
    var r := Send(s, m, durable, persisted, written).0;
    if r.link != s.link && r.link.value.wire != s.link.value.wire {
      WriteKeepsOrder(s, r, m);
    }
  }

  lemma OtherStepKeepsOrder(s: Client, e: Event)
    requires ClientOk(s) && AckOrder(s) && !e.SendEvent? && !e.AckEvent? && Enabled(s, e)
    ensures AckOrder(Step(s, e))
  {
    if e.HelloEvent? && e.written {
      WriteKeepsOrder(s, Step(s, e), Greeting(s, e.hello));
    } else if e.ReplayOneEvent? && e.written {
      WriteKeepsOrder(s, Step(s, e), s.link.value.phase.rest[0]);
    }
  }

  /** A client that handles acknowledgements in the order of the frames never gets one below an earlier one. */
  lemma StepKeepsAckOrder(s: Client, e: Event)
    requires ClientOk(s) && AckOrder(s)
    requires e.AckEvent? ==> NextAck(s, e.upto)
    ensures AckOrder(Step(s, e))
  {
    if !Enabled(s, e) {
    } else if e.SendEvent? {
      var durable := !IsVolatile(e.kind);
      SendStep(s, e, durable);
      SendKeepsOrder(s, Message(s.counter + 1, e.kind, e.payload), durable, e.persisted, e.written);
    } else if e.AckEvent? {
      AckKeepsOrder(s, e.upto);
    } else {
      OtherStepKeepsOrder(s, e);
    }
  }
}
