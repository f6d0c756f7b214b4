/**
 Nothing accepted is stuck: from every state of a process, connecting again, replaying and letting the
 server read leads to a state in which the server has processed every accepted message.
 */
module DeliveryProgress {
  import opened Options
  import L = OutboundLog
  import opened Delivery

  /** Steps that neither send anything new nor acknowledge anything, and whose writes succeed. */
  predicate IsProgress(e: Event) {
    match e
    case SendEvent(_, _, _, _) => false
    case AckEvent(_) => false
    case HelloEvent(_, written) => written
    case ReplayOneEvent(written) => written
    case _ => true
  }

  predicate AllProgress(events: seq<Event>) {
    forall i: nat :: i < |events| ==> IsProgress(events[i])
  }

  /** Nobody has sent, dropped or queued anything in between. */
  predicate KeepsMessages(s: Client, r: Client) {
    r.accepted == s.accepted && r.queue == s.queue && r.counter == s.counter
  }

  lemma RunFirst(s: Client, e: Event, rest: seq<Event>)
    ensures Run(s, [e] + rest) == Run(Step(s, e), rest)
  {
    RunConcat(s, [e], rest);
    assert [e][..0] == [] && Run(s, []) == s && Run(s, [e]) == Step(s, e);
  }

  lemma {:induction false} ReplayToEnd(s: Client) returns (events: seq<Event>)
    requires s.link.Some? && s.link.value.phase.Replaying?
    ensures AllProgress(events) && KeepsMessages(s, Run(s, events))
    ensures
      var r := Run(s, events);
      && r.link.Some? && r.link.value.phase == Ready(true)
      && r.link.value.wire == s.link.value.wire + s.link.value.phase.rest
      && r.link.value.received == s.link.value.received
    decreases |s.link.value.phase.rest|
  {
    var rest := s.link.value.phase.rest;
    if rest == [] {
      RunFirst(s, EndReplayEvent, []);
      events := [EndReplayEvent] + [];
      assert s.link.value.wire + rest == s.link.value.wire;
    } else {
      var more := ReplayToEnd(Step(s, ReplayOneEvent(true)));
      RunFirst(s, ReplayOneEvent(true), more);
      events := [ReplayOneEvent(true)] + more;
      assert s.link.value.wire + [rest[0]] + rest[1..] == s.link.value.wire + rest;
    }
  }

  /** The server reads the connection to its end. */
  lemma {:induction false} ReadToEnd(s: Client) returns (events: seq<Event>)
    requires s.link.Some? && s.link.value.received <= |s.link.value.wire|
    ensures AllProgress(events) && KeepsMessages(s, Run(s, events))
    ensures
      var r := Run(s, events);
      r.link.Some? && r.link.value == s.link.value.(received := |s.link.value.wire|)
    decreases |s.link.value.wire| - s.link.value.received
  {
    if s.link.value.received == |s.link.value.wire| {
      events := [];
    } else {
      var more := ReadToEnd(Step(s, ReceiveEvent));
      RunFirst(s, ReceiveEvent, more);
      events := [ReceiveEvent] + more;
    }
  }

  /** A connection that was just made greets the server and replays the queue in the order of its numbers. */
  lemma GreetAndReplay(s: Client) returns (events: seq<Event>)
    requires s.link == Some(Link([], 0, 0, Fresh))
    ensures AllProgress(events) && KeepsMessages(s, Run(s, events))
    ensures
      var r := Run(s, events);
      && r.link.Some? && r.link.value.phase == Ready(true) && r.link.value.received == 0
      && r.link.value.wire == [L.Message(L.Max(s.lastAcked, 1), "agent.hello", "")] + SortBySeq(s.queue)
  {
    var greeted := Step(s, HelloEvent("", true));
    var replaying := Step(greeted, BeginReplayEvent);
    var more := ReplayToEnd(replaying);
    RunFirst(greeted, BeginReplayEvent, more);
    RunFirst(s, HelloEvent("", true), [BeginReplayEvent] + more);
    events := [HelloEvent("", true)] + ([BeginReplayEvent] + more);
    assert [] + [Greeting(s, "")] == [Greeting(s, "")];
  }

  predicate IsQuiet(s: Client) {
    s.link.Some? && s.link.value.phase == Ready(true) && s.link.value.received == |s.link.value.wire|
  }

  lemma ReplayAndRead(s: Client) returns (events: seq<Event>)
    requires s.link == Some(Link([], 0, 0, Fresh))
    ensures AllProgress(events) && KeepsMessages(s, Run(s, events)) && IsQuiet(Run(s, events))
  {
    var replay := GreetAndReplay(s);
    var read := ReadToEnd(Run(s, replay));
    RunConcat(s, replay, read);
    events := replay + read;
  }

  lemma ConnectAndRead(s: Client) returns (events: seq<Event>)
    requires s.link.None?
    ensures AllProgress(events) && KeepsMessages(s, Run(s, events)) && IsQuiet(Run(s, events))
  {
    var more := ReplayAndRead(Step(s, ConnectEvent));
    RunFirst(s, ConnectEvent, more);
    events := [ConnectEvent] + more;
  }

  /** From any state a new connection can be brought up and read to its end. */
  lemma Reconnects(s: Client) returns (events: seq<Event>)
    ensures AllProgress(events) && KeepsMessages(s, Run(s, events)) && IsQuiet(Run(s, events))
  {
    if s.link.None? {
      events := ConnectAndRead(s);
    } else {
      var more := ConnectAndRead(Step(s, DisconnectEvent));
      RunFirst(s, DisconnectEvent, more);
      events := [DisconnectEvent] + more;
    }
  }

  /** In every state of a process all accepted messages can still be delivered, without sending any of them anew. */
  lemma EverythingGetsThrough(q: L.State, answers: L.StartAnswers, mark: int, before: seq<Event>)
    returns (events: seq<Event>)
    requires Starts(q, answers, mark)
    ensures AllProgress(events)
    ensures forall m :: m in After(q, answers, mark, before).accepted ==>
              m in After(q, answers, mark, before + events).processed
  {
    events := Reconnects(After(q, answers, mark, before));
    RunConcat(Started(L.Start(q, answers), mark), before, events);
    forall m | m in After(q, answers, mark, before).accepted
      ensures m in After(q, answers, mark, before + events).processed
    {
      QuietConnectionIsComplete(q, answers, mark, before + events, m);
    }
  }
}
