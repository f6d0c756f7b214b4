/**
 What goes wrong when a process starts below a number that the server has seen: the next durable
 message repeats a number, the server skips it and acknowledges it, and it is gone.
 */
module StaleNumbers {
  import opened Options
  import opened OutboundLog
  import D = Delivery

  // ---------------------------------------------------------------------------------------------
  // What the server skips it never handles
  // ---------------------------------------------------------------------------------------------

  /** The server has passed the number of `m` without handling it. */
  predicate Passed(s: D.Client, m: Message) {
    m.seqNo <= s.mark && m !in s.processed && m.kind != D.GREETING
  }

  lemma StepKeepsPassed(s: D.Client, e: D.Event, m: Message)
    requires Passed(s, m)
    ensures Passed(D.Step(s, e), m)
  {
    if D.Enabled(s, e) && e.SendEvent? {
      var durable := !D.IsVolatile(e.kind);
      D.SendStep(s, e, durable);
    }
  }

  /** Once the server has passed a number, a message with that number never gets through. */
  lemma {:induction false} PassedStaysPassed(s: D.Client, events: seq<D.Event>, m: Message)
    requires Passed(s, m)
    ensures Passed(D.Run(s, events), m)
  {
    if events != [] {
      PassedStaysPassed(s, events[..|events| - 1], m);
      StepKeepsPassed(D.Run(s, events[..|events| - 1]), events[|events| - 1], m);
    }
  }

  // ---------------------------------------------------------------------------------------------
  // Composing runs
  // ---------------------------------------------------------------------------------------------

  /** Neither sends nor acknowledgements. */
  predicate Quiet(events: seq<D.Event>) {
    forall i: nat :: i < |events| ==> !events[i].SendEvent? && !events[i].AckEvent?
  }

  /** Every send is written to the log. */
  predicate Persisting(events: seq<D.Event>) {
    forall i: nat :: i < |events| ==> events[i].SendEvent? ==> events[i].persisted
  }

  predicate NoSends(events: seq<D.Event>) {
    forall i: nat :: i < |events| ==> !events[i].SendEvent?
  }

  lemma RunOne(s: D.Client, e: D.Event)
    ensures D.Run(s, [e]) == D.Step(s, e)
    ensures D.InOrder(s, [e]) <==> (e.AckEvent? ==> D.NextAck(s, e.upto))
  {
    assert [e][..0] == [];
    assert D.Run(s, []) == s;
  }

  lemma RunConcatAt(s: D.Client, before: seq<D.Event>, after: seq<D.Event>, i: nat)
    requires i < |after|
    ensures D.Run(s, (before + after)[..|before| + i]) == D.Run(D.Run(s, before), after[..i])
    ensures (before + after)[|before| + i] == after[i]
  {
    assert (before + after)[..|before| + i] == before + after[..i];
    D.RunConcat(s, before, after[..i]);
  }

  lemma InOrderConcat(s: D.Client, before: seq<D.Event>, after: seq<D.Event>)
    requires D.InOrder(s, before) && D.InOrder(D.Run(s, before), after)
    ensures D.InOrder(s, before + after)
  {
    var events := before + after;
    forall i: nat | i < |before| ensures events[..i] == before[..i] {
    }
    forall i: nat {:trigger after[i]} | i < |after|
      ensures D.Run(s, events[..|before| + i]) == D.Run(D.Run(s, before), after[..i])
      ensures events[|before| + i] == after[i]
    {
      RunConcatAt(s, before, after, i);
    }
    forall i: nat | i < |events| && events[i].AckEvent?
      ensures D.NextAck(D.Run(s, events[..i]), events[i].upto)
    {
      if i >= |before| {
        assert after[i - |before|] == events[i];
      }
    }
  }

  lemma {:induction false} QuietKeepsQueue(s: D.Client, events: seq<D.Event>)
    requires Quiet(events)
    ensures
      var r := D.Run(s, events);
      && r.queue == s.queue && r.counter == s.counter && r.lastAcked == s.lastAcked
      && r.accepted == s.accepted && s.mark <= r.mark
  {
    if events != [] {
      QuietKeepsQueue(s, events[..|events| - 1]);
      D.WireStepKeepsQueue(D.Run(s, events[..|events| - 1]), events[|events| - 1]);
    }
  }

  // ---------------------------------------------------------------------------------------------
  // The run that loses a message
  // ---------------------------------------------------------------------------------------------

  /** The replay writes whatever is left of it. */
  lemma {:induction false} ReplayGoesOut(s: D.Client) returns (events: seq<D.Event>)
    requires s.link.Some? && s.link.value.phase.Replaying?
    ensures Quiet(events)
    ensures
      var link := s.link.value;
      D.Run(s, events) == s.(link := Some(link.(wire := link.wire + link.phase.rest, phase := D.Replaying([]))))
    decreases |s.link.value.phase.rest|
  {
    var link := s.link.value;
    var rest := link.phase.rest;
    if rest == [] {
      events := [];
      assert link.wire + rest == link.wire;
    } else {
      var e := D.ReplayOneEvent(true);
      RunOne(s, e);
      var more := ReplayGoesOut(D.Step(s, e));
      D.RunConcat(s, [e], more);
      events := [e] + more;
      assert (link.wire + [rest[0]]) + rest[1..] == link.wire + rest;
    }
  }

  /** The server takes every frame of the connection. */
  lemma {:induction false} FramesArrive(s: D.Client) returns (events: seq<D.Event>)
    requires s.link.Some? && s.link.value.received <= |s.link.value.wire|
    ensures Quiet(events)
    ensures D.Run(s, events).link == Some(s.link.value.(received := |s.link.value.wire|))
    decreases |s.link.value.wire| - s.link.value.received
  {
    if s.link.value.received == |s.link.value.wire| {
      events := [];
    } else {
      RunOne(s, D.ReceiveEvent);
      var more := FramesArrive(D.Step(s, D.ReceiveEvent));
      D.RunConcat(s, [D.ReceiveEvent], more);
      events := [D.ReceiveEvent] + more;
    }
  }

  /** The client handles an acknowledgement of every frame, the last of which is `m`. */
  lemma {:induction false} AcksArrive(s: D.Client, m: Message) returns (events: seq<D.Event>)
    requires D.ClientOk(s) && s.link.Some? && m.seqNo > 0
    requires
      var link := s.link.value;
      && link.acked <= link.received == |link.wire| && link.wire != [] && link.wire[|link.wire| - 1] == m
      && (link.acked == |link.wire| ==> m !in s.queue)
    ensures D.InOrder(s, events) && NoSends(events)
    ensures
      var r := D.Run(s, events);
      m !in r.queue && r.accepted == s.accepted
    decreases |s.link.value.wire| - s.link.value.acked
  {
    var link := s.link.value;
    if link.acked == |link.wire| {
      events := [];
    } else {
      var e := D.Event.AckEvent(link.wire[link.acked].seqNo);
      D.StepKeepsClient(s, e);
      AboveIsAbove(s.queue, e.upto);
      RunOne(s, e);
      var more := AcksArrive(D.Step(s, e), m);
      D.RunConcat(s, [e], more);
      InOrderConcat(s, [e], more);
      events := [e] + more;
    }
  }

  /** A payload longer than all those in a set. */
  lemma {:induction false} UnseenPayload(seen: set<Message>) returns (payload: string)
    ensures forall m :: m in seen ==> |m.payload| < |payload|
  {
    if seen == {} {
      payload := "";
    } else {
      var m :| m in seen;
      var shorter := UnseenPayload(seen - {m});
      payload := shorter + m.payload + " ";
    }
  }

  /** The client has sent `m` under a number that the server has seen, and is about to replay it. */
  ghost predicate Doomed(s: D.Client, m: Message) {
    && D.ClientOk(s) && m.seqNo > 0 && Passed(s, m) && m in s.accepted
    && s.link.Some? && s.link.value.received == s.link.value.acked == 0
    && s.link.value.phase.Replaying?
    && s.link.value.phase.rest != [] && s.link.value.phase.rest[|s.link.value.phase.rest| - 1] == m
  }

  /** From then on it is only a matter of time. */
  lemma DoomedIsLost(s: D.Client, m: Message) returns (events: seq<D.Event>)
    requires Doomed(s, m)
    ensures D.InOrder(s, events) && NoSends(events)
    ensures
      var r := D.Run(s, events);
      m in r.accepted && m !in r.processed && m !in r.queue
  {
    var out := ReplayGoesOut(s);
    var s1 := D.Run(s, out);
    QuietKeepsQueue(s, out);
    D.RunKeepsClient(s, out);
    var arrived := FramesArrive(s1);
    var s2 := D.Run(s1, arrived);
    QuietKeepsQueue(s1, arrived);
    D.RunKeepsClient(s1, arrived);
    var acks := AcksArrive(s2, m);
    D.RunConcat(s, out, arrived);
    InOrderConcat(s, out, arrived);
    D.RunConcat(s, out + arrived, acks);
    InOrderConcat(s, out + arrived, acks);
    events := out + arrived + acks;
    PassedStaysPassed(s, events, m);
  }

  /** The client connects and begins to replay. */
  function Reconnecting(): seq<D.Event> {
    [D.ConnectEvent, D.HelloEvent("", true), D.BeginReplayEvent]
  }

  lemma ReconnectingSteps(s: D.Client)
    requires D.QueueOk(s) && s.link.None?
    ensures D.Run(s, Reconnecting()) ==
            s.(link := Some(D.Link([D.Greeting(s, "")], 0, 0, D.Replaying(s.queue))))
  {
    var e := Reconnecting();
    RunOne(s, e[0]);
    D.RunOneMore(s, [e[0]], e[1]);
    D.RunOneMore(s, [e[0], e[1]], e[2]);
    assert [e[0]] + [e[1]] == [e[0], e[1]] && [e[0], e[1]] + [e[2]] == e;
    assert [] + [D.Greeting(s, "")] == [D.Greeting(s, "")];
    D.SortedStays(s.queue);
  }

  lemma ReconnectingDooms(s: D.Client, m: Message)
    requires D.ClientOk(s) && s.link.None? && Passed(s, m) && m in s.accepted
    requires s.queue != [] && s.queue[|s.queue| - 1] == m
    ensures Doomed(D.Run(s, Reconnecting()), m)
  {
    ReconnectingSteps(s);
    D.RunKeepsClient(s, Reconnecting());
  }

  /** Giving up the connection leaves the client without one. */
  lemma HangUp(s: D.Client) returns (events: seq<D.Event>)
    requires D.ClientOk(s)
    ensures Quiet(events)
    ensures
      var r := D.Run(s, events);
      && r.link.None? && r.processed == s.processed && r.mark == s.mark
      && |s.draining| <= |r.draining| && r.draining[..|s.draining|] == s.draining
  {
    if s.link.Some? {
      RunOne(s, D.DisconnectEvent);
      events := [D.DisconnectEvent];
    } else {
      events := [];
    }
  }

  /** Frames of an old connection that are not `m` do not get `m` handled. */
  lemma {:induction false} OtherFramesArrive(s: D.Client, k: nat, m: Message) returns (events: seq<D.Event>)
    requires D.ClientOk(s) && s.link.None? && k < |s.draining| && m !in s.draining[k].wire && m !in s.processed
    ensures Quiet(events) && D.Run(s, events).link.None?
    ensures m !in D.Run(s, events).processed && AllUpto(s.draining[k].wire, D.Run(s, events).mark)
    decreases |s.draining[k].wire| - s.draining[k].received
  {
    assert D.WireOk(s, s.draining[k]);
    if s.draining[k].received == |s.draining[k].wire| {
      events := [];
    } else {
      var e := D.LateReceiveEvent(k);
      D.StepKeepsClient(s, e);
      RunOne(s, e);
      var rest := OtherFramesArrive(D.Step(s, e), k, m);
      D.RunConcat(s, [e], rest);
      events := [e] + rest;
    }
  }

  /** `m` has been neither handled nor written on an earlier connection. */
  predicate Unseen(s: D.Client, m: Message) {
    m !in s.processed && forall k: nat {:trigger s.draining[k]} :: k < |s.draining| ==> m !in s.draining[k].wire
  }

  /** A number that is in use comes to be passed without `m` being handled. */
  lemma NumberPasses(s: D.Client, n: nat, m: Message) returns (events: seq<D.Event>)
    requires D.ClientOk(s) && s.link.None? && n <= |s.draining| && m !in s.processed && m.kind != D.GREETING
    requires forall k: nat {:trigger s.draining[k]} :: k < n ==> m !in s.draining[k].wire
    requires m.seqNo > s.mark ==> exists k: nat :: k < n && !AllUpto(s.draining[k].wire, m.seqNo - 1)
    ensures Quiet(events) && D.Run(s, events).link.None? && Passed(D.Run(s, events), m)
  {
    if m.seqNo <= s.mark {
      events := [];
    } else {
      var k: nat :| k < n && !AllUpto(s.draining[k].wire, m.seqNo - 1);
      var i: nat :| i < |s.draining[k].wire| && s.draining[k].wire[i].seqNo > m.seqNo - 1;
      events := OtherFramesArrive(s, k, m);
      assert s.draining[k].wire[i].seqNo <= D.Run(s, events).mark;
    }
  }

  /**
   A message that was just accepted under a number that is in use, by a frame the server has seen or by one on
   its way on an earlier connection, can be lost although every write succeeds and acknowledgements come in the
   order of the frames.
   */
  lemma SentBelowIsLost(s: D.Client, earlier: nat, m: Message) returns (events: seq<D.Event>)
    requires D.ClientOk(s) && m in s.accepted && m !in s.processed && m.kind != D.GREETING
    requires s.queue != [] && s.queue[|s.queue| - 1] == m
    requires earlier <= |s.draining|
    requires forall k: nat {:trigger s.draining[k]} :: k < earlier ==> m !in s.draining[k].wire
    requires m.seqNo > s.mark ==> exists k: nat :: k < earlier && !AllUpto(s.draining[k].wire, m.seqNo - 1)
    ensures D.InOrder(s, events) && NoSends(events)
    ensures
      var r := D.Run(s, events);
      m in r.accepted && m !in r.processed && m !in r.queue
  {
    var alone := HangUp(s);
    var s1 := D.Run(s, alone);
    QuietKeepsQueue(s, alone);
    D.RunKeepsClient(s, alone);
    forall k: nat | k < earlier ensures s1.draining[k] == s.draining[k] {
      assert s1.draining[..|s.draining|][k] == s.draining[k];
    }
    var late := NumberPasses(s1, earlier, m);
    var s2 := D.Run(s1, late);
    QuietKeepsQueue(s1, late);
    D.RunKeepsClient(s1, late);
    ReconnectingDooms(s2, m);
    var rest := DoomedIsLost(D.Run(s2, Reconnecting()), m);
    D.RunConcat(s2, Reconnecting(), rest);
    InOrderConcat(s2, Reconnecting(), rest);
    D.RunConcat(s1, late, Reconnecting() + rest);
    InOrderConcat(s1, late, Reconnecting() + rest);
    D.RunConcat(s, alone, late + (Reconnecting() + rest));
    InOrderConcat(s, alone, late + (Reconnecting() + rest));
    events := alone + (late + (Reconnecting() + rest));
  }

  const KIND := "commands.result"

  lemma SendOffline(s: D.Client, payload: string)
    requires s.link.None?
    ensures D.Step(s, D.SendEvent(KIND, payload, true, true))
         == D.Enqueue(D.Count(s), Message(s.counter + 1, KIND, payload), true)
  {
    var e := D.SendEvent(KIND, payload, true, true);
    KindIsDurable();
    D.SendStep(s, e, true);
  }

  lemma KindIsDurable()
    ensures !D.IsVolatile(KIND) && KIND != D.GREETING
  {
    assert |KIND| == 15;
    assert KIND[0] == 'c' && KIND[2] == 'm';
  }

  function Frames(s: D.Client): set<Message> {
    set k: nat, m | k < |s.draining| && m in s.draining[k].wire :: m
  }

  lemma FramesHold(s: D.Client, k: nat, m: Message)
    requires k < |s.draining|
    ensures m in s.draining[k].wire ==> m in Frames(s)
  {
  }

  /**
   A process that starts below a number that the server has seen, or is about to see, can lose an
   accepted message although every write succeeds and acknowledgements come in the order of the frames.
   */
  lemma StaleStartLoses(s: D.Client) returns (events: seq<D.Event>, m: Message)
    requires D.ClientOk(s) && s.link.None? && !D.UsedUpto(s, s.counter)
    ensures D.InOrder(s, events) && Persisting(events)
    ensures
      var r := D.Run(s, events);
      m in r.accepted && m !in r.processed && m !in r.queue
  {
    var payload := UnseenPayload(s.processed + Frames(s));
    m := Message(s.counter + 1, KIND, payload);
    var e := D.SendEvent(KIND, payload, true, true);
    var r := D.Step(s, e);
    KindIsDurable();
    SendOffline(s, payload);
    D.StepKeepsClient(s, e);
    RunOne(s, e);
    forall k: nat {:trigger s.draining[k]} | k < |s.draining| ensures m !in s.draining[k].wire {
      FramesHold(s, k, m);
    }
    var rest := SentBelowIsLost(r, |r.draining|, m);
    D.RunConcat(s, [e], rest);
    InOrderConcat(s, [e], rest);
    events := [e] + rest;
  }
}
