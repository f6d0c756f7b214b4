/**
 Terminal output on its way to one channel: a bounded ring that drops its oldest chunk when it is
 full, and the wake-up protocol between the producers that fill it and the one consumer that empties it.
 */
module TerminalOutput {
  // ---------------------------------------------------------------------------------------------
  // The ring
  // ---------------------------------------------------------------------------------------------

  datatype Ring = Ring(items: seq<string>, capacity: nat, dropped: nat)

  function EmptyRing(capacity: int): Ring {
    Ring([], if capacity < 1 then 1 else capacity, 0)
  }

  function PushChunk(r: Ring, chunk: string): Ring {
    if |r.items| == r.capacity && r.items != [] then r.(items := r.items[1..] + [chunk], dropped := r.dropped + 1)
    else r.(items := r.items + [chunk])
  }

  function DrainRing(r: Ring): Ring {
    r.(items := [], dropped := 0)
  }

  function PushAll(r: Ring, chunks: seq<string>): Ring {
    if chunks == [] then r else PushChunk(PushAll(r, chunks[..|chunks| - 1]), chunks[|chunks| - 1])
  }

  /** After a drain the ring holds the newest chunks, as many as it can, and has counted the others. */
  lemma {:induction false} RingHoldsNewest(capacity: nat, chunks: seq<string>)
    requires capacity >= 1
    ensures
      var r := PushAll(Ring([], capacity, 0), chunks);
      && r.capacity == capacity
      && r.dropped == (if |chunks| <= capacity then 0 else |chunks| - capacity)
      && r.items == chunks[r.dropped..]
  {
    if chunks != [] {
      var front := chunks[..|chunks| - 1];
      RingHoldsNewest(capacity, front);
      var before := PushAll(Ring([], capacity, 0), front);
      assert before.items == front[before.dropped..];
      assert before.items + [chunks[|chunks| - 1]] == chunks[before.dropped..];
    }
  }

  /** The ring of the source: a fixed buffer that is shifted in place when it is full. */
  class OutputRing {
    const buffer: array<string>
    var count: nat
    var dropped: nat

    ghost predicate Valid()
      reads this
    {
      buffer.Length >= 1 && count <= buffer.Length
    }

    ghost function Model(): Ring
      reads this, buffer
      requires Valid()
    {
      Ring(buffer[..count], buffer.Length, dropped)
    }

    constructor (capacity: int)
      ensures Valid() && fresh(buffer) && Model() == EmptyRing(capacity)
    {
      buffer := new string[if capacity < 1 then 1 else capacity](_ => "");
      count, dropped := 0, 0;
    }

    /** Moves every chunk one place down; the first one is gone. */
    method Shift()
      requires Valid() && count == buffer.Length
      modifies buffer
      ensures buffer[..count - 1] == old(buffer[..])[1..]
    {
      var i := 0;
      while i < count - 1
        invariant i <= count - 1
        invariant forall j: nat :: j < i ==> buffer[j] == old(buffer[j + 1])
        invariant forall j: nat :: i <= j < count ==> buffer[j] == old(buffer[j])
      {
        buffer[i] := buffer[i + 1];
        i := i + 1;
      }
    }

    /** Makes room for a chunk at the end and puts it there. */
    method ReplaceOldest(chunk: string)
      requires Valid() && count == buffer.Length
      modifies buffer
      ensures buffer[..count] == old(buffer[..count])[1..] + [chunk]
    {
      ghost var items := buffer[..count];
      assert items == buffer[..];
      Shift();
      buffer[count - 1] := chunk;
      assert buffer[..count] == buffer[..count - 1] + [chunk];
    }

    method Push(chunk: string)
      requires Valid()
      modifies this, buffer
      ensures Valid() && Model() == PushChunk(old(Model()), chunk)
    {
      if count == buffer.Length {
        ReplaceOldest(chunk);
        dropped := dropped + 1;
        return;
      }
      buffer[count] := chunk;
      count := count + 1;
      assert buffer[..count] == old(buffer[..count]) + [chunk];
    }

    method Drain() returns (items: seq<string>, lost: nat)
      requires Valid()
      modifies this
      ensures Valid() && Model() == DrainRing(old(Model()))
      ensures items == old(Model()).items && lost == old(dropped)
    {
      items := buffer[..count];
      lost := dropped;
      count := 0;
      dropped := 0;
      assert buffer[..0] == [];
    }
  }

  // ---------------------------------------------------------------------------------------------
  // The channel
  // ---------------------------------------------------------------------------------------------

  /** The consumer waits, has taken the wake-up, hands out what it drained, or has left. */
  datatype Consumer = Idle | Woken | Delivering(lost: nat, chunks: seq<string>) | Gone

  /**
   `signalling` producers have filled the ring and not yet sent their wake-up. The sequences and the
   last number are history: every chunk pushed, those pushed since the last drain, those handed out,
   and the drops that were reported.
   */
  datatype Channel = Channel(
    ring: Ring,
    wake: bool,
    closed: bool,
    signalling: nat,
    consumer: Consumer,
    pushed: seq<string>,
    sinceDrain: seq<string>,
    delivered: seq<string>,
    reported: nat)

  datatype Event =
    | PushEvent(chunk: string)
    | SignalEvent
    | TakeWakeEvent
    | DrainEvent
    | ReportEvent
    | DeliverEvent
    | CloseEvent
    | LeaveEvent

  function Open(capacity: int): Channel {
    Channel(EmptyRing(capacity), false, false, 0, Idle, [], [], [], 0)
  }

  /** A producer that found the channel open may still push after it has been closed. */
  predicate Enabled(c: Channel, e: Event) {
    match e
    case PushEvent(_) => true
    case SignalEvent => c.signalling > 0
    case TakeWakeEvent => c.consumer.Idle? && c.wake
    case DrainEvent => c.consumer.Woken?
    case ReportEvent => c.consumer.Delivering? && c.consumer.lost > 0
    case DeliverEvent => c.consumer.Delivering? && c.consumer.lost == 0
    case CloseEvent => true
    case LeaveEvent => c.consumer.Idle? && c.closed
  }

  function Step(c: Channel, e: Event): Channel {
    if !Enabled(c, e) then c
    else
      match e
      case PushEvent(chunk) =>
        c.(ring := PushChunk(c.ring, chunk), signalling := c.signalling + 1,
           pushed := c.pushed + [chunk], sinceDrain := c.sinceDrain + [chunk])
      case SignalEvent => c.(wake := true, signalling := c.signalling - 1)
      case TakeWakeEvent => c.(wake := false, consumer := Woken)
      case DrainEvent =>
        c.(ring := DrainRing(c.ring), sinceDrain := [], consumer := Delivering(c.ring.dropped, c.ring.items))
      case ReportEvent => c.(reported := c.reported + c.consumer.lost, consumer := c.consumer.(lost := 0))
      case DeliverEvent =>
        if c.consumer.chunks == [] then c.(consumer := Idle)
        else c.(delivered := c.delivered + [c.consumer.chunks[0]], consumer := Delivering(0, c.consumer.chunks[1..]))
      case CloseEvent => c.(closed := true)
      case LeaveEvent => c.(consumer := Gone)
  }

  function Run(c: Channel, events: seq<Event>): Channel {
    if events == [] then c else Step(Run(c, events[..|events| - 1]), events[|events| - 1])
  }

  /** What the consumer holds in its hands. */
  function InHand(c: Channel): seq<string> {
    if c.consumer.Delivering? then c.consumer.chunks else []
  }

  function LostInHand(c: Channel): nat {
    if c.consumer.Delivering? then c.consumer.lost else 0
  }

  // ---------------------------------------------------------------------------------------------
  // Subsequences
  // ---------------------------------------------------------------------------------------------

  /** `a` is what is left of `b` after some of its elements were taken out. */
  predicate IsSubsequence(a: seq<string>, b: seq<string>) {
    a == []
    || (b != [] && (|| (a[|a| - 1] == b[|b| - 1] && IsSubsequence(a[..|a| - 1], b[..|b| - 1]))
                    || IsSubsequence(a, b[..|b| - 1])))
  }

  lemma SubsequenceAppend(a: seq<string>, b: seq<string>, x: string)
    requires IsSubsequence(a, b)
    ensures IsSubsequence(a + [x], b + [x])
  {
    assert (a + [x])[..|a|] == a && (b + [x])[..|b|] == b;
  }

  lemma {:induction false} SubsequenceDropLast(a: seq<string>, b: seq<string>)
    requires a != [] && IsSubsequence(a, b)
    ensures IsSubsequence(a[..|a| - 1], b)
  {
    var front := a[..|a| - 1];
    if a[|a| - 1] == b[|b| - 1] && IsSubsequence(front, b[..|b| - 1]) {
      SubsequenceLonger(front, b);
    } else {
      SubsequenceDropLast(a, b[..|b| - 1]);
      SubsequenceLonger(front, b);
    }
  }

  lemma SubsequenceLonger(a: seq<string>, b: seq<string>)
    requires b != [] && IsSubsequence(a, b[..|b| - 1])
    ensures IsSubsequence(a, b)
  {
  }

  lemma DropBeforeLast(a: seq<string>, i: nat)
    requires i < |a| - 1
    ensures a[..|a| - 1][..i] + a[..|a| - 1][i + 1..] + [a[|a| - 1]] == a[..i] + a[i + 1..]
  {
  }

  lemma LastBehindRest(b: seq<string>, x: string)
    requires b != [] && b[|b| - 1] == x
    ensures b[..|b| - 1] + [x] == b
  {
  }

  lemma SubsequenceSameLast(a: seq<string>, b: seq<string>, x: string)
    requires b != [] && b[|b| - 1] == x && IsSubsequence(a, b[..|b| - 1])
    ensures IsSubsequence(a + [x], b)
  {
    LastBehindRest(b, x);
    SubsequenceAppend(a, b[..|b| - 1], x);
  }

  /** Taking out one more element leaves a subsequence. */
  lemma {:induction false} SubsequenceDrop(a: seq<string>, i: nat, b: seq<string>)
    requires i < |a| && IsSubsequence(a, b)
    ensures IsSubsequence(a[..i] + a[i + 1..], b)
    decreases |b|
  {
    var last := |a| - 1;
    if i == last {
      SubsequenceDropLast(a, b);
      assert a[..i] + a[i + 1..] == a[..last];
    } else if a[last] == b[|b| - 1] && IsSubsequence(a[..last], b[..|b| - 1]) {
      SubsequenceDrop(a[..last], i, b[..|b| - 1]);
      SubsequenceSameLast(a[..last][..i] + a[..last][i + 1..], b, a[last]);
      DropBeforeLast(a, i);
    } else {
      SubsequenceDrop(a, i, b[..|b| - 1]);
      SubsequenceLonger(a[..i] + a[i + 1..], b);
    }
  }

  lemma {:induction false} SubsequencePrefix(a: seq<string>, n: nat, b: seq<string>)
    requires n <= |a| && IsSubsequence(a, b)
    ensures IsSubsequence(a[..n], b)
    decreases |a| - n
  {
    if n < |a| {
      SubsequencePrefix(a, n + 1, b);
      SubsequenceDropLast(a[..n + 1], b);
      assert a[..n + 1][..n] == a[..n];
    } else {
      assert a[..n] == a;
    }
  }

  // ---------------------------------------------------------------------------------------------
  // What holds over every run
  // ---------------------------------------------------------------------------------------------

  /** Everything that has not been dropped, from the first chunk handed out to the last one buffered. */
  function Kept(c: Channel): seq<string> {
    c.delivered + InHand(c) + c.ring.items
  }

  ghost predicate RingOk(c: Channel) {
    c.ring.capacity >= 1 && c.ring == PushAll(Ring([], c.ring.capacity, 0), c.sinceDrain)
  }

  ghost predicate LedgerOk(c: Channel) {
    && IsSubsequence(Kept(c), c.pushed)
    && |c.pushed| == |Kept(c)| + c.reported + LostInHand(c) + c.ring.dropped
  }

  ghost predicate WakeOk(c: Channel) {
    && (c.ring.items != [] ==> c.wake || c.signalling > 0 || c.consumer.Woken? || c.consumer.Gone?)
    && (c.consumer.Gone? ==> c.closed)
  }

  ghost predicate Inv(c: Channel) {
    RingOk(c) && LedgerOk(c) && WakeOk(c)
  }

  lemma PushAllAppend(r: Ring, chunks: seq<string>, chunk: string)
    ensures PushAll(r, chunks + [chunk]) == PushChunk(PushAll(r, chunks), chunk)
  {
    assert (chunks + [chunk])[..|chunks|] == chunks;
  }

  /** The chunk that makes room was kept until now; the new one is. */
  lemma FullPushKeepsLedger(before: seq<string>, items: seq<string>, pushed: seq<string>, chunk: string)
    requires items != [] && IsSubsequence(before + items, pushed)
    ensures IsSubsequence(before + (items[1..] + [chunk]), pushed + [chunk])
  {
    var kept := before + items;
    SubsequenceDrop(kept, |before|, pushed);
    var less := kept[..|before|] + kept[|before| + 1..];
    assert less == before + items[1..];
    SubsequenceAppend(less, pushed, chunk);
    assert less + [chunk] == before + (items[1..] + [chunk]);
  }

  lemma PushKeepsLedger(c: Channel, chunk: string)
    requires LedgerOk(c)
    ensures LedgerOk(Step(c, PushEvent(chunk)))
  {
    var before := c.delivered + InHand(c);
    if |c.ring.items| == c.ring.capacity && c.ring.items != [] {
      FullPushKeepsLedger(before, c.ring.items, c.pushed, chunk);
    } else {
      SubsequenceAppend(Kept(c), c.pushed, chunk);
      assert before + (c.ring.items + [chunk]) == Kept(c) + [chunk];
    }
  }

  /** Only a push changes what is kept and what has been counted. */
  lemma OthersKeepAll(c: Channel, e: Event)
    requires !e.PushEvent?
    ensures
      var r := Step(c, e);
      && Kept(r) == Kept(c) && r.pushed == c.pushed
      && r.reported + LostInHand(r) + r.ring.dropped == c.reported + LostInHand(c) + c.ring.dropped
  {
  }

  lemma StepKeepsLedger(c: Channel, e: Event)
    requires LedgerOk(c)
    ensures LedgerOk(Step(c, e))
  {
    if e.PushEvent? {
      PushKeepsLedger(c, e.chunk);
    } else {
      OthersKeepAll(c, e);
    }
  }

  lemma StepKeepsRing(c: Channel, e: Event)
    requires RingOk(c)
    ensures RingOk(Step(c, e))
  {
    if e.PushEvent? {
      PushAllAppend(Ring([], c.ring.capacity, 0), c.sinceDrain, e.chunk);
    }
  }

  lemma StepKeepsWake(c: Channel, e: Event)
    requires WakeOk(c)
    ensures WakeOk(Step(c, e))
  {
  }

  lemma StepKeepsInv(c: Channel, e: Event)
    requires Inv(c)
    ensures Inv(Step(c, e))
  {
    StepKeepsRing(c, e);
    StepKeepsLedger(c, e);
    StepKeepsWake(c, e);
  }

  lemma {:induction false} RunKeepsInv(capacity: int, events: seq<Event>)
    ensures Inv(Run(Open(capacity), events))
  {
    if events != [] {
      RunKeepsInv(capacity, events[..|events| - 1]);
      StepKeepsInv(Run(Open(capacity), events[..|events| - 1]), events[|events| - 1]);
    }
  }

  /** Every chunk is accounted for, and those handed out are in the order they came. */
  lemma NothingUnaccounted(capacity: int, events: seq<Event>)
    ensures
      var c := Run(Open(capacity), events);
      && |c.pushed| == |c.delivered| + |InHand(c)| + |c.ring.items| + c.reported + LostInHand(c) + c.ring.dropped
      && IsSubsequence(c.delivered, c.pushed)
      && IsSubsequence(Kept(c), c.pushed)
  {
    RunKeepsInv(capacity, events);
    var c := Run(Open(capacity), events);
    SubsequencePrefix(Kept(c), |c.delivered|, c.pushed);
    assert Kept(c)[..|c.delivered|] == c.delivered;
  }

  lemma {:induction false} RunKeepsCapacity(capacity: int, events: seq<Event>)
    ensures Run(Open(capacity), events).ring.capacity == if capacity < 1 then 1 else capacity
  {
    if events != [] {
      RunKeepsCapacity(capacity, events[..|events| - 1]);
    }
  }

  /** The ring holds the newest chunks since the last drain. */
  lemma BufferHoldsNewest(capacity: int, events: seq<Event>)
    ensures
      var c := Run(Open(capacity), events);
      && c.ring.dropped <= |c.sinceDrain| && c.ring.items == c.sinceDrain[c.ring.dropped..]
      && (c.ring.dropped > 0 ==> |c.ring.items| == c.ring.capacity)
      && |c.ring.items| <= c.ring.capacity == if capacity < 1 then 1 else capacity
  {
    RunKeepsInv(capacity, events);
    RunKeepsCapacity(capacity, events);
    var c := Run(Open(capacity), events);
    RingHoldsNewest(c.ring.capacity, c.sinceDrain);
  }

  /** On an open channel, buffered output never waits without somebody on the way to fetch it. */
  lemma BufferedOutputIsAnnounced(capacity: int, events: seq<Event>)
    requires Run(Open(capacity), events).ring.items != [] && !Run(Open(capacity), events).closed
    requires Run(Open(capacity), events).signalling == 0 && !Run(Open(capacity), events).consumer.Woken?
    ensures Run(Open(capacity), events).wake
  {
    RunKeepsInv(capacity, events);
  }

  /** A chunk that is pushed is the newest in the ring, and its producer has a wake-up to send. */
  lemma PushIsBuffered(c: Channel, chunk: string)
    requires Inv(c)
    ensures
      var r := Step(c, PushEvent(chunk));
      && r.ring.items != [] && r.ring.items[|r.ring.items| - 1] == chunk && r.pushed == c.pushed + [chunk]
      && Enabled(r, SignalEvent) && Step(r, SignalEvent).wake
  {
  }

  // ---------------------------------------------------------------------------------------------
  // Output gets through
  // ---------------------------------------------------------------------------------------------

  lemma {:induction false} RunConcat(c: Channel, before: seq<Event>, after: seq<Event>)
    ensures Run(c, before + after) == Run(Run(c, before), after)
  {
    if after == [] {
      assert before + after == before;
    } else {
      RunConcat(c, before, after[..|after| - 1]);
      assert (before + after)[..|before + after| - 1] == before + after[..|after| - 1];
    }
  }

  lemma RunOne(c: Channel, e: Event, after: seq<Event>)
    ensures Run(c, [e] + after) == Run(Step(c, e), after)
  {
    RunConcat(c, [e], after);
    assert [e][..0] == [] && Run(c, []) == c;
  }

  /** What the producers and the consumer do of their own accord. */
  predicate IsProgress(e: Event) {
    e.SignalEvent? || e.TakeWakeEvent? || e.DrainEvent? || e.ReportEvent? || e.DeliverEvent?
  }

  ghost predicate AllProgress(events: seq<Event>) {
    forall i: nat :: i < |events| ==> IsProgress(events[i])
  }

  /** The consumer hands out what it holds. */
  lemma {:induction false} HandOut(c: Channel) returns (events: seq<Event>)
    requires c.consumer.Delivering?
    ensures AllProgress(events)
    ensures
      Run(c, events) ==
      c.(consumer := Idle, delivered := c.delivered + c.consumer.chunks, reported := c.reported + c.consumer.lost)
    decreases c.consumer.lost, |c.consumer.chunks|
  {
    var e := if c.consumer.lost > 0 then ReportEvent else DeliverEvent;
    var r := Step(c, e);
    if r.consumer.Idle? {
      assert c.delivered + c.consumer.chunks == c.delivered;
      RunOne(c, e, []);
      events := [e] + [];
      assert Run(r, []) == r;
    } else {
      var rest := HandOut(r);
      RunOne(c, e, rest);
      events := [e] + rest;
      if e.DeliverEvent? {
        assert c.delivered + [c.consumer.chunks[0]] + c.consumer.chunks[1..] == c.delivered + c.consumer.chunks;
      }
    }
  }

  /** The consumer that was woken empties the ring and hands out what was in it. */
  lemma Fetch(c: Channel) returns (events: seq<Event>)
    requires c.consumer.Woken?
    ensures AllProgress(events)
    ensures
      Run(c, events) ==
      c.(ring := DrainRing(c.ring), sinceDrain := [], consumer := Idle, delivered := c.delivered + c.ring.items,
         reported := c.reported + c.ring.dropped)
  {
    var rest := HandOut(Step(c, DrainEvent));
    RunOne(c, DrainEvent, rest);
    events := [DrainEvent] + rest;
  }

  /** Wakes an idle consumer. */
  lemma Wake(c: Channel) returns (events: seq<Event>)
    requires c.consumer.Idle? && (c.wake || c.signalling > 0)
    ensures AllProgress(events)
    ensures
      var r := Run(c, events);
      r == c.(consumer := Woken, wake := false, signalling := if c.wake then c.signalling else c.signalling - 1)
  {
    if c.wake {
      RunOne(c, TakeWakeEvent, []);
      events := [TakeWakeEvent] + [];
    } else {
      RunOne(Step(c, SignalEvent), TakeWakeEvent, []);
      RunOne(c, SignalEvent, [TakeWakeEvent] + []);
      events := [SignalEvent] + ([TakeWakeEvent] + []);
    }
  }

  /** Somebody is on the way to the ring, or it is empty and has nothing to report. */
  predicate IsServed(c: Channel) {
    c.wake || c.signalling > 0 || (c.ring.items == [] && c.ring.dropped == 0)
  }

  lemma RingIsServed(c: Channel)
    requires Inv(c) && (c.consumer.Idle? || c.consumer.Delivering?)
    ensures IsServed(c)
  {
    RingHoldsNewest(c.ring.capacity, c.sinceDrain);
  }

  /** Everything buffered has been handed out in order, and every drop has been reported. */
  predicate IsFlushed(c: Channel, r: Channel) {
    && r.ring.items == [] && r.ring.dropped == 0
    && r.delivered == c.delivered + InHand(c) + c.ring.items
    && r.reported == c.reported + LostInHand(c) + c.ring.dropped
    && r.pushed == c.pushed && r.closed == c.closed && r.consumer.Idle?
  }

  lemma FlushIdle(c: Channel) returns (events: seq<Event>)
    requires IsServed(c) && c.consumer.Idle?
    ensures AllProgress(events) && IsFlushed(c, Run(c, events))
  {
    if c.wake || c.signalling > 0 {
      var waking := Wake(c);
      var fetching := Fetch(Run(c, waking));
      RunConcat(c, waking, fetching);
      events := waking + fetching;
    } else {
      events := [];
    }
  }

  lemma FlushDelivering(c: Channel) returns (events: seq<Event>)
    requires IsServed(c) && c.consumer.Delivering?
    ensures AllProgress(events) && IsFlushed(c, Run(c, events))
  {
    var first := HandOut(c);
    var rest := FlushIdle(Run(c, first));
    RunConcat(c, first, rest);
    events := first + rest;
  }

  /**
   Until the consumer has left, whatever is buffered or in its hands can be handed out without any further
   push: the steps that producers and consumer take by themselves lead there.
   */
  lemma OutputGetsThrough(capacity: int, before: seq<Event>) returns (events: seq<Event>)
    requires !Run(Open(capacity), before).consumer.Gone?
    ensures AllProgress(events)
    ensures IsFlushed(Run(Open(capacity), before), Run(Run(Open(capacity), before), events))
  {
    var c := Run(Open(capacity), before);
    RunKeepsInv(capacity, before);
    if c.consumer.Woken? {
      events := Fetch(c);
    } else {
      RingIsServed(c);
      if c.consumer.Idle? {
        events := FlushIdle(c);
      } else {
        events := FlushDelivering(c);
      }
    }
  }

  /** A channel is closed exactly if it was told to, and only then does its consumer leave. */
  lemma {:induction false} ClosedByClose(capacity: int, events: seq<Event>)
    ensures
      var c := Run(Open(capacity), events);
      && (c.closed <==> exists i: nat :: i < |events| && events[i].CloseEvent?)
      && (c.consumer.Gone? ==> c.closed)
      && (Enabled(c, ReportEvent) ==> Step(c, ReportEvent).reported > c.reported)
  {
    RunKeepsInv(capacity, events);
    if events != [] {
      var n := |events| - 1;
      ClosedByClose(capacity, events[..n]);
      if i: nat :| i < |events[..n]| && events[..n][i].CloseEvent? {
        assert events[i].CloseEvent?;
      }
      if i: nat :| i < |events| && events[i].CloseEvent? {
        assert i == n || events[..n][i].CloseEvent?;
      }
    }
  }

  lemma LeaveWhenIdle(c: Channel, first: seq<Event>)
    requires c.closed && Run(c, first).closed && Run(c, first).consumer.Idle?
    ensures Run(c, first + [LeaveEvent]).consumer.Gone?
  {
    assert (first + [LeaveEvent])[..|first|] == first;
  }

  /** Once the channel is closed its consumer can finish what it holds and leave. */
  lemma ConsumerLeaves(c: Channel) returns (events: seq<Event>)
    ensures Run(Step(c, CloseEvent), events).consumer.Gone?
  {
    var r := Step(c, CloseEvent);
    var first: seq<Event> := [];
    if r.consumer.Gone? {
      return [];
    }
    if r.consumer.Woken? {
      first := Fetch(r);
    } else if r.consumer.Delivering? {
      first := HandOut(r);
    }
    LeaveWhenIdle(r, first);
    events := first + [LeaveEvent];
  }
}
