/**
 When a new process of Durability.dfy is safe to start, the run in which one is not, and why the saved
 acknowledgement never falls as long as acknowledgements come in the order of the frames.
 */
module Restarts {
  import opened Options
  import L = OutboundLog
  import opened Durability
  import D = Delivery
  import N = StaleNumbers

  // ---------------------------------------------------------------------------------------------
  // Safe starts
  // ---------------------------------------------------------------------------------------------

  /** The same step with a disk on which every write succeeds. */
  function Lift(e: D.Event): Event {
    match e
    case SendEvent(kind, payload, _, written) => SendEvent(kind, payload, true, L.Rewritten(true), written)
    case AckEvent(a) => Event.AckEvent(a, true, true, L.Rewritten(true), true)
    case _ => WireEvent(e)
  }

  function LiftAll(events: seq<D.Event>): seq<Event> {
    if events == [] then [] else LiftAll(events[..|events| - 1]) + [Lift(events[|events| - 1])]
  }

  lemma LiftedSend(w: World, e: D.Event)
    requires DiskInv(w) && w.disk.running && e.SendEvent? && e.persisted && D.Enabled(w.client, e)
    ensures Send(w, Lift(e)).client == D.Step(w.client, e) && Send(w, Lift(e)).disk.running
  {
    var durable := !D.IsVolatile(e.kind);
    D.SendStep(w.client, e, durable);
  }

  lemma LiftedStep(w: World, e: D.Event)
    requires DiskInv(w) && w.disk.running && (e.SendEvent? ==> e.persisted)
    ensures Step(w, Lift(e)).client == D.Step(w.client, e) && Step(w, Lift(e)).disk.running
  {
    if e.SendEvent? && D.Enabled(w.client, e) {
      LiftedSend(w, e);
    }
  }

  lemma RunOneMore(w: World, events: seq<Event>, e: Event)
    ensures Run(w, events + [e]) == Step(Run(w, events), e)
  {
    assert (events + [e])[..|events|] == events;
  }

  lemma {:induction false} WithoutRestartsIsFresh(w: World, events: seq<Event>)
    requires forall i: nat :: i < |events| ==> !events[i].RestartEvent?
    ensures FreshRun(w, events)
  {
    if events != [] {
      WithoutRestartsIsFresh(w, events[..|events| - 1]);
    }
  }

  lemma {:induction false} LiftedIsFresh(w: World, events: seq<D.Event>)
    ensures FreshRun(w, LiftAll(events))
  {
    LiftsNoRestarts(events);
    WithoutRestartsIsFresh(w, LiftAll(events));
  }

  lemma {:induction false} LiftsNoRestarts(events: seq<D.Event>)
    ensures forall i: nat :: i < |LiftAll(events)| ==> !LiftAll(events)[i].RestartEvent?
  {
    if events != [] {
      LiftsNoRestarts(events[..|events| - 1]);
    }
  }

  /** A run of the client is one of client and disk together. */
  lemma {:induction false} LiftedRun(w: World, events: seq<D.Event>)
    requires DiskInv(w) && w.disk.running && N.Persisting(events)
    ensures Run(w, LiftAll(events)).client == D.Run(w.client, events) && Run(w, LiftAll(events)).disk.running
  {
    if events != [] {
      var before, e := events[..|events| - 1], events[|events| - 1];
      LiftedRun(w, before);
      RunKeepsDisk(w, LiftAll(before));
      LiftedStep(Run(w, LiftAll(before)), e);
      RunOneMore(w, LiftAll(before), Lift(e));
    }
  }

  /** Whatever happens from now on, nothing accepted is lost, provided that later starts are fresh. */
  ghost predicate StaysSafe(w: World) {
    forall events {:trigger Run(w, events)} :: FreshRun(w, events) ==> AllSurvive(Run(w, events))
  }

  /** A process that is started below a number in use can lose a message. */
  lemma StaleRestartLoses(w: World, answers: L.StartAnswers) returns (events: seq<Event>, m: L.Message)
    requires DiskInv(w) && !w.disk.running && L.Start(w.disk, answers).running && !StartsFresh(w)
    ensures FreshRun(Restart(w, answers), events)
    ensures
      var r := Run(Restart(w, answers), events);
      m in r.client.accepted && !Survives(r, m)
  {
    var started := Restart(w, answers);
    RestartKeepsDisk(w, answers);
    L.StartedMessages(w.disk, answers);
    assert !D.UsedUpto(started.client, started.client.counter);
    var steps;
    steps, m := N.StaleStartLoses(started.client);
    LiftedRun(started, steps);
    LiftedIsFresh(started, steps);
    events := LiftAll(steps);
  }

  /**
   A new process is safe exactly when the greatest number on disk is at least every number that the
   server has seen or may still see.
   */
  lemma RestartIsSafeIff(disk: L.State, answers: L.StartAnswers, mark: int, before: seq<Event>, again: L.StartAnswers)
    requires D.Starts(disk, answers, mark) && FreshRun(FirstLife(disk, answers, mark), before)
    requires
      var w := Run(FirstLife(disk, answers, mark), before);
      !w.disk.running && L.Start(w.disk, again).running
    ensures
      var w := Run(FirstLife(disk, answers, mark), before);
      StaysSafe(Restart(w, again)) <==> D.UsedUpto(w.client, L.Max(L.Max(1, w.disk.saved), L.MaxSeq(w.disk.log)))
  {
    var w := Run(FirstLife(disk, answers, mark), before);
    FirstLifeInv(disk, answers, mark);
    RunKeepsInv(FirstLife(disk, answers, mark), before);
    RenumberedAtMostOnce(disk, answers, mark, before, again);
    if StartsFresh(w) {
      StepKeepsInv(w, RestartEvent(again));
      forall events | FreshRun(Restart(w, again), events) ensures AllSurvive(Run(Restart(w, again), events)) {
        RunKeepsInv(Restart(w, again), events);
        InvKeepsAll(Run(Restart(w, again), events));
      }
    } else {
      var events, m := StaleRestartLoses(w, again);
      assert !AllSurvive(Run(Restart(w, again), events));
    }
  }

  // ---------------------------------------------------------------------------------------------
  // Safe messages
  // ---------------------------------------------------------------------------------------------

  /** `m` counts as accepted all along: no full queue has dropped it. */
  ghost predicate KeptRun(w: World, events: seq<Event>, m: L.Message) {
    && m in Run(w, events).client.accepted
    && (events != [] ==> KeptRun(w, events[..|events| - 1], m))
  }

  /** Whatever happens from now on, `m` is not lost unless a full queue drops it. */
  ghost predicate IsSafe(w: World, m: L.Message) {
    forall events {:trigger Run(w, events)} :: KeptRun(w, events, m) ==> Survives(Run(w, events), m)
  }

  lemma {:induction false} KeptStaysSecure(w: World, events: seq<Event>, m: L.Message)
    requires DiskInv(w) && Secure(w, m) && KeptRun(w, events, m)
    ensures Secure(Run(w, events), m)
  {
    if events != [] {
      KeptStaysSecure(w, events[..|events| - 1], m);
      RunKeepsDisk(w, events[..|events| - 1]);
      KeptHeld(w, events[..|events| - 1], m);
      StepKeepsSecure(Run(w, events[..|events| - 1]), events[|events| - 1], m);
    }
  }

  lemma KeptHeld(w: World, events: seq<Event>, m: L.Message)
    requires KeptRun(w, events, m)
    ensures m in Run(w, events).client.accepted
  {
  }

  lemma SecureIsSafe(w: World, m: L.Message)
    requires DiskInv(w) && Secure(w, m)
    ensures IsSafe(w, m)
  {
    forall events | KeptRun(w, events, m) ensures Survives(Run(w, events), m) {
      KeptStaysSecure(w, events, m);
      RunKeepsDisk(w, events);
      SecureSurvives(Run(w, events), m);
    }
  }

  lemma {:induction false} LiftedIsKept(w: World, events: seq<D.Event>, m: L.Message)
    requires DiskInv(w) && w.disk.running && N.NoSends(events) && m in w.client.accepted
    ensures KeptRun(w, LiftAll(events), m)
  {
    LiftedRun(w, events);
    NoSendsKeepAccepted(w.client, events);
    if events != [] {
      LiftedIsKept(w, events[..|events| - 1], m);
      assert LiftAll(events)[..|LiftAll(events)| - 1] == LiftAll(events[..|events| - 1]);
    }
  }

  lemma {:induction false} NoSendsKeepAccepted(s: D.Client, events: seq<D.Event>)
    requires N.NoSends(events)
    ensures D.Run(s, events).accepted == s.accepted
  {
    if events != [] {
      NoSendsKeepAccepted(s, events[..|events| - 1]);
      D.OtherStepKeepsAccepted(D.Run(s, events[..|events| - 1]), events[|events| - 1]);
    }
  }

  /** The message of a send. */
  function Sent(w: World, e: Event): L.Message
    requires e.SendEvent?
  {
    L.Message(w.client.counter + 1, e.kind, e.payload)
  }

  predicate Accepts(w: World, r: World, m: L.Message) {
    && r.disk.running == w.disk.running
    && r.client.mark == w.client.mark && r.client.processed == w.client.processed
    && r.client.draining == w.client.draining
    && r.client.queue != [] && r.client.queue[|r.client.queue| - 1] == m
  }

  lemma DurableSendAccepts(w: World, m: L.Message, appended: bool, rewrite: L.Rewrite, written: bool)
    ensures
      var r := SendDurable(w, m, appended, rewrite, written);
      Accepts(w, r, m)
  {
    var (_, ok) := L.Push(w.disk, m, appended, rewrite);
    D.SendShape(w.client, m, true, ok, written);
  }

  lemma VolatileSendAcceptsNothing(w: World, m: L.Message, written: bool)
    ensures SendVolatile(w, m, written).client.accepted == w.client.accepted
  {
  }

  lemma SendAccepts(w: World, e: Event, r: World)
    requires e.SendEvent?
    requires
      var m := Sent(w, e);
      r == SendVolatile(w, m, e.written) || r == SendDurable(w, m, e.appended, e.rewrite, e.written)
    requires Sent(w, e) !in w.client.accepted && Sent(w, e) in r.client.accepted
    ensures Accepts(w, r, Sent(w, e))
  {
    VolatileSendAcceptsNothing(w, Sent(w, e), e.written);
    DurableSendAccepts(w, Sent(w, e), e.appended, e.rewrite, e.written);
  }

  /** What the send of an accepted message does to the client. */
  lemma AcceptingSend(w: World, e: Event)
    requires e.SendEvent? && Enabled(w, e)
    requires Sent(w, e) !in w.client.accepted && Sent(w, e) in Step(w, e).client.accepted
    ensures Accepts(w, Step(w, e), Sent(w, e))
  {
    SendIs(w, e);
    SendAccepts(w, e, Send(w, e));
  }

  /** A message that is accepted under a number in use can be lost. */
  lemma StaleMessageIsNotSafe(w: World, e: Event)
    requires DiskInv(w) && e.SendEvent? && Enabled(w, e) && e.kind != D.GREETING && N.Unseen(w.client, Sent(w, e))
    requires Sent(w, e) !in w.client.accepted && Sent(w, e) in Step(w, e).client.accepted
    requires !D.UsedUpto(w.client, w.client.counter)
    ensures !IsSafe(Step(w, e), Sent(w, e))
  {
    var m := Sent(w, e);
    var r := Step(w, e);
    AcceptingSend(w, e);
    StepKeepsDisk(w, e);
    var steps := N.SentBelowIsLost(r.client, |w.client.draining|, m);
    LiftedRun(r, steps);
    LiftedIsKept(r, steps, m);
    assert !Survives(Run(r, LiftAll(steps)), m);
  }

  /**
   In whatever state a run has led to, restarts below used numbers included: a message that is then accepted
   for the first time is safe for good if and only if the counter is not below any number that the server has
   seen or may still see.
   */
  lemma MessageIsSafeIff(disk: L.State, answers: L.StartAnswers, mark: int, before: seq<Event>, e: Event)
    requires L.DiskOk(disk) && !disk.running && L.Start(disk, answers).running
    requires e.SendEvent? && e.kind != D.GREETING
    requires
      var w := Run(FirstLife(disk, answers, mark), before);
      var m := Sent(w, e);
      && Enabled(w, e) && N.Unseen(w.client, m)
      && m !in w.client.accepted && m in Step(w, e).client.accepted
    ensures
      var w := Run(FirstLife(disk, answers, mark), before);
      IsSafe(Step(w, e), Sent(w, e)) <==> D.UsedUpto(w.client, w.client.counter)
  {
    var w := Run(FirstLife(disk, answers, mark), before);
    FirstLifeDisk(disk, answers, mark);
    RunKeepsDisk(FirstLife(disk, answers, mark), before);
    if D.UsedUpto(w.client, w.client.counter) {
      StepKeepsSecure(w, e, Sent(w, e));
      StepKeepsDisk(w, e);
      SecureIsSafe(Step(w, e), Sent(w, e));
    } else {
      StaleMessageIsNotSafe(w, e);
    }
  }

  // ---------------------------------------------------------------------------------------------
  // An unsafe start
  // ---------------------------------------------------------------------------------------------

  const GREETED := L.Message(1, D.GREETING, "")
  const OUTPUT := L.Message(2, "terminal.output", "")

  /** Terminal output is sent and handled; then the process dies before any acknowledgement comes back. */
  function OutputThenCrash(): seq<Event> {
    [WireEvent(D.ConnectEvent), WireEvent(D.HelloEvent("", true)), WireEvent(D.BeginReplayEvent),
     WireEvent(D.EndReplayEvent), SendEvent("terminal.output", "", true, L.Untouched, true),
     WireEvent(D.ReceiveEvent), WireEvent(D.ReceiveEvent), CrashEvent]
  }

  function Connected(wire: seq<L.Message>, received: nat, phase: D.Phase, counter: int, seen: set<L.Message>, mark: int)
    : World
  {
    World(L.State(true, 10, [], [], 0, counter, 0, {}),
          D.Client(counter, 0, 10, [], Some(D.Link(wire, received, 0, phase)), [], {}, seen, mark))
  }

  lemma NothingStarts()
    ensures L.Start(L.NOTHING, L.WROTE) == L.State(true, 10, [], [], 0, 1, 0, {})
    ensures L.DiskOk(L.NOTHING) && D.Starts(L.NOTHING, L.WROTE, 0)
    ensures D.Started(L.Start(L.NOTHING, L.WROTE), 0) == D.Client(1, 0, 10, [], None, [], {}, {}, 0)
  {
    var q := L.Start(L.NOTHING, L.WROTE);
    assert q.messages == [];
    assert D.Origin([], 0) == D.Client(0, 0, 0, [], None, [], {}, {}, 0);
  }

  lemma GreetingGoesOut(w: World)
    requires w == World(L.Start(L.NOTHING, L.WROTE), D.Client(1, 0, 10, [], None, [], {}, {}, 0))
    ensures Run(w, OutputThenCrash()[..4]) == Connected([GREETED], 0, D.Ready(true), 1, {}, 0)
  {
    NothingStarts();
    var events := OutputThenCrash();
    var w1 := Connected([], 0, D.Fresh, 1, {}, 0);
    var w2 := Connected([GREETED], 0, D.Greeted, 1, {}, 0);
    var w3 := Connected([GREETED], 0, D.Replaying([]), 1, {}, 0);
    assert events[..0] == [] && events[..1] == [] + [events[0]] && events[..2] == events[..1] + [events[1]];
    assert events[..3] == events[..2] + [events[2]] && events[..4] == events[..3] + [events[3]];
    RunOneMore(w, [], events[0]);
    assert Run(w, events[..1]) == w1;
    RunOneMore(w, events[..1], events[1]);
    assert [] + [GREETED] == [GREETED];
    assert Run(w, events[..2]) == w2;
    RunOneMore(w, events[..2], events[2]);
    assert Run(w, events[..3]) == w3;
    RunOneMore(w, events[..3], events[3]);
  }

  lemma OutputArrives(w: World)
    requires Run(w, OutputThenCrash()[..4]) == Connected([GREETED], 0, D.Ready(true), 1, {}, 0)
    ensures Run(w, OutputThenCrash()[..7]) == Connected([GREETED, OUTPUT], 2, D.Ready(true), 2, {GREETED, OUTPUT}, 2)
  {
    var events := OutputThenCrash();
    var w5 := Connected([GREETED, OUTPUT], 0, D.Ready(true), 2, {}, 0);
    var w6 := Connected([GREETED, OUTPUT], 1, D.Ready(true), 2, {GREETED}, 1);
    assert events[..5] == events[..4] + [events[4]] && events[..6] == events[..5] + [events[5]];
    assert events[..7] == events[..6] + [events[6]];
    RunOneMore(w, events[..4], events[4]);
    assert [GREETED] + [OUTPUT] == [GREETED, OUTPUT];
    assert Run(w, events[..5]) == w5;
    RunOneMore(w, events[..5], events[5]);
    assert {} + {GREETED} == {GREETED};
    assert Run(w, events[..6]) == w6;
    RunOneMore(w, events[..6], events[6]);
    assert {GREETED} + {OUTPUT} == {GREETED, OUTPUT};
  }

  /** The crash leaves a number in use that is nowhere on disk. */
  lemma CrashForgetsNumber()
    ensures
      var w := Run(FirstLife(L.NOTHING, L.WROTE, 0), OutputThenCrash());
      && w.disk == L.State(false, 10, [], [], 0, 2, 0, {})
      && w.client.mark == 2 && L.StartCounter(w.disk) == 1
  {
    NothingStarts();
    var first := FirstLife(L.NOTHING, L.WROTE, 0);
    var events := OutputThenCrash();
    GreetingGoesOut(first);
    OutputArrives(first);
    assert events[..7] + [events[7]] == events;
    RunOneMore(first, events[..7], events[7]);
  }

  /**
   The number of a volatile message leaves no trace on disk: if the process dies before it is
   acknowledged, the next process uses the number again, for a message that the server then skips.
   */
  lemma VolatileNumberIsReused() returns (after: seq<Event>, m: L.Message)
    ensures D.Starts(L.NOTHING, L.WROTE, 0) && FreshRun(FirstLife(L.NOTHING, L.WROTE, 0), OutputThenCrash())
    ensures
      var w := Run(FirstLife(L.NOTHING, L.WROTE, 0), OutputThenCrash());
      && !w.disk.running && L.Start(w.disk, L.WROTE).running
      && w.client.mark == 2 && L.StartCounter(w.disk) == 1
      && FreshRun(Restart(w, L.WROTE), after)
      && var r := Run(Restart(w, L.WROTE), after);
         m in r.client.accepted && !Survives(r, m)
  {
    NothingStarts();
    CrashForgetsNumber();
    WithoutRestartsIsFresh(FirstLife(L.NOTHING, L.WROTE, 0), OutputThenCrash());
    FirstLifeDisk(L.NOTHING, L.WROTE, 0);
    RunKeepsDisk(FirstLife(L.NOTHING, L.WROTE, 0), OutputThenCrash());
    after, m := StaleRestartLoses(Run(FirstLife(L.NOTHING, L.WROTE, 0), OutputThenCrash()), L.WROTE);
  }

  // ---------------------------------------------------------------------------------------------
  // Acknowledgements in order
  // ---------------------------------------------------------------------------------------------

  predicate InOrder(w: World, e: Event) {
    e.AckEvent? ==> D.NextAck(w.client, e.upto)
  }

  /** Each acknowledgement in the run is for the next frame of its connection. */
  predicate InOrderRun(w: World, events: seq<Event>) {
    || events == []
    || (&& InOrderRun(w, events[..|events| - 1])
        && InOrder(Run(w, events[..|events| - 1]), events[|events| - 1]))
  }

  /** The disk does not know of more than the client does. */
  ghost predicate SavedOk(w: World) {
    D.AckOrder(w.client) && (w.disk.running ==> w.disk.saved <= w.client.lastAcked)
  }

  lemma VolatileSendKeepsSaved(w: World, m: L.Message, written: bool)
    requires D.ClientOk(w.client) && SavedOk(w) && m.seqNo == w.client.counter + 1
    ensures SavedOk(SendVolatile(w, m, written))
  {
    D.SendKeepsOrder(w.client, m, false, false, written);
    D.SendShape(w.client, m, false, false, written);
  }

  lemma DurableSendKeepsSaved(w: World, m: L.Message, appended: bool, rewrite: L.Rewrite, written: bool)
    requires D.ClientOk(w.client) && SavedOk(w) && m.seqNo == w.client.counter + 1
    requires Mirrored(w) && w.disk.maxSize >= 1
    ensures SavedOk(SendDurable(w, m, appended, rewrite, written))
  {
    var (_, ok) := L.Push(w.disk, m, appended, rewrite);
    D.SendKeepsOrder(w.client, m, true, ok, written);
    PushIsEnqueue(w, m, appended, rewrite, written);
  }

  lemma SendKeepsSaved(w: World, e: Event, r: World)
    requires e.SendEvent? && D.ClientOk(w.client) && SavedOk(w) && Mirrored(w) && w.disk.maxSize >= 1
    requires
      var m := L.Message(w.client.counter + 1, e.kind, e.payload);
      r == SendVolatile(w, m, e.written) || r == SendDurable(w, m, e.appended, e.rewrite, e.written)
    ensures SavedOk(r)
  {
    var m := L.Message(w.client.counter + 1, e.kind, e.payload);
    VolatileSendKeepsSaved(w, m, e.written);
    DurableSendKeepsSaved(w, m, e.appended, e.rewrite, e.written);
  }

  lemma StepKeepsSaved(w: World, e: Event)
    requires DiskInv(w) && SavedOk(w) && InOrder(w, e)
    ensures SavedOk(Step(w, e))
  {
    if Enabled(w, e) {
      match e
      case SendEvent(_, _, _, _, _) =>
        SendIs(w, e);
        SendKeepsSaved(w, e, Send(w, e));
      case AckEvent(a, _, _, _, _) =>
        D.AckKeepsOrder(w.client, a);
        AckIsHandled(w, e);
      case WireEvent(step) =>
        D.StepKeepsAckOrder(w.client, step);
        D.WireStepKeepsQueue(w.client, step);
      case CrashEvent =>
      case RestartEvent(answers) =>
        if L.Start(w.disk, answers).running {
          L.StartedMessages(w.disk, answers);
        }
    }
  }

  lemma {:induction false} RunKeepsSaved(w: World, events: seq<Event>)
    requires DiskInv(w) && SavedOk(w) && InOrderRun(w, events)
    ensures SavedOk(Run(w, events))
  {
    if events != [] {
      RunKeepsSaved(w, events[..|events| - 1]);
      RunKeepsDisk(w, events[..|events| - 1]);
      StepKeepsSaved(Run(w, events[..|events| - 1]), events[|events| - 1]);
    }
  }

  lemma FirstLifeSaved(disk: L.State, answers: L.StartAnswers, mark: int)
    requires L.DiskOk(disk) && !disk.running && L.Start(disk, answers).running
    ensures SavedOk(FirstLife(disk, answers, mark))
  {
    L.StartedMessages(disk, answers);
  }

  /**
   When the server acknowledges the frames of each connection in their order, as it does, no
   acknowledgement is below the saved one, on any connection of any process.
   */
  lemma SavedNumberNeverFalls(disk: L.State, answers: L.StartAnswers, mark: int, events: seq<Event>, a: int)
    requires L.DiskOk(disk) && !disk.running && L.Start(disk, answers).running
    requires InOrderRun(FirstLife(disk, answers, mark), events)
    requires
      var w := Run(FirstLife(disk, answers, mark), events);
      w.disk.running && D.NextAck(w.client, a)
    ensures a >= Run(FirstLife(disk, answers, mark), events).disk.saved
  {
    FirstLifeDisk(disk, answers, mark);
    FirstLifeSaved(disk, answers, mark);
    RunKeepsDisk(FirstLife(disk, answers, mark), events);
    RunKeepsSaved(FirstLife(disk, answers, mark), events);
    D.AckKeepsOrder(Run(FirstLife(disk, answers, mark), events).client, a);
  }

  /** A step whose writes take effect, with acknowledgements in order. */
  predicate Sound(w: World, e: Event) {
    && InOrder(w, e)
    && (e.SendEvent? && !D.IsVolatile(e.kind) ==>
          e.appended && (|w.disk.messages| >= w.disk.maxSize ==> e.rewrite.Rewritten?))
    && (e.AckEvent? ==> e.noted)
  }

  predicate SoundRun(w: World, events: seq<Event>) {
    || events == []
    || (&& SoundRun(w, events[..|events| - 1])
        && Sound(Run(w, events[..|events| - 1]), events[|events| - 1]))
  }

  ghost predicate ExactWorld(w: World) {
    DiskInv(w) && SavedOk(w) && (w.disk.running ==> L.Exact(w.disk))
  }

  lemma SendKeepsExact(w: World, e: Event)
    requires ExactWorld(w) && e.SendEvent? && Enabled(w, e) && Sound(w, e)
    ensures L.Exact(Send(w, e).disk)
  {
    var m := L.Message(w.client.counter + 1, e.kind, e.payload);
    if !D.IsVolatile(e.kind) {
      L.PushKeepsExact(w.disk, m, e.appended, e.rewrite);
    }
  }

  lemma StepKeepsExact(w: World, e: Event)
    requires ExactWorld(w) && Sound(w, e)
    ensures ExactWorld(Step(w, e))
  {
    StepKeepsDisk(w, e);
    StepKeepsSaved(w, e);
    if Enabled(w, e) {
      match e
      case SendEvent(_, _, _, _, _) => SendKeepsExact(w, e);
      case AckEvent(a, recent, small, rewrite, noted) =>
        D.AckKeepsOrder(w.client, a);
        L.AckKeepsExact(w.disk, a, recent, small, rewrite, noted);
      case WireEvent(_) =>
      case CrashEvent =>
      case RestartEvent(answers) =>
        if L.Start(w.disk, answers).running {
          L.StartIsExact(w.disk, answers);
        }
    }
  }

  lemma {:induction false} RunKeepsExact(w: World, events: seq<Event>)
    requires ExactWorld(w) && SoundRun(w, events)
    ensures ExactWorld(Run(w, events))
  {
    if events != [] {
      RunKeepsExact(w, events[..|events| - 1]);
      StepKeepsExact(Run(w, events[..|events| - 1]), events[|events| - 1]);
    }
  }

  /**
   With acknowledgements in order and writes that take effect, a restart at any point would find exactly
   the messages that are queued, through any number of crashes and restarts.
   */
  lemma OrderedRunsAreExact(disk: L.State, answers: L.StartAnswers, mark: int, events: seq<Event>)
    requires L.DiskOk(disk) && !disk.running && L.Start(disk, answers).running
    requires SoundRun(FirstLife(disk, answers, mark), events)
    ensures
      var w := Run(FirstLife(disk, answers, mark), events);
      w.disk.running ==> L.Reload(w.disk) == w.client.queue
  {
    FirstLifeDisk(disk, answers, mark);
    FirstLifeSaved(disk, answers, mark);
    L.StartIsExact(disk, answers);
    RunKeepsExact(FirstLife(disk, answers, mark), events);
  }
}
